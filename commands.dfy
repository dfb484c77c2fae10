/**
 * The command layer of app.py as values: the nine commands, line parsing,
 * the name-to-command registry lookup, what each handler outputs and does
 * to the database state, and what the read loop makes of the outcome.
 */
module Commands {
  import opened Wrappers
  import opened Exceptions
  import opened Text
  import opened Dicts
  import opened Db

  /** One variant per registered command class. */
  datatype Command = Get | Set | Unset | Counts | Find | Begin | Rollback | Commit | End

  /** The class attribute `method`, the name the command is registered under. */
  function Method(c: Command): string
  {
    match c
    case Get => "GET"
    case Set => "SET"
    case Unset => "UNSET"
    case Counts => "COUNTS"
    case Find => "FIND"
    case Begin => "BEGIN"
    case Rollback => "ROLLBACK"
    case Commit => "COMMIT"
    case End => "END"
  }

  /** The nine registered names. */
  const MethodNames: set<string> :=
    {"GET", "SET", "UNSET", "COUNTS", "FIND", "BEGIN", "ROLLBACK", "COMMIT", "END"}

  /** Distinct commands have distinct names, and every name is one of the nine. */
  lemma MethodNamesExact(a: Command, b: Command)
    ensures Method(a) in MethodNames
    ensures Method(a) == Method(b) <==> a == b
  {
  }

  /** What one execution produces. */
  datatype Outcome =
    /** One line printed (GET, COUNTS, FIND). */
    | Printed(line: string)
    /** Done without output. */
    | Silent
    /** END raises KeyboardInterrupt to stop the read loop. */
    | Stop
    /** An exception escapes `execute`. */
    | Raised(error: Error)

  /** An outcome together with the database state it leaves behind. */
  datatype Effect = Effect(out: Outcome, next: DbState)

  /** The arity failure every handler raises. */
  const ParseFailure: Error := CommandParse(NotEnoughArgs)

  /**
   * `Command.parse`: the line split at every single space; the first part
   * names the method, the others are the arguments.
   */
  function Parse(line: string): (r: (string, seq<string>))
    ensures ' ' !in r.0
    ensures forall i :: 0 <= i < |r.1| ==> ' ' !in r.1[i]
    ensures Join([r.0] + r.1, ' ') == line
  {
    var parts := Split(line, ' ');
    JoinSplit(line, ' ');
    assert [parts[0]] + parts[1..] == parts;
    (parts[0], parts[1..])
  }

  /** Parsing a line built from space-free words gives the words back. */
  lemma ParseJoin(name: string, args: seq<string>)
    requires ' ' !in name
    requires forall i :: 0 <= i < |args| ==> ' ' !in args[i]
    ensures Parse(Join([name] + args, ' ')) == (name, args)
  {
    SplitJoin([name] + args, ' ');
    assert ([name] + args)[1..] == args;
  }

  /** `Handler.get_command` over the registry `reg`. */
  function Resolve(reg: map<string, Command>, key: string): (r: Result<Command, Error>)
    ensures r.Success? <==> key in reg
    ensures r.Success? ==> r.value == reg[key]
    ensures r.Failure? ==> r.error == NoCommandFound(NotFoundMessage(key))
  {
    if key in reg then Success(reg[key]) else Failure(NoCommandFound(NotFoundMessage(key)))
  }

  /** Every command is registered under its own `method`. */
  ghost predicate KeyedByMethod(reg: map<string, Command>)
  {
    forall k :: k in reg ==> Method(reg[k]) == k
  }

  /** The registry the nine `@Handler.register_command` decorations build. */
  function Builtins(): map<string, Command>
  {
    map[
      "GET" := Get, "SET" := Set, "COUNTS" := Counts, "UNSET" := Unset, "FIND" := Find,
      "END" := End, "BEGIN" := Begin, "ROLLBACK" := Rollback, "COMMIT" := Commit]
  }

  /**
   * The built-in registry holds exactly the nine names, each bound to the
   * command whose `method` it is; any other name fails to resolve.
   */
  lemma ResolveBuiltins(name: string)
    ensures Builtins().Keys == MethodNames
    ensures KeyedByMethod(Builtins())
    ensures forall c :: Resolve(Builtins(), Method(c)) == Success(c)
    ensures name !in MethodNames ==> Resolve(Builtins(), name) == Failure(NoCommandFound(NotFoundMessage(name)))
    ensures Resolve(Builtins(), name).Success? ==> Method(Resolve(Builtins(), name).value) == name
  {
  }

  /** GET: the value bound to the first argument, or the empty line. */
  function GetOutput(args: seq<string>, data: Data): (out: Outcome)
    ensures args == [] ==> out == Raised(ParseFailure)
    ensures args != [] ==> out == Printed(if args[0] in AsMap(data) then AsMap(data)[args[0]] else "")
  {
    if args == [] then Raised(ParseFailure) else Printed(Dicts.Get(data, args[0]).GetOr(""))
  }

  /** SET: binds the key to the value when given exactly two arguments. */
  function SetData(args: seq<string>, data: Data): (r: Result<Data, Error>)
    ensures |args| <= 1 ==> r == Failure(ParseFailure)
    ensures |args| > 2 ==> r == Failure(TooManyValues(2))
    ensures |args| == 2 ==> r.Success? && AsMap(r.value) == AsMap(data)[args[0] := args[1]]
    ensures r.Success? ==> Keys(r.value) == if args[0] in Keys(data) then Keys(data) else Keys(data) + [args[0]]
  {
    if |args| <= 1 then Failure(ParseFailure)
    else if |args| != 2 then Failure(TooManyValues(2))
    else Success(SetItem(data, args[0], args[1]))
  }

  /** UNSET: removes the key named by the first argument; a missing key fails. */
  function UnsetData(args: seq<string>, data: Data): (r: Result<Data, Error>)
    ensures args == [] ==> r == Failure(ParseFailure)
    ensures args != [] && args[0] !in AsMap(data) ==> r == Failure(KeyError(args[0]))
    ensures args != [] && args[0] in AsMap(data) ==> r.Success? && AsMap(r.value) == AsMap(data) - {args[0]}
    ensures r.Success? ==> var i := IndexOf(data, args[0]); i < |data| && r.value == data[..i] + data[i + 1..]
  {
    if args == [] then Failure(ParseFailure)
    else
      match Pop(data, args[0])
      case None => Failure(KeyError(args[0]))
      case Some(p) => Success(p.1)
  }

  /** COUNTS: the number of keys bound to the first argument, in decimal. */
  function CountsOutput(args: seq<string>, data: Data): (out: Outcome)
    ensures args == [] ==> out == Raised(ParseFailure)
    ensures args != [] ==> out == Printed(Decimal(|MatchingKeys(AsMap(data), args[0])|))
  {
    if args == [] then Raised(ParseFailure)
    else
      CountValueIsMatchingKeys(data, args[0]);
      Printed(Decimal(CountValue(data, args[0])))
  }

  /** FIND: the keys bound to the first argument, in insertion order, joined by single spaces. */
  function FindOutput(args: seq<string>, data: Data): (out: Outcome)
    ensures args == [] ==> out == Raised(ParseFailure)
    ensures args != [] ==> out.Printed?
    ensures args != [] && CountValue(data, args[0]) == 0 ==> out.line == ""
    ensures args != [] && out.line != "" ==> CountValue(data, args[0]) > 0
    ensures args != [] && KeysWithValue(data, args[0]) != [] ==> KeysWithValue(data, args[0])[0] <= out.line
  {
    if args == [] then Raised(ParseFailure)
    else
      KeysWithValueCount(data, args[0]);
      JoinSeparators(KeysWithValue(data, args[0]), ' ');
      Printed(Join(KeysWithValue(data, args[0]), ' '))
  }

  /** Every key of `d` is free of spaces. */
  ghost predicate SpaceFreeKeys(d: Data)
  {
    forall k :: k in Keys(d) ==> ' ' !in k
  }

  /**
   * FIND's line names exactly the keys bound to the value, each once and in
   * insertion order, so it lists as many keys as COUNTS counts; it is the
   * empty line when there are none.
   */
  lemma FindListsMatchingKeys(args: seq<string>, data: Data)
    requires args != [] && SpaceFreeKeys(data)
    ensures FindOutput(args, data).Printed?
    ensures CountValue(data, args[0]) == 0 ==> FindOutput(args, data).line == ""
    ensures CountValue(data, args[0]) > 0 ==>
      var words := Split(FindOutput(args, data).line, ' ');
      words == KeysWithValue(data, args[0]) && |words| == CountValue(data, args[0]) &&
      (forall k :: k in words <==> k in MatchingKeys(AsMap(data), args[0]))
  {
    var ks := KeysWithValue(data, args[0]);
    KeysWithValueCount(data, args[0]);
    assert FindOutput(args, data) == Printed(Join(ks, ' '));
    if ks != [] {
      forall i | 0 <= i < |ks| ensures ' ' !in ks[i] {
        assert ks[i] in MatchingKeys(AsMap(data), args[0]);
      }
      SplitJoin(ks, ' ');
    }
  }

  /** The result of an operation that may raise, as an effect on `s`. */
  function Changing(r: Result<Data, Error>, s: DbState): Effect
  {
    match r
    case Success(d) => Effect(Silent, s.(data := d))
    case Failure(e) => Effect(Raised(e), s)
  }

  /**
   * `execute(*args)` of the handler registered for `cmd`. Handlers check
   * their arguments before they touch anything, so a raised exception leaves
   * the state as it was; the control commands never raise; only the three
   * queries print, and only when given an argument; only END stops the loop.
   */
  function Step(cmd: Command, args: seq<string>, s: DbState): (e: Effect)
    ensures e.out.Raised? ==> e.next == s && cmd in {Get, Set, Unset, Counts, Find}
    ensures e.out.Printed? <==> cmd in {Get, Counts, Find} && args != []
    ensures e.out.Stop? <==> cmd == End
  {
    match cmd
    case Get => Effect(GetOutput(args, s.data), s)
    case Set => Changing(SetData(args, s.data), s)
    case Unset => Changing(UnsetData(args, s.data), s)
    case Counts => Effect(CountsOutput(args, s.data), s)
    case Find => Effect(FindOutput(args, s.data), s)
    case Begin => Effect(Silent, BeginState(s))
    case Rollback => Effect(Silent, RollbackState(s))
    case Commit => Effect(Silent, CommitState(s))
    case End => Effect(Stop, s)
  }

  /** Queries and END never change the state, and only BEGIN, ROLLBACK and COMMIT change the snapshot stack. */
  lemma StepFrame(cmd: Command, args: seq<string>, s: DbState)
    ensures cmd in {Get, Counts, Find, End} ==> Step(cmd, args, s).next == s
    ensures cmd !in {Begin, Rollback, Commit} ==> Step(cmd, args, s).next.transactions == s.transactions
  {
  }

  /** BEGIN, ROLLBACK and COMMIT ignore their arguments and act as the database methods; END only stops. */
  lemma ControlCommands(args: seq<string>, s: DbState)
    ensures Step(Begin, args, s) == Effect(Silent, BeginState(s))
    ensures Step(Rollback, args, s) == Effect(Silent, RollbackState(s))
    ensures Step(Commit, args, s) == Effect(Silent, CommitState(s))
    ensures Step(End, args, s) == Effect(Stop, s)
  {
  }

  /** After `SET k v`, GET of `k` prints `v` and GET of any other key prints what it did before. */
  lemma SetThenGet(k: string, v: string, other: string, s: DbState)
    requires other != k
    ensures Step(Get, [k], Step(Set, [k, v], s).next).out == Printed(v)
    ensures Step(Get, [other], Step(Set, [k, v], s).next).out == Step(Get, [other], s).out
  {
  }

  /** After a successful `UNSET k`, GET of `k` prints the empty line and other keys are unaffected. */
  lemma UnsetThenGet(k: string, other: string, s: DbState)
    requires k in AsMap(s.data) && other != k
    ensures Step(Unset, [k], s).out == Silent
    ensures Step(Get, [k], Step(Unset, [k], s).next).out == Printed("")
    ensures Step(Get, [other], Step(Unset, [k], s).next).out == Step(Get, [other], s).out
  {
  }

  /** Space-free keys in the data and in every snapshot. */
  ghost predicate SpaceFreeState(s: DbState)
  {
    SpaceFreeKeys(s.data) && forall i :: 0 <= i < |s.transactions| ==> SpaceFreeKeys(s.transactions[i])
  }

  /** A command given space-free arguments (as `Parse` yields) never stores a key with a space. */
  lemma StepKeepsKeysSpaceFree(cmd: Command, args: seq<string>, s: DbState)
    requires SpaceFreeState(s)
    requires forall i :: 0 <= i < |args| ==> ' ' !in args[i]
    ensures SpaceFreeState(Step(cmd, args, s).next)
  {
    match cmd
    case Unset =>
      var r := UnsetData(args, s.data);
      if r.Success? {
        var i := IndexOf(s.data, args[0]);
        KeysOfRemoval(s.data, i);
      }
    case Rollback =>
      var t := s.transactions;
      if t != [] {
        assert SpaceFreeKeys(t[|t| - 1]);
      }
    case _ =>
  }

  /** The keys left after removing one entry are keys of the original. */
  lemma {:induction false} KeysOfRemoval(d: seq<Entry>, i: nat)
    requires i < |d|
    ensures forall k :: k in Keys(d[..i] + d[i + 1..]) ==> k in Keys(d)
  {
    if i == 0 {
      assert d[..0] + d[1..] == d[1..];
    } else {
      KeysOfRemoval(d[1..], i - 1);
      assert d[..i] + d[i + 1..] == [d[0]] + (d[1..][..i - 1] + d[1..][i..]);
    }
  }

  /** One non-empty input line: parse it, resolve the name, execute the command. */
  function RunLine(reg: map<string, Command>, line: string, s: DbState): Effect
  {
    var (name, args) := Parse(line);
    match Resolve(reg, name)
    case Failure(e) => Effect(Raised(e), s)
    case Success(cmd) => Step(cmd, args, s)
  }

  /**
   * A line that raises leaves the state as it was, and only a line naming
   * BEGIN, ROLLBACK or COMMIT changes the snapshot stack.
   */
  lemma RunLineFrame(reg: map<string, Command>, line: string, s: DbState)
    ensures RunLine(reg, line, s).out.Raised? ==> RunLine(reg, line, s).next == s
    ensures RunLine(reg, line, s).next.transactions != s.transactions ==>
      Parse(line).0 in reg && reg[Parse(line).0] in {Begin, Rollback, Commit}
  {
    var (name, args) := Parse(line);
    if name in reg {
      StepFrame(reg[name], args, s);
    }
  }

  /** Lines keep every stored key free of spaces, so FIND's line always splits back into its keys. */
  lemma RunLineKeepsKeysSpaceFree(reg: map<string, Command>, line: string, s: DbState)
    requires SpaceFreeState(s)
    ensures SpaceFreeState(RunLine(reg, line, s).next)
  {
    var (name, args) := Parse(line);
    match Resolve(reg, name)
    case Failure(e) =>
    case Success(cmd) => StepKeepsKeysSpaceFree(cmd, args, s);
  }

  /** A line `name a1 .. an` of space-free words runs the command registered as `name`, or fails to resolve. */
  lemma RunLineDispatch(reg: map<string, Command>, name: string, args: seq<string>, s: DbState)
    requires ' ' !in name
    requires forall i :: 0 <= i < |args| ==> ' ' !in args[i]
    ensures name in reg ==> RunLine(reg, Join([name] + args, ' '), s) == Step(reg[name], args, s)
    ensures name !in reg ==>
      RunLine(reg, Join([name] + args, ' '), s) == Effect(Raised(NoCommandFound(NotFoundMessage(name))), s)
  {
    ParseJoin(name, args);
  }

  /** What the read loop does after one command. */
  datatype LoopAction =
    /** Read the next line. */
    | Proceed
    /** Log the CommandException's message, then read the next line. */
    | LogAndProceed(msg: string)
    /** Print "Bye!" and leave the loop. */
    | SayBye
    /** The exception is no CommandException: it escapes the loop. */
    | Crash(error: Error)

  /** The `try`/`except` around one command in `App.start`. */
  function Disposition(out: Outcome): (a: LoopAction)
    ensures a.Crash? <==> out.Raised? && !IsCommandException(out.error)
    ensures a.SayBye? <==> out.Stop?
    ensures a.LogAndProceed? ==> out.Raised? && a.msg == out.error.msg
    ensures a.Crash? ==> a.error == out.error
    ensures out.Raised? && IsCommandException(out.error) ==> a == LogAndProceed(out.error.msg)
    ensures out.Printed? || out.Silent? ==> a == Proceed
  {
    match out
    case Printed(_) => Proceed
    case Silent => Proceed
    case Stop => SayBye
    case Raised(e) => if IsCommandException(e) then LogAndProceed(e.msg) else Crash(e)
  }

  /** Any line naming UNSET and a missing key raises a KeyError, which the loop does not catch. */
  lemma UnsetMissingKeyCrashes(line: string, s: DbState)
    requires Parse(line).0 == "UNSET" && Parse(line).1 != [] && Parse(line).1[0] !in AsMap(s.data)
    ensures Disposition(RunLine(Builtins(), line, s).out) == Crash(KeyError(Parse(line).1[0]))
    ensures RunLine(Builtins(), line, s).next == s
  {
    assert Builtins()["UNSET"] == Unset;
    var args := Parse(line).1;
    assert UnsetData(args, s.data) == Failure(KeyError(args[0]));
  }

  /** SET with more than two arguments raises a ValueError and changes nothing. */
  lemma SetTooManyRaises(args: seq<string>, s: DbState)
    requires |args| >= 3
    ensures Step(Set, args, s) == Effect(Raised(TooManyValues(2)), s)
  {
  }

  /** Any line naming SET with more than two arguments raises a ValueError, which the loop does not catch. */
  lemma SetTooManyCrashes(line: string, s: DbState)
    requires Parse(line).0 == "SET" && |Parse(line).1| >= 3
    ensures Disposition(RunLine(Builtins(), line, s).out) == Crash(TooManyValues(2))
  {
    assert Builtins()["SET"] == Set;
    SetTooManyRaises(Parse(line).1, s);
  }

  /** A bare SET and an unknown name are only logged, and the state is kept. */
  lemma ShortOrUnknownIsLogged(name: string, s: DbState)
    requires ' ' !in name && name !in MethodNames
    ensures RunLine(Builtins(), "SET", s) == Effect(Raised(ParseFailure), s)
    ensures Disposition(RunLine(Builtins(), "SET", s).out) == LogAndProceed(NotEnoughArgs)
    ensures Disposition(RunLine(Builtins(), name, s).out) == LogAndProceed(NotFoundMessage(name))
    ensures RunLine(Builtins(), name, s).next == s
  {
    RunLineDispatch(Builtins(), "SET", [], s);
    assert Join(["SET"], ' ') == "SET";
    assert Builtins()["SET"] == Set;
    RunLineDispatch(Builtins(), name, [], s);
    assert Join([name], ' ') == name;
  }
}

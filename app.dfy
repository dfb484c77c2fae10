/**
 * The objects of app.py: the `Handler` registry that the nine
 * `@Handler.register_command` decorations fill, and the `App` that owns the
 * database and runs each parsed line against it. Their methods change the
 * objects in place and are proved to do what `Commands.Step` and
 * `Commands.RunLine` say.
 */
module Application {
  import opened Wrappers
  import opened Exceptions
  import opened Text
  import opened Dicts
  import opened Db
  import opened Commands

  /** The registry of app.py:54-83: one command instance per `method` name. */
  class Handler {
    var commands: map<string, Command>

    /**
     * The registry as it stands once app.py has been imported: the nine
     * command classes registered in the order they are declared.
     */
    constructor ()
      ensures commands == Builtins()
    {
      commands := map[];
      new;
      RegisterCommand(Get);
      RegisterCommand(Set);
      RegisterCommand(Counts);
      RegisterCommand(Unset);
      RegisterCommand(Find);
      RegisterCommand(End);
      RegisterCommand(Begin);
      RegisterCommand(Rollback);
      RegisterCommand(Commit);
    }

    /** `register_command`: binds the command's `method` name to an instance of it. */
    method RegisterCommand(cmd: Command)
      modifies this
      ensures commands == old(commands)[Method(cmd) := cmd]
    {
      commands := commands[Method(cmd) := cmd];
    }

    /** `get_command`: the command registered under `key`, or NoCommandFoundException. */
    method GetCommand(key: string) returns (r: Result<Command, Error>)
      ensures key in commands ==> r == Success(commands[key])
      ensures key !in commands ==> r == Failure(NoCommandFound(NotFoundMessage(key)))
      ensures r.Success? ==> key in commands
    {
      if key !in commands {
        return Failure(NoCommandFound(NotFoundMessage(key)));
      }
      r := Success(commands[key]);
    }
  }

  /** How the read loop ended. */
  datatype Exit =
    /** "Bye!" was printed: END, or the end of the input. */
    | Bye
    /** An exception that is no CommandException escaped the loop. */
    | Crashed(error: Error)

  /** What a run over a list of input lines prints, how it ends, and the state it leaves. */
  datatype Session = Session(printed: seq<string>, exit: Exit, final: DbState)

  /** A session whose printed lines are preceded by `p`. */
  function After(p: seq<string>, r: Session): Session
  {
    r.(printed := p + r.printed)
  }

  /** The line an outcome prints, if any. */
  function Shown(out: Outcome): seq<string>
  {
    if out.Printed? then [out.line] else []
  }

  /** What one input line does: an empty line is skipped, any other is parsed and run. */
  function LineEffect(reg: map<string, Command>, line: string, s: DbState): Effect
  {
    if line == "" then Effect(Silent, s) else RunLine(reg, line, s)
  }

  /** What the loop does next after an input line with outcome `out`. */
  function LineAction(line: string, out: Outcome): LoopAction
  {
    if line == "" then Proceed else Disposition(out)
  }

  /**
   * The read loop of `App.start` over the input lines: empty lines are
   * skipped, each other line is run, printed lines are collected and
   * logged errors are passed over; END or the end of the input prints
   * "Bye!", an uncaught exception ends the run.
   */
  function RunSession(reg: map<string, Command>, lines: seq<string>, s: DbState): Session
    decreases |lines|
  {
    if lines == [] then Session(["Bye!"], Bye, s)
    else
      var e := LineEffect(reg, lines[0], s);
      match LineAction(lines[0], e.out)
      case Proceed => After(Shown(e.out), RunSession(reg, lines[1..], e.next))
      case LogAndProceed(_) => RunSession(reg, lines[1..], e.next)
      case SayBye => Session(["Bye!"], Bye, e.next)
      case Crash(err) => Session([], Crashed(err), e.next)
  }

  /**
   * A run that ends normally has "Bye!" as its last printed line, a crash
   * is always an exception that is no CommandException, and each input
   * line prints at most one line.
   */
  lemma {:induction false} SessionShape(reg: map<string, Command>, lines: seq<string>, s: DbState)
    ensures var r := RunSession(reg, lines, s);
      && (r.exit.Bye? ==> r.printed != [] && r.printed[|r.printed| - 1] == "Bye!")
      && (r.exit.Crashed? ==> !IsCommandException(r.exit.error))
      && |r.printed| <= |lines| + 1
    decreases |lines|
  {
    if lines != [] {
      var e := LineEffect(reg, lines[0], s);
      SessionShape(reg, lines[1..], e.next);
    }
  }

  /**
   * One line of a session: after the lines before `i` printed `printed`,
   * the line at `i` either lets the run go on from the next line or ends it.
   */
  lemma SessionStep(reg: map<string, Command>, lines: seq<string>, i: nat, s: DbState, printed: seq<string>, e: Effect)
    requires i < |lines| && e == LineEffect(reg, lines[i], s)
    ensures var rest := RunSession(reg, lines[i + 1..], e.next);
      After(printed, RunSession(reg, lines[i..], s)) ==
        match LineAction(lines[i], e.out)
        case Proceed => After(printed + Shown(e.out), rest)
        case LogAndProceed(_) => After(printed, rest)
        case SayBye => Session(printed + ["Bye!"], Bye, e.next)
        case Crash(err) => Session(printed, Crashed(err), e.next)
  {
    assert lines[i..][0] == lines[i] && lines[i..][1..] == lines[i + 1..];
  }

  /** Lines after an END are never read: the run ends there with "Bye!". */
  lemma {:induction false} EndStopsSession(reg: map<string, Command>, before: seq<string>, rest: seq<string>, s: DbState)
    requires reg == Builtins()
    requires forall i :: 0 <= i < |before| ==> before[i] == ""
    ensures RunSession(reg, before + ["END"] + rest, s) == Session(["Bye!"], Bye, s)
    decreases |before|
  {
    if before == [] {
      assert (before + ["END"] + rest)[0] == "END";
      assert Join(["END"], ' ') == "END";
      RunLineDispatch(reg, "END", [], s);
      assert reg["END"] == End;
    } else {
      assert (before + ["END"] + rest)[1..] == before[1..] + ["END"] + rest;
      EndStopsSession(reg, before[1..], rest, s);
    }
  }

  /** The `App` of app.py:23-51: the database and the command registry. */
  class App {
    const db: DataBase
    const handler: Handler

    /** `App(db)`: a fresh registry holding the nine commands, over the given database. */
    constructor (db: DataBase)
      ensures this.db == db && fresh(handler) && handler.commands == Builtins()
    {
      this.db := db;
      handler := new Handler();
    }

    /**
     * `cmd.execute(*args)` for the handler registered as `cmd`: checks the
     * arguments, then reads or changes the database in place.
     */
    method Execute(cmd: Command, args: seq<string>) returns (out: Outcome)
      modifies db
      ensures Effect(out, db.State()) == Step(cmd, args, old(db.State()))
    {
      match cmd {
      case Get =>
        if args == [] {
          return Raised(ParseFailure);
        }
        out := Printed(Dicts.Get(db.data, args[0]).GetOr(""));
      case Set =>
        if |args| <= 1 {
          return Raised(ParseFailure);
        }
        if |args| != 2 {
          return Raised(TooManyValues(2));
        }
        db.data := SetItem(db.data, args[0], args[1]);
        out := Silent;
      case Counts =>
        if args == [] {
          return Raised(ParseFailure);
        }
        out := Printed(Decimal(CountValue(db.data, args[0])));
      case Unset =>
        if args == [] {
          return Raised(ParseFailure);
        }
        match Pop(db.data, args[0]) {
        case None =>
          out := Raised(KeyError(args[0]));
        case Some(p) =>
          db.data := p.1;
          out := Silent;
        }
      case Find =>
        if args == [] {
          return Raised(ParseFailure);
        }
        out := Printed(Join(KeysWithValue(db.data, args[0]), ' '));
      case End =>
        out := Stop;
      case Begin =>
        db.Begin();
        out := Silent;
      case Rollback =>
        db.Rollback();
        out := Silent;
      case Commit =>
        db.Commit();
        out := Silent;
      }
    }

    /**
     * One pass of the loop body of `App.start` for a line already read:
     * skip it when empty, otherwise parse it, look the name up, execute,
     * and decide what the `try`/`except` does with the outcome.
     */
    method HandleLine(line: string) returns (out: Outcome, action: LoopAction)
      modifies db
      ensures line == "" ==> action == Proceed && out == Silent && db.State() == old(db.State())
      ensures Effect(out, db.State()) == LineEffect(handler.commands, line, old(db.State()))
      ensures action == LineAction(line, out)
    {
      if line == "" {
        return Silent, Proceed;
      }
      var (name, args) := Parse(line);
      var found := handler.GetCommand(name);
      match found {
      case Failure(e) =>
        out := Raised(e);
      case Success(cmd) =>
        out := Execute(cmd, args);
      }
      action := Disposition(out);
    }

    /**
     * `App.start` over the given input lines: runs them until END, an
     * uncaught exception or the end of the input, and returns what was
     * printed.
     */
    method Start(lines: seq<string>) returns (printed: seq<string>, exit: Exit)
      modifies db
      ensures RunSession(handler.commands, lines, old(db.State())) == Session(printed, exit, db.State())
    {
      ghost var reg := handler.commands;
      ghost var s0 := db.State();
      var i := 0;
      printed := [];
      while i < |lines|
        invariant 0 <= i <= |lines|
        invariant handler.commands == reg
        invariant RunSession(reg, lines, s0) == After(printed, RunSession(reg, lines[i..], db.State()))
      {
        ghost var s := db.State();
        var out, action := HandleLine(lines[i]);
        SessionStep(reg, lines, i, s, printed, Effect(out, db.State()));
        match action {
        case Proceed =>
          printed := printed + Shown(out);
        case LogAndProceed(_) =>
        case SayBye =>
          return printed + ["Bye!"], Bye;
        case Crash(err) =>
          return printed, Crashed(err);
        }
        i := i + 1;
      }
      printed := printed + ["Bye!"];
      exit := Bye;
    }
  }
}

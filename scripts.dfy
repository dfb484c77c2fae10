/**
 * The command layer seen as scripts of database operations: every command
 * acts on the state as one `Transactions.Op` does, so the laws proved about
 * scripts carry over to sequences of commands.
 */
module Scripts {
  import opened Dicts
  import opened Db
  import opened Commands
  import opened Transactions

  /** A command together with its arguments, as the loop hands it to `execute`. */
  type Call = (Command, seq<string>)

  /**
   * The operation a command performs on state `s`: BEGIN, ROLLBACK and
   * COMMIT are the database methods, any other command at most rewrites the
   * live data.
   */
  function OpOf(cmd: Command, args: seq<string>, s: DbState): Op
  {
    match cmd
    case Begin => OpBegin
    case Rollback => OpRollback
    case Commit => OpCommit
    case _ => OpWrite(Step(cmd, args, s).next.data)
  }

  /** The state a command leaves is the state its operation leaves. */
  lemma StepIsApply(cmd: Command, args: seq<string>, s: DbState)
    ensures Step(cmd, args, s).next == Apply(OpOf(cmd, args, s), s)
    ensures OpOf(cmd, args, s).OpWrite? <==> cmd !in {Begin, Rollback, Commit}
  {
    StepFrame(cmd, args, s);
  }

  /** The state after executing `calls` one after the other from `s`. */
  function Steps(calls: seq<Call>, s: DbState): DbState
    decreases |calls|
  {
    if calls == [] then s else Steps(calls[1..], Step(calls[0].0, calls[0].1, s).next)
  }

  /** The operations `calls` perform, starting from `s`. */
  function ScriptOf(calls: seq<Call>, s: DbState): seq<Op>
    decreases |calls|
  {
    if calls == [] then []
    else [OpOf(calls[0].0, calls[0].1, s)] + ScriptOf(calls[1..], Step(calls[0].0, calls[0].1, s).next)
  }

  /** Executing commands is running the script of their operations. */
  lemma {:induction false} StepsAreRun(calls: seq<Call>, s: DbState)
    ensures Steps(calls, s) == Run(ScriptOf(calls, s), s)
    decreases |calls|
  {
    if calls != [] {
      var s' := Step(calls[0].0, calls[0].1, s).next;
      StepIsApply(calls[0].0, calls[0].1, s);
      StepsAreRun(calls[1..], s');
      assert ScriptOf(calls, s)[1..] == ScriptOf(calls[1..], s');
    }
  }

  /** The script of two runs of commands is the script of the first, then that of the second. */
  lemma {:induction false} ScriptOfAppend(a: seq<Call>, b: seq<Call>, s: DbState)
    ensures ScriptOf(a + b, s) == ScriptOf(a, s) + ScriptOf(b, Steps(a, s))
    ensures Steps(a + b, s) == Steps(b, Steps(a, s))
    decreases |a|
  {
    if a == [] {
      assert a + b == b;
    } else {
      assert (a + b)[1..] == a[1..] + b;
      ScriptOfAppend(a[1..], b, Step(a[0].0, a[0].1, s).next);
    }
  }

  /** No call in `calls` is BEGIN, ROLLBACK or COMMIT. */
  predicate NoControl(calls: seq<Call>)
  {
    forall i :: 0 <= i < |calls| ==> calls[i].0 !in {Begin, Rollback, Commit}
  }

  /** Commands other than BEGIN, ROLLBACK and COMMIT only write: their script never moves the stack. */
  lemma {:induction false} NoControlOnlyWrites(calls: seq<Call>, s: DbState)
    requires NoControl(calls)
    ensures StaysAbove(ScriptOf(calls, s), 0) && Net(ScriptOf(calls, s)) == 0
    decreases |calls|
  {
    if calls != [] {
      var s' := Step(calls[0].0, calls[0].1, s).next;
      StepIsApply(calls[0].0, calls[0].1, s);
      assert NoControl(calls[1..]) by {
        forall i | 0 <= i < |calls[1..]| ensures calls[1..][i].0 !in {Begin, Rollback, Commit} {
          assert calls[1..][i] == calls[i + 1];
        }
      }
      NoControlOnlyWrites(calls[1..], s');
      assert ScriptOf(calls, s)[1..] == ScriptOf(calls[1..], s');
    }
  }

  /**
   * BEGIN, any commands that are not BEGIN, ROLLBACK or COMMIT (SETs,
   * UNSETs, queries, even ones that fail), then ROLLBACK: the database is
   * back to what it was before the BEGIN, data and stack alike.
   */
  lemma BeginWritesRollback(body: seq<Call>, s: DbState)
    requires NoControl(body)
    ensures Steps([(Begin, [])] + body + [(Rollback, [])], s) == s
  {
    var open: seq<Call> := [(Begin, [])];
    var close: seq<Call> := [(Rollback, [])];
    var s1 := BeginState(s);
    ScriptOfAppend(open + body, close, s);
    ScriptOfAppend(open, body, s);
    assert ScriptOf(open, s) == [OpBegin];
    assert Steps(open, s) == s1;
    var s2 := Steps(body, s1);
    assert ScriptOf(close, s2) == [OpRollback];
    NoControlOnlyWrites(body, s1);
    RollbackUndoesTransaction(ScriptOf(body, s1), s);
    StepsAreRun(open + body + close, s);
  }
}

/**
 * Laws of the snapshot stack over scripts of database operations.
 * `OpWrite(d)` stands for any in-place change of the live data (SET and
 * UNSET are such changes and never touch the stack; see `Commands`).
 */
module Transactions {
  import opened Dicts
  import opened Db

  datatype Op = OpBegin | OpRollback | OpCommit | OpWrite(data: Data)

  function Apply(op: Op, s: DbState): DbState
  {
    match op
    case OpBegin => BeginState(s)
    case OpRollback => RollbackState(s)
    case OpCommit => CommitState(s)
    case OpWrite(d) => s.(data := d)
  }

  /** The state after running `ops` from `s`, first operation first. */
  function Run(ops: seq<Op>, s: DbState): DbState
    decreases |ops|
  {
    if ops == [] then s else Run(ops[1..], Apply(ops[0], s))
  }

  /** Running two scripts one after the other is running their concatenation. */
  lemma {:induction false} RunAppend(a: seq<Op>, b: seq<Op>, s: DbState)
    ensures Run(a + b, s) == Run(b, Run(a, s))
    decreases |a|
  {
    if a == [] {
      assert a + b == b;
    } else {
      assert (a + b)[1..] == a[1..] + b;
      RunAppend(a[1..], b, Apply(a[0], s));
    }
  }

  /**
   * The script never commits and never rolls back further than the `open`
   * transactions it may close plus the ones it opens itself.
   */
  predicate StaysAbove(ops: seq<Op>, open: nat)
    decreases |ops|
  {
    ops == [] ||
    match ops[0]
    case OpBegin => StaysAbove(ops[1..], open + 1)
    case OpRollback => open > 0 && StaysAbove(ops[1..], open - 1)
    case OpCommit => false
    case OpWrite(_) => StaysAbove(ops[1..], open)
  }

  /** Begins minus rollbacks. */
  function Net(ops: seq<Op>): int
    decreases |ops|
  {
    if ops == [] then 0
    else (match ops[0] case OpBegin => 1 case OpRollback => -1 case _ => 0) + Net(ops[1..])
  }

  /**
   * Snapshots below the `open` newest ones are never touched by a script
   * that stays above them, however it writes: each is an independent copy,
   * and the stack's depth changes by exactly the script's net begins.
   */
  lemma {:induction false} SnapshotsKept(ops: seq<Op>, open: nat, s: DbState)
    requires StaysAbove(ops, open)
    requires open <= |s.transactions|
    ensures s.transactions[..|s.transactions| - open] <= Run(ops, s).transactions
    ensures |Run(ops, s).transactions| == |s.transactions| + Net(ops)
    decreases |ops|
  {
    if ops != [] {
      var t := s.transactions;
      var s' := Apply(ops[0], s);
      match ops[0]
      case OpBegin =>
        assert s'.transactions[..|s'.transactions| - (open + 1)] == t[..|t| - open];
        SnapshotsKept(ops[1..], open + 1, s');
      case OpRollback =>
        assert s'.transactions[..|s'.transactions| - (open - 1)] == t[..|t| - open];
        SnapshotsKept(ops[1..], open - 1, s');
      case OpWrite(_) =>
        SnapshotsKept(ops[1..], open, s');
    }
  }

  /**
   * A rollback undoes exactly what happened since the matching begin:
   * any balanced body in between leaves the data and the outer snapshots
   * as they were before the begin.
   */
  lemma RollbackUndoesTransaction(body: seq<Op>, s: DbState)
    requires StaysAbove(body, 0) && Net(body) == 0
    ensures Run([OpBegin] + body + [OpRollback], s) == s
  {
    var s1 := BeginState(s);
    RunAppend([OpBegin] + body, [OpRollback], s);
    RunAppend([OpBegin], body, s);
    SnapshotsKept(body, 0, s1);
    var s2 := Run(body, s1);
    assert s1.transactions[..|s1.transactions|] == s1.transactions;
    assert s2.transactions == s.transactions + [s.data];
    assert (s.transactions + [s.data])[..|s.transactions|] == s.transactions;
  }

  /** A write for each of `ds`, in order. */
  function Writes(ds: seq<Data>): seq<Op>
  {
    if ds == [] then [] else [OpWrite(ds[0])] + Writes(ds[1..])
  }

  /** Writes never touch the snapshot stack. */
  lemma {:induction false} WritesKeepStack(ds: seq<Data>, s: DbState)
    ensures Run(Writes(ds), s).transactions == s.transactions
    decreases |ds|
  {
    if ds != [] {
      WritesKeepStack(ds[1..], s.(data := ds[0]));
    }
  }

  /** One begin per segment of `opens`, each followed by that segment's writes. */
  function Opening(opens: seq<seq<Data>>): seq<Op>
  {
    if opens == [] then [] else [OpBegin] + Writes(opens[0]) + Opening(opens[1..])
  }

  /** One rollback per segment of `closes`, each preceded by that segment's writes. */
  function Closing(closes: seq<seq<Data>>): seq<Op>
  {
    if closes == [] then []
    else Closing(closes[..|closes| - 1]) + Writes(closes[|closes| - 1]) + [OpRollback]
  }

  /**
   * For every n, n begins followed by n rollbacks give back the state held
   * before the first begin, whatever writes come after each begin and
   * before each rollback.
   */
  lemma {:induction false} NestedBeginsRollbacks(opens: seq<seq<Data>>, closes: seq<seq<Data>>, s: DbState)
    requires |opens| == |closes|
    ensures Run(Opening(opens) + Closing(closes), s) == s
    decreases |opens|
  {
    if opens != [] {
      var n := |closes|;
      var inner := Opening(opens[1..]) + Closing(closes[..n - 1]);
      var last := Writes(closes[n - 1]) + [OpRollback];
      assert Opening(opens) + Closing(closes) == [OpBegin] + Writes(opens[0]) + inner + last;
      RunAppend([OpBegin] + Writes(opens[0]) + inner, last, s);
      RunAppend([OpBegin] + Writes(opens[0]), inner, s);
      RunAppend([OpBegin], Writes(opens[0]), s);
      var s1 := Run(Writes(opens[0]), BeginState(s));
      WritesKeepStack(opens[0], BeginState(s));
      NestedBeginsRollbacks(opens[1..], closes[..n - 1], s1);
      RunAppend(Writes(closes[n - 1]), [OpRollback], s1);
      WritesKeepStack(closes[n - 1], s1);
      assert (s.transactions + [s.data])[..|s.transactions|] == s.transactions;
    }
  }

  /** `n` rollbacks. */
  function Rollbacks(n: nat): seq<Op>
  {
    if n == 0 then [] else [OpRollback] + Rollbacks(n - 1)
  }

  /** With no transaction open, any number of rollbacks changes nothing. */
  lemma {:induction false} RollbacksOnEmptyStack(n: nat, s: DbState)
    requires s.transactions == []
    ensures Run(Rollbacks(n), s) == s
  {
    if n > 0 {
      RollbacksOnEmptyStack(n - 1, s);
    }
  }

  /**
   * After a commit no rollback point remains: rollbacks following it change
   * nothing, so the writes made inside the committed transactions survive.
   */
  lemma CommitThenRollbacks(before: seq<Op>, n: nat, s: DbState)
    ensures Run(before + [OpCommit] + Rollbacks(n), s) == CommitState(Run(before, s))
    ensures Run(before + [OpCommit] + Rollbacks(n), s).data == Run(before, s).data
  {
    RunAppend(before + [OpCommit], Rollbacks(n), s);
    RunAppend(before, [OpCommit], s);
    RollbacksOnEmptyStack(n, CommitState(Run(before, s)));
  }
}

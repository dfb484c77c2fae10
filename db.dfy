/**
 * The transactional database of db.py: the live `Data` plus a stack of
 * snapshots, one per open transaction. `DbState` is the value the object
 * holds; `BeginState`, `RollbackState` and `CommitState` say what each
 * method makes of it, and the class's methods are proved to do exactly that.
 */
module Db {
  import opened Dicts

  /** The live data and the snapshot stack, oldest snapshot first. */
  datatype DbState = DbState(data: Data, transactions: seq<Data>)

  /** `begin`: push a copy of the live data; the data stays as it is. */
  function BeginState(s: DbState): DbState
  {
    DbState(s.data, s.transactions + [s.data])
  }

  /** `rollback`: pop the newest snapshot into the live data; nothing when no snapshot is open. */
  function RollbackState(s: DbState): DbState
  {
    if s.transactions == [] then s
    else DbState(s.transactions[|s.transactions| - 1], s.transactions[..|s.transactions| - 1])
  }

  /** `commit` (through `clear_transactions`): forget every snapshot; the data stays as it is. */
  function CommitState(s: DbState): DbState
  {
    DbState(s.data, [])
  }

  /** A begin followed by a rollback gives back the state before the begin. */
  lemma BeginThenRollback(s: DbState)
    ensures RollbackState(BeginState(s)) == s
  {
    assert (s.transactions + [s.data])[..|s.transactions|] == s.transactions;
  }

  /** Begin opens exactly one transaction whose snapshot is the live data. */
  lemma BeginPushesData(s: DbState)
    ensures |BeginState(s).transactions| == |s.transactions| + 1
    ensures BeginState(s).transactions[|s.transactions|] == s.data
    ensures BeginState(s).transactions[..|s.transactions|] == s.transactions
    ensures BeginState(s).data == s.data
  {
  }

  /** Rollback on an open transaction restores its snapshot and closes it; on none it changes nothing. */
  lemma RollbackRestores(s: DbState)
    ensures s.transactions == [] ==> RollbackState(s) == s && RollbackState(RollbackState(s)) == s
    ensures s.transactions != [] ==>
      RollbackState(s).data == s.transactions[|s.transactions| - 1] &&
      |RollbackState(s).transactions| == |s.transactions| - 1 &&
      RollbackState(s).transactions == s.transactions[..|s.transactions| - 1]
  {
  }

  /** Commit forgets all history without touching the data, so a rollback after it is a no-op. */
  lemma CommitForgetsHistory(s: DbState)
    ensures CommitState(s).data == s.data
    ensures CommitState(s).transactions == []
    ensures RollbackState(CommitState(s)) == CommitState(s)
  {
  }

  /** The `DataBase` object of db.py:23-44 with its `_data` and `_transactions`. */
  class DataBase {
    var data: Data
    var transactions: seq<Data>

    /** The value the object currently holds. */
    function State(): DbState
      reads this
    {
      DbState(data, transactions)
    }

    /** A database over `source` with no open transaction. */
    constructor (source: Data)
      ensures data == source && transactions == []
    {
      data := source;
      transactions := [];
    }

    /** Empties the snapshot stack in place. */
    method ClearTransactions()
      modifies this
      ensures data == old(data) && transactions == []
    {
      transactions := [];
    }

    /** Pushes an independent copy of the live data. */
    method Begin()
      modifies this
      ensures transactions == old(transactions) + [old(data)] && data == old(data)
      ensures State() == BeginState(old(State()))
    {
      transactions := transactions + [data];
    }

    /** Pops the newest snapshot into the live data, when there is one. */
    method Rollback()
      modifies this
      ensures old(transactions) == [] ==> data == old(data) && transactions == old(transactions)
      ensures old(transactions) != [] ==>
        data == old(transactions)[|old(transactions)| - 1] &&
        transactions == old(transactions)[..|old(transactions)| - 1]
      ensures State() == RollbackState(old(State()))
    {
      if transactions != [] {
        data := transactions[|transactions| - 1];
        transactions := transactions[..|transactions| - 1];
      }
    }

    /** Discards every snapshot; the live data is kept. */
    method Commit()
      modifies this
      ensures data == old(data) && transactions == []
      ensures State() == CommitState(old(State()))
    {
      ClearTransactions();
    }
  }
}

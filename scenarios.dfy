/**
 * Worked command sequences of the store, run through `Commands.Step`: the
 * value counting example and a nested transaction example.
 */
module Scenarios {
  import opened Wrappers
  import opened Text
  import opened Dicts
  import opened Db
  import opened Commands

  /** `SET a 10` then `SET b 10` on an empty store appends both keys in that order. */
  lemma TwoSetsAppend()
    ensures Step(Set, ["b", "10"], Step(Set, ["a", "10"], DbState([], [])).next).next
      == DbState([Entry("a", "10"), Entry("b", "10")], [])
  {
    assert SetItem([], "a", "10") == [Entry("a", "10")];
    assert SetItem([Entry("a", "10")], "b", "10") == [Entry("a", "10"), Entry("b", "10")];
  }

  /** `UNSET a` removes the first entry and keeps the other. */
  lemma UnsetFirstOfTwo()
    ensures Step(Unset, ["a"], DbState([Entry("a", "10"), Entry("b", "10")], [])).next
      == DbState([Entry("b", "10")], [])
  {
    assert Pop([Entry("a", "10"), Entry("b", "10")], "a") == Some(("10", [Entry("b", "10")]));
  }

  /** COUNTS and FIND on the two stores of the counting example. */
  lemma CountAndFindOutputs()
    ensures Step(Counts, ["10"], DbState([Entry("a", "10"), Entry("b", "10")], [])).out == Printed("2")
    ensures Step(Counts, ["10"], DbState([Entry("b", "10")], [])).out == Printed("1")
    ensures Step(Find, ["10"], DbState([Entry("b", "10")], [])).out == Printed("b")
  {
    assert Values([Entry("b", "10")]) == ["10"];
    assert Values([Entry("a", "10"), Entry("b", "10")]) == ["10", "10"];
    assert CountValue([Entry("a", "10"), Entry("b", "10")], "10") == 2;
    assert Decimal(2) == "2";
    assert CountValue([Entry("b", "10")], "10") == 1;
    assert Decimal(1) == "1";
    assert KeysWithValue([Entry("b", "10")], "10") == ["b"];
  }

  /**
   * `SET a 10`, `SET b 10`, `COUNTS 10` prints 2; then `UNSET a`,
   * `COUNTS 10` prints 1 and `FIND 10` prints `b`.
   */
  lemma CountingExample()
    ensures var s0 := DbState([], []);
      var s1 := Step(Set, ["a", "10"], s0).next;
      var s2 := Step(Set, ["b", "10"], s1).next;
      var s3 := Step(Unset, ["a"], s2).next;
      Step(Counts, ["10"], s2).out == Printed("2") &&
      Step(Counts, ["10"], s3).out == Printed("1") &&
      Step(Find, ["10"], s3).out == Printed("b")
  {
    TwoSetsAppend();
    UnsetFirstOfTwo();
    CountAndFindOutputs();
  }

  /**
   * BEGIN; SET a 1; BEGIN; SET a 2; ROLLBACK leaves `a` at 1; a second
   * ROLLBACK gives back the state before the first BEGIN, whatever it was.
   */
  lemma NestedRollbackExample(s0: DbState)
    ensures var s1 := Step(Begin, [], s0).next;
      var s2 := Step(Set, ["a", "1"], s1).next;
      var s3 := Step(Begin, [], s2).next;
      var s4 := Step(Set, ["a", "2"], s3).next;
      var s5 := Step(Rollback, [], s4).next;
      var s6 := Step(Rollback, [], s5).next;
      Step(Get, ["a"], s5).out == Printed("1") &&
      s6 == s0 && Step(Get, ["a"], s6).out == Step(Get, ["a"], s0).out
  {
    var s1 := Step(Begin, [], s0).next;
    var s2 := Step(Set, ["a", "1"], s1).next;
    var s3 := Step(Begin, [], s2).next;
    var s4 := Step(Set, ["a", "2"], s3).next;
    var s5 := Step(Rollback, [], s4).next;
    assert s1 == BeginState(s0);
    assert s2 == s1.(data := SetItem(s0.data, "a", "1"));
    assert s3 == BeginState(s2);
    assert s4.transactions == s3.transactions;
    RollbackRestores(s4);
    assert s5 == s2;
    assert s5.transactions == BeginState(s0).transactions;
    assert Step(Rollback, [], s5).next == RollbackState(s5);
    RollbackRestores(s5);
    BeginPushesData(s0);
  }
}

/** The release test runner's bookkeeping: every `test` call records one result
    in call order, and the closing summary counts the passes and failures and
    turns the failure count into a three-way verdict. The HTTP requests whose
    outcomes become the conditions are left to the caller. */
module ReleaseTests {

  const PASS := "PASS"
  const FAIL := "FAIL"

  /** One `(phase, name, status, detail)` tuple of `results`. */
  datatype TestRecord = TestRecord(phase: string, name: string, status: string, detail: string)

  /** The status `test` records for a condition. */
  function StatusOf(condition: bool): (s: string)
    ensures s == PASS <==> condition
    ensures s == FAIL <==> !condition
  {
    if condition then PASS else FAIL
  }

  /** Every recorded status is PASS or FAIL. */
  predicate Binary(results: seq<TestRecord>)
  {
    forall i :: 0 <= i < |results| ==> results[i].status == PASS || results[i].status == FAIL
  }

  /** `sum(1 for _, _, s, _ in results if s == status)` */
  function CountStatus(results: seq<TestRecord>, status: string): (n: nat)
    ensures n <= |results|
  {
    if results == [] then 0
    else (if results[0].status == status then 1 else 0) + CountStatus(results[1..], status)
  }

  function Passes(results: seq<TestRecord>): nat
  {
    CountStatus(results, PASS)
  }

  function Fails(results: seq<TestRecord>): nat
  {
    CountStatus(results, FAIL)
  }

  /** Recording one more result moves only the count of its own status. */
  lemma {:induction false} CountStatusSnoc(results: seq<TestRecord>, r: TestRecord, status: string)
    ensures CountStatus(results + [r], status) == CountStatus(results, status) + (if r.status == status then 1 else 0)
    decreases |results|
  {
    if results == [] {
      assert results + [r] == [r];
    } else {
      assert (results + [r])[1..] == results[1..] + [r];
      CountStatusSnoc(results[1..], r, status);
    }
  }

  /** `passes + fails == len(results)`, since no other status is ever recorded. */
  lemma {:induction false} PassesPlusFails(results: seq<TestRecord>)
    requires Binary(results)
    ensures Passes(results) + Fails(results) == |results|
    decreases |results|
  {
    if results != [] {
      assert Binary(results[1..]) by {
        forall i | 0 <= i < |results[1..]| ensures results[1..][i].status == PASS || results[1..][i].status == FAIL {
          assert results[1..][i] == results[i + 1];
        }
      }
      PassesPlusFails(results[1..]);
    }
  }

  /** No result failed exactly when every result passed. */
  lemma {:induction false} NoFailsAllPass(results: seq<TestRecord>)
    requires Binary(results)
    ensures Fails(results) == 0 <==> forall i :: 0 <= i < |results| ==> results[i].status == PASS
    decreases |results|
  {
    if results != [] {
      assert Binary(results[1..]) by {
        forall i | 0 <= i < |results[1..]| ensures results[1..][i].status == PASS || results[1..][i].status == FAIL {
          assert results[1..][i] == results[i + 1];
        }
      }
      NoFailsAllPass(results[1..]);
      assert forall i :: 1 <= i < |results| ==> results[i] == results[1..][i - 1];
    }
  }

  const GO := "\U{1F7E2} GO"
  const CONDITIONAL_GO := "\U{1F7E1} CONDITIONAL GO"
  const NO_GO := "\U{1F534} NO-GO"

  /** The summary's verdict: GO with no failure, CONDITIONAL GO with one or two,
      NO-GO with more. */
  function Verdict(fails: nat): (v: string)
    ensures v == GO <==> fails == 0
    ensures v == CONDITIONAL_GO <==> 1 <= fails <= 2
    ensures v == NO_GO <==> fails > 2
  {
    assert |GO| == 4 && |CONDITIONAL_GO| == 16 && |NO_GO| == 7;
    if fails == 0 then GO else if fails <= 2 then CONDITIONAL_GO else NO_GO
  }

  /** How good a verdict is: GO above CONDITIONAL GO above NO-GO. */
  function Rank(v: string): nat
  {
    if v == GO then 2 else if v == CONDITIONAL_GO then 1 else 0
  }

  /** More failures never give a better verdict. */
  lemma VerdictMonotone(f1: nat, f2: nat)
    requires f1 <= f2
    ensures Rank(Verdict(f2)) <= Rank(Verdict(f1))
  {
  }

  /** One more recorded failure never improves the verdict, and a recorded pass
      never changes it. */
  lemma RecordingKeepsVerdictOrder(results: seq<TestRecord>, r: TestRecord)
    ensures Rank(Verdict(Fails(results + [r]))) <= Rank(Verdict(Fails(results)))
    ensures r.status == PASS ==> Verdict(Fails(results + [r])) == Verdict(Fails(results))
  {
    CountStatusSnoc(results, r, FAIL);
    VerdictMonotone(Fails(results), Fails(results + [r]));
  }

  /** The module-level `results` list and the `test` function that appends to it. */
  class Recorder {
    var results: seq<TestRecord>

    ghost predicate Valid()
      reads this
    {
      Binary(results)
    }

    constructor ()
      ensures Valid() && results == []
    {
      results := [];
    }

    /** `test(phase, name, condition, detail)`: appends one record, PASS exactly
        when `condition` holds; earlier records stay as they were. */
    method Test(phase: string, name: string, condition: bool, detail: string)
      requires Valid()
      modifies this
      ensures Valid()
      ensures results == old(results) + [TestRecord(phase, name, StatusOf(condition), detail)]
      ensures Passes(results) == Passes(old(results)) + (if condition then 1 else 0)
      ensures Fails(results) == Fails(old(results)) + (if condition then 0 else 1)
    {
      var r := TestRecord(phase, name, StatusOf(condition), detail);
      CountStatusSnoc(results, r, PASS);
      CountStatusSnoc(results, r, FAIL);
      results := results + [r];
    }

    /** The closing summary: the pass and fail counts, the number of tests and
        the verdict. Every test is counted once. */
    method Summary() returns (passes: nat, fails: nat, total: nat, verdict: string)
      requires Valid()
      ensures passes == Passes(results) && fails == Fails(results) && total == |results|
      ensures passes + fails == total
      ensures verdict == Verdict(fails)
    {
      passes := Passes(results);
      fails := Fails(results);
      total := |results|;
      PassesPlusFails(results);
      verdict := Verdict(fails);
    }
  }
}

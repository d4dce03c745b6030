/**
 * The minimum-step-size negotiation: every Application Companion answers INIT
 * with a record `{pid, min_delay}`, and the orchestrator reduces the records to
 * the smallest `min_delay`, the step every simulator can keep to.
 */
module StepSizes {
  import opened Enums

  /** A reply payload the reduction can run on: non-empty, and only step-size records. */
  predicate IsStepSizeList(replies: seq<Reply>) {
    |replies| > 0 && forall i :: 0 <= i < |replies| ==> replies[i].StepRecord?
  }

  /** `m` is the least `min_delay` among the records: some record has it, none is smaller. */
  ghost predicate IsMinimumDelay(records: seq<Reply>, m: real)
    requires IsStepSizeList(records)
  {
    && (exists i :: 0 <= i < |records| && records[i].minDelay == m)
    && (forall i :: 0 <= i < |records| ==> m <= records[i].minDelay)
  }

  /** The smallest element of a non-empty list (Python's `min`). */
  function Min(xs: seq<real>): (m: real)
    requires |xs| > 0
    ensures m in xs
    ensures forall i :: 0 <= i < |xs| ==> m <= xs[i]
  {
    if |xs| == 1 then xs[0]
    else
      var rest := Min(xs[1..]);
      if xs[0] <= rest then xs[0] else rest
  }

  /** The list comprehension `[sub['min_delay'] for sub in records]`. */
  function Delays(records: seq<Reply>): (ds: seq<real>)
    requires forall i :: 0 <= i < |records| ==> records[i].StepRecord?
    ensures |ds| == |records|
    ensures forall i :: 0 <= i < |records| ==> ds[i] == records[i].minDelay
  {
    if records == [] then [] else [records[0].minDelay] + Delays(records[1..])
  }

  /**
   * `__find_minimum_step_size`: extract every `min_delay` and take the least.
   * Python's `min` raises on an empty list, so callers must supply at least one
   * record.
   */
  function FindMinimumStepSize(records: seq<Reply>): (m: real)
    requires IsStepSizeList(records)
    ensures IsMinimumDelay(records, m)
  {
    Min(Delays(records))
  }

  /** The reduction is exactly "the least delay": no other value qualifies. */
  lemma MinimumIsUnique(records: seq<Reply>, m: real)
    requires IsStepSizeList(records)
    ensures IsMinimumDelay(records, m) <==> m == FindMinimumStepSize(records)
  {
    var r := FindMinimumStepSize(records);
    if IsMinimumDelay(records, m) {
      var i :| 0 <= i < |records| && records[i].minDelay == m;
      var j :| 0 <= j < |records| && records[j].minDelay == r;
      assert m <= records[j].minDelay && r <= records[i].minDelay;
    }
  }

  /** A single record gives its own delay. */
  lemma SingleRecordGivesItsDelay(pid: int, delay: real)
    ensures IsStepSizeList([StepRecord(pid, delay)])
    ensures FindMinimumStepSize([StepRecord(pid, delay)]) == delay
  {
    var records := [StepRecord(pid, delay)];
    assert IsMinimumDelay(records, delay) by {
      assert records[0].minDelay == delay;
    }
    MinimumIsUnique(records, delay);
  }

  /**
   * The order in which the records arrive does not matter: two payloads holding
   * the same records (with the same multiplicities) reduce to the same step.
   */
  lemma MinimumIgnoresOrder(a: seq<Reply>, b: seq<Reply>)
    requires IsStepSizeList(a) && IsStepSizeList(b)
    requires multiset(a) == multiset(b)
    ensures FindMinimumStepSize(a) == FindMinimumStepSize(b)
  {
    var ma := FindMinimumStepSize(a);
    var mb := FindMinimumStepSize(b);
    var i :| 0 <= i < |a| && a[i].minDelay == ma;
    var j :| 0 <= j < |b| && b[j].minDelay == mb;
    assert a[i] in multiset(b) by { assert a[i] in multiset(a); }
    assert b[j] in multiset(a) by { assert b[j] in multiset(b); }
    var i' :| 0 <= i' < |b| && b[i'] == a[i];
    var j' :| 0 <= j' < |a| && a[j'] == b[j];
    assert mb <= b[i'].minDelay && ma <= a[j'].minDelay;
  }
}

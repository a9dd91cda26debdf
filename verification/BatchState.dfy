/** The persisted state of a batch of plans and its circuit breaker. Modelled on
    src/batch/state.rs. */
module BatchStates {
  import opened Prelude

  type Plan = string

  datatype Outcome = Passed | Failed | Skipped

  datatype PlanResult = PlanResult(plan: Plan, outcome: Outcome, error: Option<string>, transient: bool)

  datatype BatchState = BatchState(
    plans: seq<Plan>,
    currentIndex: nat,
    results: seq<PlanResult>,
    consecutiveFailures: nat,
    maxFailures: nat,
    tripped: bool)

  const DEFAULT_MAX_FAILURES := 3

  function NewBatch(plans: seq<Plan>): BatchState {
    BatchState(plans, 0, [], 0, DEFAULT_MAX_FAILURES, false)
  }

  /** A maximum of zero disables the breaker. */
  function WithMaxFailures(b: BatchState, max: nat): BatchState {
    b.(maxFailures := max)
  }

  /** The breaker moves before the index is checked, so a result past the end is
      counted and then dropped. */
  function Recorded(b: BatchState, r: PlanResult): BatchState {
    var count := if r.outcome == Passed then 0
                 else if r.outcome == Failed && !r.transient then b.consecutiveFailures + 1
                 else b.consecutiveFailures;
    var tripped := if r.outcome == Passed then false
                   else b.tripped || (r.outcome == Failed && !r.transient && b.maxFailures > 0 && count >= b.maxFailures);
    var counted := b.(consecutiveFailures := count, tripped := tripped);
    if b.currentIndex >= |b.plans| then counted
    else counted.(results := b.results + [r], currentIndex := b.currentIndex + 1)
  }

  // ── What the breaker state means ───────────────────────────────────

  /** Failures that count, since the last pass. */
  function FailuresSincePass(rs: seq<PlanResult>): nat {
    if rs == [] then 0
    else
      var r, front := rs[|rs| - 1], rs[..|rs| - 1];
      if r.outcome == Passed then 0
      else if r.outcome == Failed && !r.transient then FailuresSincePass(front) + 1
      else FailuresSincePass(front)
  }

  predicate Broken(max: nat, rs: seq<PlanResult>) {
    max > 0 && FailuresSincePass(rs) >= max
  }

  /** One result per finished plan, in order; the breaker fields are what the
      results say; and a plan was skipped exactly when the results before it had
      broken the circuit. */
  ghost predicate Consistent(b: BatchState) {
    && b.currentIndex == |b.results| <= |b.plans|
    && (forall i :: 0 <= i < |b.results| ==> b.results[i].plan == b.plans[i])
    && b.consecutiveFailures == FailuresSincePass(b.results)
    && (b.tripped <==> Broken(b.maxFailures, b.results))
    && (forall i :: 0 <= i < |b.results| ==> (b.results[i].outcome == Skipped <==> Broken(b.maxFailures, b.results[..i])))
  }

  /** A runner records a skip exactly while the circuit is broken. */
  lemma RecordKeepsConsistent(b: BatchState, r: PlanResult)
    requires Consistent(b) && b.currentIndex < |b.plans|
    requires r.plan == b.plans[b.currentIndex] && (r.outcome == Skipped <==> b.tripped)
    ensures Consistent(Recorded(b, r)) && Recorded(b, r).results == b.results + [r]
  {
    var b' := Recorded(b, r);
    assert b'.results[..|b.results|] == b.results;
    forall i | 0 <= i < |b'.results|
      ensures b'.results[i].outcome == Skipped <==> Broken(b'.maxFailures, b'.results[..i])
    {
      if i < |b.results| {
        assert b'.results[..i] == b.results[..i];
      }
    }
  }

  /** Recording past the end loses the result but not its effect on the breaker, so
      the account stays right only for results that have none. */
  lemma RecordPastEndMiscounts(b: BatchState, r: PlanResult)
    requires Consistent(b) && b.currentIndex == |b.plans|
    ensures Consistent(Recorded(b, r)) <==>
      r.outcome == Skipped || (r.outcome == Failed && r.transient) || (r.outcome == Passed && b.consecutiveFailures == 0)
  {
  }

  lemma {:induction false} BrokenStaysBroken(max: nat, rs: seq<PlanResult>, i: nat, j: nat)
    requires i <= j <= |rs| && Broken(max, rs[..i])
    requires forall k :: 0 <= k < |rs| ==> (rs[k].outcome == Skipped <==> Broken(max, rs[..k]))
    ensures Broken(max, rs[..j])
    decreases j - i
  {
    if i < j {
      assert rs[..i + 1][..i] == rs[..i];
      BrokenStaysBroken(max, rs, i + 1, j);
    }
  }

  /** Everything after the first skipped plan is skipped, and no plan is skipped
      unless the maximum is positive and as many counted failures precede it
      without a pass in between. */
  lemma SkippedTail(b: BatchState, i: nat, j: nat)
    requires Consistent(b) && i <= j < |b.results| && b.results[i].outcome == Skipped
    ensures b.results[j].outcome == Skipped && b.tripped
    ensures b.maxFailures > 0 && FailuresSincePass(b.results[..i]) >= b.maxFailures
  {
    BrokenStaysBroken(b.maxFailures, b.results, i, j);
    BrokenStaysBroken(b.maxFailures, b.results, i, |b.results|);
    assert b.results[..|b.results|] == b.results;
  }

  // ── The summary ────────────────────────────────────────────────────

  function Count(rs: seq<PlanResult>, outcome: Outcome): nat {
    if rs == [] then 0
    else Count(rs[..|rs| - 1], outcome) + if rs[|rs| - 1].outcome == outcome then 1 else 0
  }

  function ResultsWith(rs: seq<PlanResult>, outcome: Outcome): set<nat> {
    set i: nat | i < |rs| && rs[i].outcome == outcome
  }

  lemma OneMoreWith(front: seq<PlanResult>, last: PlanResult, outcome: Outcome)
    ensures ResultsWith(front + [last], outcome) == ResultsWith(front, outcome) + if last.outcome == outcome then {|front|} else {}
  {
  }

  /** The count is the number of results with that outcome. */
  lemma {:induction false} CountIsCardinality(rs: seq<PlanResult>, outcome: Outcome)
    ensures Count(rs, outcome) == |ResultsWith(rs, outcome)|
  {
    if rs != [] {
      var front, last := rs[..|rs| - 1], rs[|rs| - 1];
      CountIsCardinality(front, outcome);
      OneMoreWith(front, last, outcome);
      assert rs == front + [last];
    }
  }

  lemma {:induction false} CountsAddUp(rs: seq<PlanResult>)
    ensures Count(rs, Passed) + Count(rs, Failed) + Count(rs, Skipped) == |rs|
  {
    if rs != [] {
      CountsAddUp(rs[..|rs| - 1]);
    }
  }
}

/** Running a batch of plans in order, across crashes and resumptions. Modelled on
    src/batch/queue.rs. */
module BatchRunners {
  import opened Prelude
  import opened BatchStates

  datatype Summary = Summary(passed: nat, failed: nat, skipped: nat, results: seq<PlanResult>)

  /** What executing one plan comes to, as far as its result depends on it. */
  datatype Execution = PlanMissing | Errored(message: string) | Ran(anyFailed: bool, message: string, transient: bool)

  function ResultOf(plan: Plan, e: Execution): PlanResult {
    match e
    case PlanMissing => PlanResult(plan, Failed, Some("Plan file not found"), false)
    case Errored(message) => PlanResult(plan, Failed, Some(message), false)
    case Ran(anyFailed, message, transient) =>
      if anyFailed then PlanResult(plan, Failed, Some(message), transient) else PlanResult(plan, Passed, None, false)
  }

  function SkipOf(plan: Plan): PlanResult {
    PlanResult(plan, Skipped, Some("Circuit breaker tripped"), false)
  }

  /** What the runner records for the next plan. */
  function NextResult(b: BatchState, diskSpace: bool, execution: Execution): PlanResult
    requires b.currentIndex < |b.plans|
  {
    var plan := b.plans[b.currentIndex];
    if b.tripped then SkipOf(plan)
    else if !diskSpace then PlanResult(plan, Failed, Some("Disk space check failed"), false)
    else ResultOf(plan, execution)
  }

  /** The result says what happened: passed exactly if there was disk space and the
      plan ran to its end with no failed group, failed otherwise, and transient
      only if it ran and failed on an error of that kind. */
  predicate Fits(diskSpace: bool, e: Execution, r: PlanResult) {
    && (r.outcome == Passed <==> diskSpace && e.Ran? && !e.anyFailed)
    && (r.outcome == Failed <==> !(diskSpace && e.Ran? && !e.anyFailed))
    && (r.transient <==> diskSpace && e.Ran? && e.anyFailed && e.transient)
  }

  lemma NextResultFits(b: BatchState, diskSpace: bool, e: Execution)
    requires b.currentIndex < |b.plans|
    ensures var r := NextResult(b, diskSpace, e);
      && r.plan == b.plans[b.currentIndex]
      && (b.tripped ==> r.outcome == Skipped)
      && (!b.tripped ==> Fits(diskSpace, e, r))
  {
  }

  /** What the outside does to a run, by the number of plans finished so far:
      whether the process survives, a save works (`final`: the one that ends a run
      of skips), there is disk space, the cleanup between plans works, and what
      executing the next plan comes to. */
  datatype World = World(
    alive: nat -> bool,
    saveOk: (nat, bool) -> bool,
    diskSpace: nat -> bool,
    cleanupOk: nat -> bool,
    execution: nat -> Execution)

  ghost predicate Faultless(w: World) {
    && (forall n :: w.alive(n) && w.cleanupOk(n))
    && (forall n, final :: w.saveOk(n, final))
  }

  /** The result that plan `i` of `b` is due, given those before it. */
  function Due(b: BatchState, w: World, i: nat, before: seq<PlanResult>): PlanResult
    requires i < |b.plans|
  {
    if Broken(b.maxFailures, before) then SkipOf(b.plans[i])
    else if !w.diskSpace(i) then PlanResult(b.plans[i], Failed, Some("Disk space check failed"), false)
    else ResultOf(b.plans[i], w.execution(i))
  }

  /** `s` is on the way of `b` through the world: a consistent state of the same
      batch whose further results are each what was due. */
  ghost predicate OnTheWay(b: BatchState, w: World, s: BatchState) {
    && Consistent(s) && Grown(b, s)
    && (forall i :: |b.results| <= i < |s.results| ==> s.results[i] == Due(b, w, i, s.results[..i]))
  }

  lemma OneMoreOnTheWay(b: BatchState, w: World, s: BatchState, r: PlanResult)
    requires OnTheWay(b, w, s) && s.currentIndex < |s.plans|
    requires r == NextResult(s, w.diskSpace(s.currentIndex), w.execution(s.currentIndex))
    ensures OnTheWay(b, w, Recorded(s, r)) && Recorded(s, r).results == s.results + [r]
  {
    RecordKeepsConsistent(s, r);
    var rs := Recorded(s, r).results;
    forall i | |b.results| <= i < |rs| ensures rs[i] == Due(b, w, i, rs[..i]) {
      if i < |s.results| {
        assert rs[..i] == s.results[..i];
      } else {
        assert rs[..i] == s.results;
      }
    }
  }

  /** Results on the way, without what they mean for the breaker. */
  ghost predicate AreDue(b: BatchState, w: World, rs: seq<PlanResult>) {
    b.results <= rs && |rs| <= |b.plans| && forall i :: |b.results| <= i < |rs| ==> rs[i] == Due(b, w, i, rs[..i])
  }

  lemma PrefixIsDue(b: BatchState, w: World, rs: seq<PlanResult>, n: nat)
    requires AreDue(b, w, rs) && |b.results| <= n < |rs|
    ensures AreDue(b, w, rs[..n]) && rs[n] == Due(b, w, n, rs[..n]) && rs[..n + 1] == rs[..n] + [rs[n]]
  {
    forall i | |b.results| <= i < n ensures rs[..n][i] == Due(b, w, i, rs[..n][..i]) {
      assert rs[..n][..i] == rs[..i];
    }
  }

  lemma {:induction false} SameResults(b: BatchState, w: World, rs: seq<PlanResult>, ts: seq<PlanResult>)
    requires AreDue(b, w, rs) && AreDue(b, w, ts) && |rs| == |ts|
    ensures rs == ts
    decreases |rs|
  {
    if |rs| > |b.results| {
      var n := |rs| - 1;
      PrefixIsDue(b, w, rs, n);
      PrefixIsDue(b, w, ts, n);
      SameResults(b, w, rs[..n], ts[..n]);
      assert rs[..n + 1] == rs && ts[..n + 1] == ts;
    }
  }

  /** The way is a single one: how far a run has come determines its state. */
  lemma OnlyOneWay(b: BatchState, w: World, s: BatchState, t: BatchState)
    requires OnTheWay(b, w, s) && OnTheWay(b, w, t) && s.currentIndex == t.currentIndex
    ensures s == t
  {
    SameResults(b, w, s.results, t.results);
  }

  // ── Runs from any state ────────────────────────────────────────────

  /** One more plan, if any is left. */
  function Worked(w: World, s: BatchState): BatchState {
    if s.currentIndex < |s.plans| then Recorded(s, NextResult(s, w.diskSpace(s.currentIndex), w.execution(s.currentIndex))) else s
  }

  function After(b: BatchState, w: World, n: nat): BatchState {
    if n == 0 then b else Worked(w, After(b, w, n - 1))
  }

  /** `s` is what recording some number of plans makes of `b`, consistent or not. */
  ghost predicate Reaches(b: BatchState, w: World, s: BatchState) {
    b.currentIndex <= s.currentIndex && s == After(b, w, s.currentIndex - b.currentIndex)
  }

  /** `s` is `b` with one result more for each plan it is further, in plan order. */
  ghost predicate AddsInOrder(b: BatchState, s: BatchState) {
    && Grown(b, s) && b.currentIndex <= s.currentIndex
    && |s.results| == |b.results| + (s.currentIndex - b.currentIndex)
    && (s.currentIndex == b.currentIndex || s.currentIndex <= |s.plans|)
    && (forall j :: |b.results| <= j < |s.results| ==> s.results[j].plan == b.plans[b.currentIndex + j - |b.results|])
  }

  lemma WorkedAdds(b: BatchState, w: World, s: BatchState)
    requires AddsInOrder(b, s)
    ensures AddsInOrder(b, Worked(w, s))
  {
    if s.currentIndex < |s.plans| {
      var r := NextResult(s, w.diskSpace(s.currentIndex), w.execution(s.currentIndex));
      assert r.plan == b.plans[s.currentIndex];
      assert Worked(w, s).results == s.results + [r];
    }
  }

  /** Whatever state a run starts from, it adds one result per plan it finishes, in
      plan order, and loses none. */
  lemma {:induction false} AfterAdds(b: BatchState, w: World, n: nat)
    ensures AddsInOrder(b, After(b, w, n))
  {
    if n > 0 {
      AfterAdds(b, w, n - 1);
      WorkedAdds(b, w, After(b, w, n - 1));
    }
  }

  /** Each result added is a skip if the circuit was broken by then, and otherwise
      fits the disk space and the execution of its plan. */
  ghost predicate RecordsWhatRan(b: BatchState, w: World, s: BatchState) {
    forall j :: |b.results| <= j < |s.results| ==> RecordsPlan(b, w, s.results[j], j - |b.results|)
  }

  /** `r` is the result of the plan `n` places after the first. */
  ghost predicate RecordsPlan(b: BatchState, w: World, r: PlanResult, n: nat) {
    var i := b.currentIndex + n;
    if After(b, w, n).tripped then r.outcome == Skipped else Fits(w.diskSpace(i), w.execution(i), r)
  }

  lemma WorkedRecords(b: BatchState, w: World, n: nat)
    requires RecordsWhatRan(b, w, After(b, w, n)) && AddsInOrder(b, After(b, w, n))
    requires After(b, w, n).currentIndex < |After(b, w, n).plans| ==> After(b, w, n).currentIndex == b.currentIndex + n
    ensures RecordsWhatRan(b, w, After(b, w, n + 1))
  {
    var s := After(b, w, n);
    if s.currentIndex < |s.plans| {
      var r := NextResult(s, w.diskSpace(s.currentIndex), w.execution(s.currentIndex));
      NextResultFits(s, w.diskSpace(s.currentIndex), w.execution(s.currentIndex));
      assert Worked(w, s).results == s.results + [r];
      assert RecordsPlan(b, w, r, n);
    }
  }

  lemma {:induction false} AfterRecords(b: BatchState, w: World, n: nat)
    ensures RecordsWhatRan(b, w, After(b, w, n))
    ensures After(b, w, n).currentIndex < |After(b, w, n).plans| ==> After(b, w, n).currentIndex == b.currentIndex + n
  {
    if n > 0 {
      AfterRecords(b, w, n - 1);
      AfterAdds(b, w, n - 1);
      WorkedRecords(b, w, n - 1);
    }
  }

  lemma WorkedIsDue(b: BatchState, w: World, s: BatchState)
    requires OnTheWay(b, w, s)
    ensures OnTheWay(b, w, Worked(w, s))
  {
    if s.currentIndex < |s.plans| {
      OneMoreOnTheWay(b, w, s, NextResult(s, w.diskSpace(s.currentIndex), w.execution(s.currentIndex)));
    }
  }

  lemma {:induction false} AfterIsDue(b: BatchState, w: World, n: nat)
    requires Consistent(b)
    ensures OnTheWay(b, w, After(b, w, n))
  {
    if n > 0 {
      AfterIsDue(b, w, n - 1);
      WorkedIsDue(b, w, After(b, w, n - 1));
    }
  }

  lemma {:induction false} WayIsReached(b: BatchState, w: World, n: nat)
    requires b.currentIndex + n <= |b.plans|
    ensures Reaches(b, w, After(b, w, n)) && After(b, w, n).currentIndex == b.currentIndex + n && After(b, w, n).plans == b.plans
  {
    if n > 0 {
      WayIsReached(b, w, n - 1);
    }
  }

  lemma WayAt(b: BatchState, w: World, n: nat) returns (s: BatchState)
    requires Consistent(b) && b.currentIndex + n <= |b.plans|
    ensures Reaches(b, w, s) && OnTheWay(b, w, s) && s.currentIndex == b.currentIndex + n
  {
    s := After(b, w, n);
    WayIsReached(b, w, n);
    AfterIsDue(b, w, n);
  }

  lemma WayIsOne(b: BatchState, w: World, s: BatchState)
    requires Consistent(b) && OnTheWay(b, w, s)
    ensures Reaches(b, w, s)
  {
    var reached := WayAt(b, w, s.currentIndex - b.currentIndex);
    OnlyOneWay(b, w, s, reached);
  }

  /** From a consistent state, the states reached are those on its way. */
  lemma ReachesIffOnTheWay(b: BatchState, w: World, s: BatchState)
    requires Consistent(b)
    ensures Reaches(b, w, s) <==> OnTheWay(b, w, s)
  {
    if OnTheWay(b, w, s) {
      WayIsOne(b, w, s);
    }
    if Reaches(b, w, s) {
      AfterIsDue(b, w, s.currentIndex - b.currentIndex);
    }
  }

  lemma OneMoreReached(b: BatchState, w: World, s: BatchState)
    requires Reaches(b, w, s) && s.currentIndex < |s.plans|
    ensures Reaches(b, w, Worked(w, s)) && Worked(w, s).currentIndex == s.currentIndex + 1
  {
  }

  lemma ReachedPromise(b: BatchState, w: World, s: BatchState)
    requires Reaches(b, w, s)
    ensures AddsInOrder(b, s) && RecordsWhatRan(b, w, s) && (Consistent(b) ==> OnTheWay(b, w, s))
  {
    var n := s.currentIndex - b.currentIndex;
    AfterAdds(b, w, n);
    AfterRecords(b, w, n);
    if Consistent(b) {
      AfterIsDue(b, w, n);
    }
  }

  /** The file is as before, or was saved on the way to `s`. */
  ghost predicate SavedBefore(b: BatchState, w: World, oldFile: Option<BatchState>, file: Option<BatchState>, s: BatchState) {
    file == oldFile || (file.Some? && Reaches(b, w, file.value) && file.value.currentIndex <= s.currentIndex)
  }

  /** The plans that are left, none if the index lies past the end. */
  function Remaining(b: BatchState): seq<Plan> {
    if b.currentIndex <= |b.plans| then b.plans[b.currentIndex..] else []
  }

  /** `file` is the saved state on disk. */
  class BatchRunner {
    var queue: seq<Plan>
    var state: BatchState
    var file: Option<BatchState>

    ghost predicate Valid()
      reads this
    {
      queue == Remaining(state)
    }

    constructor New(plans: seq<Plan>, file: Option<BatchState>)
      ensures Valid() && state == NewBatch(plans) && this.file == file && Consistent(state)
      ensures state.maxFailures == 3 && state.currentIndex == 0 && state.results == [] && !state.tripped
    {
      queue, state, this.file := plans, NewBatch(plans), file;
    }

    /** Continues from the saved state, whatever it holds; an index past the end
        leaves nothing to do. */
    constructor Resume(saved: BatchState)
      ensures Valid() && state == saved && file == Some(saved)
    {
      queue := if saved.currentIndex <= |saved.plans| then saved.plans[saved.currentIndex..] else [];
      state, file := saved, Some(saved);
    }

    /** A save may fail, and then the old file stays. */
    method Save(ok: bool)
      modifies this`file
      ensures file == if ok then Some(state) else old(file)
    {
      if ok {
        file := Some(state);
      }
    }

    method RecordResult(r: PlanResult)
      modifies this`state
      ensures state == Recorded(old(state), r)
    {
      match r.outcome {
        case Passed =>
          state := state.(consecutiveFailures := 0, tripped := false);
        case Failed =>
          if !r.transient {
            state := state.(consecutiveFailures := state.consecutiveFailures + 1);
            if state.maxFailures > 0 && state.consecutiveFailures >= state.maxFailures {
              state := state.(tripped := true);
            }
          }
        case Skipped =>
      }
      if state.currentIndex >= |state.plans| {
        return;
      }
      state := state.(results := state.results + [r], currentIndex := state.currentIndex + 1);
    }

    /** The next plan leaves the queue and its result is recorded. */
    method Finish(r: PlanResult, ghost w: World, ghost start: BatchState)
      requires Valid() && queue != [] && Reaches(start, w, state)
      requires r == NextResult(state, w.diskSpace(state.currentIndex), w.execution(state.currentIndex))
      modifies this`queue, this`state
      ensures Valid() && Reaches(start, w, state) && state == Worked(w, old(state)) && state.currentIndex == old(state.currentIndex) + 1
      ensures queue == old(queue)[1..]
      ensures r.outcome == Skipped ==> state.tripped
    {
      OneMoreReached(start, w, state);
      queue := queue[1..];
      RecordResult(r);
    }

    /** Once the circuit is broken everything left is skipped; the first skip is
        saved on its own, the rest at the end. */
    method SkipAll(w: World, ghost start: BatchState) returns (ok: bool)
      requires Valid() && queue != [] && state.tripped && Reaches(start, w, state)
      modifies this
      ensures Reaches(start, w, state) && old(state.currentIndex) < state.currentIndex && state.tripped
      ensures SavedBefore(start, w, old(file), file, state)
      ensures ok ==> Valid() && queue == [] && file == Some(state)
      ensures Faultless(w) ==> ok
    {
      Finish(SkipOf(queue[0]), w, start);
      ok := w.saveOk(state.currentIndex, false);
      Save(ok);
      if !ok {
        return;
      }
      ghost var saved := state;
      while queue != []
        invariant Valid() && state.tripped && Reaches(start, w, state)
        invariant file == Some(saved) && saved.currentIndex <= state.currentIndex
        decreases |queue|
      {
        Finish(SkipOf(queue[0]), w, start);
      }
      ok := w.saveOk(state.currentIndex, true);
      Save(ok);
    }

    /** One plan leaves the queue and is executed, unless there is no disk space
        for it. When the cleanup before it fails, it has left the queue of a runner
        that gives up, without a result. */
    method ExecuteNext(w: World, ghost start: BatchState) returns (ok: bool)
      requires Valid() && queue != [] && !state.tripped && Reaches(start, w, state)
      modifies this
      ensures Reaches(start, w, state) && |queue| < |old(queue)|
      ensures var n := old(state.currentIndex);
        state == if w.diskSpace(n) && old(state.results) != [] && !w.cleanupOk(n) then old(state) else Worked(w, old(state))
      ensures state == old(state) ||
        (old(state.results) < state.results && |state.results| == |old(state.results)| + 1
         && Fits(w.diskSpace(old(state.currentIndex)), w.execution(old(state.currentIndex)), state.results[|old(state.results)|]))
      ensures file == old(file) || file == Some(state)
      ensures ok ==> Valid() && file == Some(state)
      ensures Faultless(w) ==> ok
    {
      var n := state.currentIndex;
      NextResultFits(state, w.diskSpace(n), w.execution(n));
      if !w.diskSpace(n) {
        Finish(PlanResult(queue[0], Failed, Some("Disk space check failed"), false), w, start);
        ok := w.saveOk(n + 1, false);
        Save(ok);
        return;
      }
      if state.results != [] && !w.cleanupOk(n) {
        queue := queue[1..];
        return false;
      }
      Finish(ResultOf(queue[0], w.execution(n)), w, start);
      ok := w.saveOk(n + 1, false);
      Save(ok);
    }

    /** Runs the batch, whatever saved state it was resumed from. Whatever fails or
        dies on the way, memory and file hold what recording some number of the
        plans in order gives. A run that nothing disturbs finishes, and a finished
        run has recorded and saved them all. From a consistent state, memory and
        file stay consistent and every new result is what was due. */
    method Run(w: World) returns (finished: bool)
      requires Valid()
      modifies this
      ensures Reaches(old(state), w, state) && SavedBefore(old(state), w, old(file), file, state)
      ensures AddsInOrder(old(state), state) && RecordsWhatRan(old(state), w, state)
      ensures finished ==> state.currentIndex >= |state.plans| && file == Some(state)
      ensures Faultless(w) ==> finished
      ensures Consistent(old(state)) ==>
        OnTheWay(old(state), w, state) && (file == old(file) || (file.Some? && OnTheWay(old(state), w, file.value)))
    {
      ghost var start := state;
      finished := w.saveOk(state.currentIndex, false);
      Save(finished);
      while finished && queue != []
        invariant Reaches(start, w, state) && (finished ==> Valid())
        invariant SavedBefore(start, w, old(file), file, state)
        invariant finished ==> file == Some(state)
        invariant Faultless(w) ==> finished
        decreases finished, |queue|
      {
        if !w.alive(state.currentIndex) {
          finished := false;
          break;
        }
        if state.tripped {
          finished := SkipAll(w, start);
        } else {
          finished := ExecuteNext(w, start);
        }
      }
      ReachedPromise(start, w, state);
      if file != old(file) {
        ReachedPromise(start, w, file.value);
      }
    }

    method BuildSummary() returns (summary: Summary)
      ensures summary.results == state.results
      ensures summary.passed + summary.failed + summary.skipped == |state.results|
      ensures summary.passed == Count(state.results, Passed) && summary.failed == Count(state.results, Failed)
      ensures summary.skipped == Count(state.results, Skipped)
      ensures summary.passed == |ResultsWith(state.results, Passed)| && summary.failed == |ResultsWith(state.results, Failed)|
    {
      CountIsCardinality(state.results, Passed);
      CountIsCardinality(state.results, Failed);
      var passed := CountResults(state.results, Passed);
      var failed := CountResults(state.results, Failed);
      var skipped := CountResults(state.results, Skipped);
      CountsAddUp(state.results);
      summary := Summary(passed, failed, skipped, state.results);
    }
  }

  method CountResults(rs: seq<PlanResult>, outcome: Outcome) returns (count: nat)
    ensures count == Count(rs, outcome)
  {
    count := 0;
    for i := 0 to |rs|
      invariant count == Count(rs[..i], outcome)
    {
      assert rs[..i + 1][..i] == rs[..i];
      if rs[i].outcome == outcome {
        count := count + 1;
      }
    }
    assert rs[..|rs|] == rs;
  }

  /** Same batch, with results added at the end. */
  ghost predicate Grown(b: BatchState, b': BatchState) {
    b'.plans == b.plans && b'.maxFailures == b.maxFailures && b.results <= b'.results
  }

  // ── Crashes and resumptions ────────────────────────────────────────

  /** A process with a runner in memory, if one is at work, and the saved state. */
  datatype Machine = Machine(memory: Option<BatchState>, file: Option<BatchState>)

  datatype Step =
    | Begin(plans: seq<Plan>, max: nat)
    | ResumeSaved
    | Work(diskSpace: bool, execution: Execution)
    | Persist
    | Crash

  predicate CanStep(m: Machine, step: Step) {
    match step
    case Begin(_, _) => m.memory.None?
    case ResumeSaved => m.memory.None? && m.file.Some?
    case Work(_, _) => m.memory.Some? && m.memory.value.currentIndex < |m.memory.value.plans|
    case Persist => m.memory.Some?
    case Crash => true
  }

  function Next(m: Machine, step: Step): Machine
    requires CanStep(m, step)
  {
    match step
    case Begin(plans, max) => m.(memory := Some(WithMaxFailures(NewBatch(plans), max)))
    case ResumeSaved => m.(memory := m.file)
    case Work(diskSpace, execution) => m.(memory := Some(Recorded(m.memory.value, NextResult(m.memory.value, diskSpace, execution))))
    case Persist => m.(file := m.memory)
    case Crash => m.(memory := None)
  }

  ghost predicate Sound(m: Machine) {
    && (m.memory.Some? ==> Consistent(m.memory.value))
    && (m.file.Some? ==> Consistent(m.file.value))
  }

  ghost predicate History(ms: seq<Machine>, steps: seq<Step>) {
    && |ms| == |steps| + 1
    && (forall i :: 0 <= i < |steps| ==> CanStep(ms[i], steps[i]) && ms[i + 1] == Next(ms[i], steps[i]))
  }

  lemma StepKeepsSound(m: Machine, step: Step)
    requires Sound(m) && CanStep(m, step)
    ensures Sound(Next(m, step))
  {
    if step.Work? {
      RecordKeepsConsistent(m.memory.value, NextResult(m.memory.value, step.diskSpace, step.execution));
    }
  }

  lemma {:induction false} HistorySound(ms: seq<Machine>, steps: seq<Step>, i: nat)
    requires History(ms, steps) && i < |ms| && ms[0] == Machine(None, None)
    ensures Sound(ms[i])
  {
    if i > 0 {
      HistorySound(ms, steps, i - 1);
      StepKeepsSound(ms[i - 1], steps[i - 1]);
    }
  }

  /** Some step up to `i` recorded `r` as result number `j`, as a skip or as what
      its disk space and execution came to. */
  ghost predicate Explained(ms: seq<Machine>, steps: seq<Step>, i: nat, r: PlanResult, j: nat) {
    exists k: nat :: k < i && RecordedBy(ms, steps, k, r, j)
  }

  ghost predicate RecordedBy(ms: seq<Machine>, steps: seq<Step>, k: nat, r: PlanResult, j: nat) {
    && k < |steps| && k < |ms| && steps[k].Work? && ms[k].memory.Some? && |ms[k].memory.value.results| == j
    && (if ms[k].memory.value.tripped then r.outcome == Skipped else Fits(steps[k].diskSpace, steps[k].execution, r))
  }

  ghost predicate AllExplained(ms: seq<Machine>, steps: seq<Step>, i: nat, b: Option<BatchState>) {
    b.Some? ==> forall j: nat :: j < |b.value.results| ==> Explained(ms, steps, i, b.value.results[j], j)
  }

  lemma ExplainedLater(ms: seq<Machine>, steps: seq<Step>, i: nat, n: nat, b: Option<BatchState>)
    requires AllExplained(ms, steps, i, b) && i <= n
    ensures AllExplained(ms, steps, n, b)
  {
    if b.Some? {
      forall j: nat | j < |b.value.results| ensures Explained(ms, steps, n, b.value.results[j], j) {
        assert Explained(ms, steps, i, b.value.results[j], j);
        var k: nat :| k < i && RecordedBy(ms, steps, k, b.value.results[j], j);
        assert k < n;
      }
    }
  }

  lemma WorkIsExplained(ms: seq<Machine>, steps: seq<Step>, i: nat, n: nat)
    requires i < |steps| && i < |ms| && n == i + 1 && CanStep(ms[i], steps[i]) && steps[i].Work?
    requires AllExplained(ms, steps, i, ms[i].memory)
    ensures AllExplained(ms, steps, n, Next(ms[i], steps[i]).memory)
  {
    ExplainedLater(ms, steps, i, n, ms[i].memory);
    var b, r := ms[i].memory.value, NextResult(ms[i].memory.value, steps[i].diskSpace, steps[i].execution);
    NextResultFits(b, steps[i].diskSpace, steps[i].execution);
    assert RecordedBy(ms, steps, i, r, |b.results|);
    assert Explained(ms, steps, n, r, |b.results|);
    assert Next(ms[i], steps[i]).memory.value.results == b.results + [r];
  }

  /** Through any crashes and resumptions every result, in memory or saved, is what
      some step of the history came to. */
  lemma {:induction false} HistoryExplains(ms: seq<Machine>, steps: seq<Step>, i: nat)
    requires History(ms, steps) && i < |ms| && ms[0] == Machine(None, None)
    ensures AllExplained(ms, steps, i, ms[i].memory) && AllExplained(ms, steps, i, ms[i].file)
  {
    if i > 0 {
      HistoryExplains(ms, steps, i - 1);
      ExplainedLater(ms, steps, i - 1, i, ms[i - 1].memory);
      ExplainedLater(ms, steps, i - 1, i, ms[i - 1].file);
      if steps[i - 1].Work? {
        WorkIsExplained(ms, steps, i - 1, i);
      }
    }
  }

  /** Through any crashes and resumptions: a batch whose index has reached the end
      has exactly one result per plan, in plan order, the counts of outcomes add
      up to the number of plans, and its breaker reads what its results say. */
  lemma FinishedBatch(ms: seq<Machine>, steps: seq<Step>, i: nat)
    requires History(ms, steps) && i < |ms| && ms[0] == Machine(None, None)
    requires ms[i].memory.Some? && ms[i].memory.value.currentIndex == |ms[i].memory.value.plans|
    ensures var b := ms[i].memory.value;
      && |b.results| == |b.plans|
      && (forall j :: 0 <= j < |b.plans| ==> b.results[j].plan == b.plans[j])
      && Count(b.results, Passed) + Count(b.results, Failed) + Count(b.results, Skipped) == |b.plans|
      && b.consecutiveFailures == FailuresSincePass(b.results)
      && (b.tripped <==> b.maxFailures > 0 && b.consecutiveFailures >= b.maxFailures)
      && (forall j, k :: 0 <= j <= k < |b.results| && b.results[j].outcome == Skipped ==> b.results[k].outcome == Skipped)
      && (forall j: nat :: j < |b.results| ==> Explained(ms, steps, i, b.results[j], j))
  {
    HistorySound(ms, steps, i);
    HistoryExplains(ms, steps, i);
    var b := ms[i].memory.value;
    CountsAddUp(b.results);
    forall j, k | 0 <= j <= k < |b.results| && b.results[j].outcome == Skipped ensures b.results[k].outcome == Skipped {
      SkippedTail(b, j, k);
    }
  }

  /** What is at work extends what is saved. */
  ghost predicate WorksOnFile(m: Machine) {
    m.file.Some? && (m.memory.Some? ==> Grown(m.file.value, m.memory.value))
  }

  /** As long as no new batch is begun, a saved result is never lost or changed:
      neither a crash nor a resumption takes anything out of the saved state. */
  lemma {:induction false} SavedResultsStay(ms: seq<Machine>, steps: seq<Step>, i: nat, j: nat)
    requires History(ms, steps) && i <= j < |ms|
    requires WorksOnFile(ms[i]) && forall k :: i <= k < j ==> !steps[k].Begin?
    ensures WorksOnFile(ms[j]) && Grown(ms[i].file.value, ms[j].file.value)
    decreases j - i
  {
    if i < j {
      SavedResultsStay(ms, steps, i + 1, j);
    }
  }
}

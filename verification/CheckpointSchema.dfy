/** A checkpoint's phases, its completion tests, and the classifier that infers
    where the pipeline stands. The table of phases is an arbitrary duplicate-free
    sequence. Modelled on src/checkpoint/schema.rs and
    src/checkpoint/phase_order.rs. */
module CheckpointSchema {
  import opened Prelude

  type Phase = string

  datatype Status = Pending | Blank | InProgress | Completed | Skipped | Failed | Cancelled | Other(text: string)

  datatype PhaseStatus = PhaseStatus(
    status: Status,
    artifact: Option<string>,
    artifactHash: Option<string>,
    startedAt: Option<string>,
    completedAt: Option<string>,
    teamName: Option<string>)

  const PENDING := PhaseStatus(Pending, None, None, None, None, None)

  datatype Checkpoint = Checkpoint(
    id: string,
    planFile: string,
    phases: map<Phase, PhaseStatus>,
    skipMap: Option<map<Phase, string>>,
    startedAt: string,
    completedAt: Option<string>,
    phaseSequence: Option<nat>)

  /** What the fixed table of phases satisfies: it has a last phase, no phase
      twice, and neither the empty name nor "complete". */
  ghost predicate ValidOrder(order: seq<Phase>) {
    order != [] && NoDup(order) && "" !in order && "complete" !in order
  }

  function PhaseIndex(order: seq<Phase>, name: Phase): (i: Option<nat>)
    ensures i.Some? ==> i.value < |order| && order[i.value] == name && forall j :: 0 <= j < i.value ==> order[j] != name
    ensures i.None? <==> name !in order
  {
    if order == [] then None
    else if order[0] == name then Some(0)
    else
      match PhaseIndex(order[1..], name)
      case None => None
      case Some(i) => Some(i + 1)
  }

  lemma IndexOf(order: seq<Phase>, i: nat)
    requires NoDup(order) && i < |order|
    ensures PhaseIndex(order, order[i]) == Some(i)
  {
  }

  // ── Tests on one phase ─────────────────────────────────────────────

  datatype Test = Running | HasFailed | Done | Actionable

  predicate InSkipMap(c: Checkpoint, name: Phase) {
    c.skipMap.Some? && name in c.skipMap.value
  }

  predicate Holds(c: Checkpoint, test: Test, name: Phase) {
    && name in c.phases
    && match test
       case Running => c.phases[name].status == InProgress
       case HasFailed => c.phases[name].status == Failed
       case Done => c.phases[name].status == Completed
       case Actionable => !InSkipMap(c, name) && (c.phases[name].status == Pending || c.phases[name].status == Blank)
  }

  // ── Completion tests ───────────────────────────────────────────────

  function Last(order: seq<Phase>): Phase
    requires order != []
  {
    order[|order| - 1]
  }

  predicate TerminalPhaseCompleted(order: seq<Phase>, c: Checkpoint)
    requires order != []
  {
    Last(order) in c.phases && (c.phases[Last(order)].status == Completed || c.phases[Last(order)].status == Skipped)
  }

  predicate IsComplete(order: seq<Phase>, c: Checkpoint)
    requires order != []
  {
    || c.completedAt.Some?
    || TerminalPhaseCompleted(order, c)
    || (c.phases != map[] && forall p | p in c.phases :: c.phases[p].status == Completed || c.phases[p].status == Skipped)
  }

  // ── Inferring the position ─────────────────────────────────────────

  datatype Position =
    | AtRunning(phase: Phase, startedAt: Option<string>)
    | Transitioning(lastCompleted: Phase, lastCompletedAt: Option<string>, nextPending: Phase)
    | WaitingToStart(firstPending: Phase)
    | AtFailed(failedPhase: Phase, next: Option<Phase>)
    | AllDone
    | Unknown
  {
    function EffectivePhase(): Option<Phase> {
      match this
      case AtRunning(phase, _) => Some(phase)
      case Transitioning(_, _, next) => if next != "" then Some(next) else None
      case AtFailed(failed, _) => Some(failed)
      case WaitingToStart(first) => Some(first)
      case _ => None
    }
  }

  /** Position `i` of the table is the first at or after `start` that passes. */
  ghost predicate FirstFrom(order: seq<Phase>, c: Checkpoint, test: Test, start: nat, i: nat) {
    start <= i < |order| && Holds(c, test, order[i]) && forall j :: start <= j < i ==> !Holds(c, test, order[j])
  }

  ghost predicate NoneFrom(order: seq<Phase>, c: Checkpoint, test: Test, start: nat) {
    forall j :: start <= j < |order| ==> !Holds(c, test, order[j])
  }

  /** Position `i` is the last that passes. */
  ghost predicate LastWith(order: seq<Phase>, c: Checkpoint, test: Test, i: nat) {
    i < |order| && Holds(c, test, order[i]) && NoneFrom(order, c, test, i + 1)
  }

  /** `next` names the first actionable phase from `start` on, if there is one. */
  ghost predicate NextFrom(order: seq<Phase>, c: Checkpoint, start: nat, next: Option<Phase>) {
    if next.Some? then exists i: nat :: FirstFrom(order, c, Actionable, start, i) && order[i] == next.value
    else NoneFrom(order, c, Actionable, start)
  }

  /** Nothing is running and nothing has failed. */
  ghost predicate Idle(order: seq<Phase>, c: Checkpoint) {
    NoneFrom(order, c, Running, 0) && NoneFrom(order, c, HasFailed, 0)
  }

  /** What each position means, by least and greatest table positions. */
  ghost predicate Classifies(order: seq<Phase>, c: Checkpoint, p: Position)
    requires order != []
  {
    match p
    case AllDone => c.phases != map[] && IsComplete(order, c)
    case Unknown =>
      c.phases == map[] || (!IsComplete(order, c) && Idle(order, c) && NoneFrom(order, c, Done, 0) && NoneFrom(order, c, Actionable, 0))
    case AtRunning(phase, startedAt) =>
      c.phases != map[] && !IsComplete(order, c) &&
      exists i: nat :: FirstFrom(order, c, Running, 0, i) && phase == order[i] && startedAt == c.phases[phase].startedAt
    case AtFailed(phase, next) =>
      c.phases != map[] && !IsComplete(order, c) && NoneFrom(order, c, Running, 0) && NextFrom(order, c, 0, next) &&
      exists i: nat :: FirstFrom(order, c, HasFailed, 0, i) && phase == order[i]
    case WaitingToStart(first) =>
      c.phases != map[] && !IsComplete(order, c) && Idle(order, c) && NoneFrom(order, c, Done, 0) && NextFrom(order, c, 0, Some(first))
    case Transitioning(last, at, next) =>
      c.phases != map[] && !IsComplete(order, c) && Idle(order, c) &&
      exists i: nat :: LastWith(order, c, Done, i) && last == order[i] && at == c.phases[last].completedAt
        && NextFrom(order, c, i + 1, if next == "" then None else Some(next))
  }

  /** The classification leaves no choice. */
  lemma ClassifiesOne(order: seq<Phase>, c: Checkpoint, p: Position, q: Position)
    requires order != [] && "" !in order
    requires Classifies(order, c, p) && Classifies(order, c, q)
    ensures p == q
  {
    if p.Transitioning? && q.Transitioning? {
      var i: nat :| LastWith(order, c, Done, i) && p.lastCompleted == order[i]
        && NextFrom(order, c, i + 1, if p.nextPending == "" then None else Some(p.nextPending));
      var j: nat :| LastWith(order, c, Done, j) && q.lastCompleted == order[j]
        && NextFrom(order, c, j + 1, if q.nextPending == "" then None else Some(q.nextPending));
      assert i == j;
    } else if p.AtFailed? && q.AtFailed? {
    } else if p.WaitingToStart? && q.WaitingToStart? {
    }
  }

  // ── The same, from the statuses themselves ─────────────────────────

  predicate HasStatus(c: Checkpoint, name: Phase, status: Status) {
    name in c.phases && c.phases[name].status == status
  }

  /** Waiting to be run: pending or blank, and not to be skipped. */
  predicate Waiting(c: Checkpoint, name: Phase) {
    (HasStatus(c, name, Pending) || HasStatus(c, name, Blank)) && (c.skipMap.Some? ==> name !in c.skipMap.value)
  }

  ghost predicate FirstWithStatus(order: seq<Phase>, c: Checkpoint, status: Status, i: nat) {
    i < |order| && HasStatus(c, order[i], status) && forall j :: 0 <= j < i ==> !HasStatus(c, order[j], status)
  }

  ghost predicate LastWithStatus(order: seq<Phase>, c: Checkpoint, status: Status, i: nat) {
    i < |order| && HasStatus(c, order[i], status) && NoneWithStatus(order, c, status, i + 1)
  }

  ghost predicate NoneWithStatus(order: seq<Phase>, c: Checkpoint, status: Status, start: nat) {
    forall j :: start <= j < |order| ==> !HasStatus(c, order[j], status)
  }

  ghost predicate FirstWaiting(order: seq<Phase>, c: Checkpoint, start: nat, next: Option<Phase>) {
    match next
    case None => forall j :: start <= j < |order| ==> !Waiting(c, order[j])
    case Some(name) => exists i :: start <= i < |order| && order[i] == name && Waiting(c, name) && forall j :: start <= j < i ==> !Waiting(c, order[j])
  }

  /** A completion time, a terminal phase that is done or skipped, or nothing but
      phases that are. */
  ghost predicate Over(order: seq<Phase>, c: Checkpoint)
    requires order != []
  {
    || c.completedAt.Some?
    || HasStatus(c, order[|order| - 1], Completed) || HasStatus(c, order[|order| - 1], Skipped)
    || (c.phases != map[] && forall name :: name in c.phases ==> HasStatus(c, name, Completed) || HasStatus(c, name, Skipped))
  }

  /** From the last completed phase, at position `i`, to the first that waits after it. */
  ghost predicate LeavesFrom(order: seq<Phase>, c: Checkpoint, p: Position, i: nat)
    requires p.Transitioning?
  {
    && LastWithStatus(order, c, Completed, i) && p.lastCompleted == order[i] && p.lastCompletedAt == c.phases[order[i]].completedAt
    && FirstWaiting(order, c, i + 1, if p.nextPending == "" then None else Some(p.nextPending))
  }

  /** Where the pipeline stands: at the first phase in progress; failing that, at
      the first failed one; failing that, after the last completed one; failing
      that, before the first one that waits. */
  ghost predicate Stands(order: seq<Phase>, c: Checkpoint, p: Position)
    requires order != []
  {
    if c.phases == map[] then p == Unknown
    else if Over(order, c) then p == AllDone
    else if !NoneWithStatus(order, c, InProgress, 0) then
      exists i: nat :: FirstWithStatus(order, c, InProgress, i) && p == AtRunning(order[i], c.phases[order[i]].startedAt)
    else if !NoneWithStatus(order, c, Failed, 0) then
      p.AtFailed? && FirstWaiting(order, c, 0, p.next) && exists i: nat :: FirstWithStatus(order, c, Failed, i) && p.failedPhase == order[i]
    else if !NoneWithStatus(order, c, Completed, 0) then
      p.Transitioning? && exists i: nat :: LeavesFrom(order, c, p, i)
    else if p.WaitingToStart? then FirstWaiting(order, c, 0, Some(p.firstPending))
    else p == Unknown && FirstWaiting(order, c, 0, None)
  }

  lemma TestsAreStatuses(c: Checkpoint, name: Phase)
    ensures Holds(c, Running, name) <==> HasStatus(c, name, InProgress)
    ensures Holds(c, HasFailed, name) <==> HasStatus(c, name, Failed)
    ensures Holds(c, Done, name) <==> HasStatus(c, name, Completed)
    ensures Holds(c, Actionable, name) <==> Waiting(c, name)
  {
  }

  lemma NextIsFirstWaiting(order: seq<Phase>, c: Checkpoint, start: nat, next: Option<Phase>)
    requires NextFrom(order, c, start, next)
    ensures FirstWaiting(order, c, start, next)
  {
    forall j | 0 <= j < |order| ensures Holds(c, Actionable, order[j]) <==> Waiting(c, order[j]) {
      TestsAreStatuses(c, order[j]);
    }
    if next.Some? {
      var i: nat :| FirstFrom(order, c, Actionable, start, i) && order[i] == next.value;
      assert start <= i < |order|;
    }
  }

  lemma OverIsComplete(order: seq<Phase>, c: Checkpoint)
    requires order != []
    ensures Over(order, c) <==> IsComplete(order, c)
  {
    forall name | name in c.phases
      ensures HasStatus(c, name, Completed) || HasStatus(c, name, Skipped) <==> c.phases[name].status == Completed || c.phases[name].status == Skipped
    {
    }
  }

  lemma NoneIsNone(order: seq<Phase>, c: Checkpoint)
    ensures NoneFrom(order, c, Running, 0) <==> NoneWithStatus(order, c, InProgress, 0)
    ensures NoneFrom(order, c, HasFailed, 0) <==> NoneWithStatus(order, c, Failed, 0)
    ensures NoneFrom(order, c, Done, 0) <==> NoneWithStatus(order, c, Completed, 0)
  {
    forall j | 0 <= j < |order|
      ensures Holds(c, Running, order[j]) <==> HasStatus(c, order[j], InProgress)
      ensures Holds(c, HasFailed, order[j]) <==> HasStatus(c, order[j], Failed)
      ensures Holds(c, Done, order[j]) <==> HasStatus(c, order[j], Completed)
    {
      TestsAreStatuses(c, order[j]);
    }
  }

  /** Both accounts of the position agree. */
  lemma ClassifiedStands(order: seq<Phase>, c: Checkpoint, p: Position)
    requires ValidOrder(order) && Classifies(order, c, p)
    ensures Stands(order, c, p)
  {
    OverIsComplete(order, c);
    NoneIsNone(order, c);
    match p {
      case AllDone =>
      case Unknown =>
        if c.phases != map[] {
          NextIsFirstWaiting(order, c, 0, None);
        }
      case AtRunning(_, _) =>
        var i: nat :| FirstFrom(order, c, Running, 0, i) && p.phase == order[i] && p.startedAt == c.phases[p.phase].startedAt;
        assert FirstWithStatus(order, c, InProgress, i);
      case AtFailed(_, _) =>
        NextIsFirstWaiting(order, c, 0, p.next);
        var i: nat :| FirstFrom(order, c, HasFailed, 0, i) && p.failedPhase == order[i];
        assert FirstWithStatus(order, c, Failed, i);
      case WaitingToStart(_) => NextIsFirstWaiting(order, c, 0, Some(p.firstPending));
      case Transitioning(_, _, _) =>
        var i: nat :| LastWith(order, c, Done, i) && p.lastCompleted == order[i] && p.lastCompletedAt == c.phases[p.lastCompleted].completedAt
          && NextFrom(order, c, i + 1, if p.nextPending == "" then None else Some(p.nextPending));
        NextIsFirstWaiting(order, c, i + 1, if p.nextPending == "" then None else Some(p.nextPending));
        assert LeavesFrom(order, c, p, i);
    }
  }

  // ── The scans ──────────────────────────────────────────────────────

  /** First position from `start` on that passes a test. */
  method FindFrom(order: seq<Phase>, c: Checkpoint, test: Test, start: nat) returns (found: Option<nat>)
    ensures found.Some? ==> FirstFrom(order, c, test, start, found.value)
    ensures found.None? ==> NoneFrom(order, c, test, start)
  {
    var i := start;
    while i < |order|
      invariant start <= i && forall j :: start <= j < i && j < |order| ==> !Holds(c, test, order[j])
    {
      if Holds(c, test, order[i]) {
        return Some(i);
      }
      i := i + 1;
    }
    found := None;
  }

  method NextActionablePhaseAfter(order: seq<Phase>, c: Checkpoint, start: nat) returns (next: Option<Phase>)
    ensures NextFrom(order, c, start, next)
    ensures FirstWaiting(order, c, start, next)
    ensures next.Some? ==> next.value in order
  {
    var found := FindFrom(order, c, Actionable, start);
    next := if found.Some? then Some(order[found.value]) else None;
    NextIsFirstWaiting(order, c, start, next);
  }

  method FindLastCompleted(order: seq<Phase>, c: Checkpoint) returns (last: Option<nat>)
    ensures last.Some? ==> LastWith(order, c, Done, last.value)
    ensures last.None? ==> NoneFrom(order, c, Done, 0)
  {
    last := None;
    for i := 0 to |order|
      invariant last.Some? ==> last.value < i && Holds(c, Done, order[last.value]) && forall j :: last.value < j < i ==> !Holds(c, Done, order[j])
      invariant last.None? ==> forall j :: 0 <= j < i ==> !Holds(c, Done, order[j])
    {
      if Holds(c, Done, order[i]) {
        last := Some(i);
      }
    }
  }

  /** The classifier, scan by scan. */
  method InferPhasePosition(order: seq<Phase>, c: Checkpoint) returns (p: Position)
    requires ValidOrder(order)
    ensures Classifies(order, c, p) && Stands(order, c, p)
  {
    forall q | Classifies(order, c, q) ensures Stands(order, c, q) {
      ClassifiedStands(order, c, q);
    }
    if c.phases == map[] {
      return Unknown;
    }
    if IsComplete(order, c) {
      return AllDone;
    }
    var running := FindFrom(order, c, Running, 0);
    if running.Some? {
      return AtRunning(order[running.value], c.phases[order[running.value]].startedAt);
    }
    var failed := FindFrom(order, c, HasFailed, 0);
    if failed.Some? {
      var retry := NextActionablePhaseAfter(order, c, 0);
      return AtFailed(order[failed.value], retry);
    }
    var last := FindLastCompleted(order, c);
    var next := NextActionablePhaseAfter(order, c, if last.Some? then last.value + 1 else 0);
    if last.Some? {
      var name := order[last.value];
      var at := c.phases[name].completedAt;
      if next.Some? {
        p := Transitioning(name, at, next.value);
      } else if IsComplete(order, c) || last.value >= |order| - 1 {
        p := AllDone;
      } else {
        p := Transitioning(name, at, "");
      }
    } else {
      p := if next.Some? then WaitingToStart(next.value) else Unknown;
    }
  }

  /** The phase the position names is one of the table, so in particular it is
      never "complete". */
  lemma EffectivePhaseInTable(order: seq<Phase>, c: Checkpoint, p: Position)
    requires ValidOrder(order) && Classifies(order, c, p)
    ensures p.EffectivePhase().Some? ==> p.EffectivePhase().value in order && p.EffectivePhase() != Some("complete")
  {
  }

  // ── Two completion tests ───────────────────────────────────────────

  predicate Settled(s: Status) {
    s == Completed || s == Skipped || s == Cancelled
  }

  /** `p` is the inferred position of `c`; `ship` names the phase from which on a
      completion signal is believed. */
  predicate IsNearCompletion(order: seq<Phase>, ship: Phase, c: Checkpoint, p: Position)
    requires order != []
  {
    || c.completedAt.Some?
    || (Last(order) in c.phases && c.phases[Last(order)].status == Completed)
    || (c.phases != map[] && forall q | q in c.phases :: Settled(c.phases[q].status))
    || (PhaseIndex(order, ship).Some? && p.EffectivePhase().Some? && PhaseIndex(order, p.EffectivePhase().value).Some?
        && PhaseIndex(order, p.EffectivePhase().value).value >= PhaseIndex(order, ship).value)
  }

  /** Near completion means: a completion time, a completed terminal phase, only
      phases that are completed, skipped or cancelled, or a position that stands at
      `ship` or after it in the table. */
  lemma NearIff(order: seq<Phase>, ship: Phase, c: Checkpoint, p: Position)
    requires ValidOrder(order) && Classifies(order, c, p)
    ensures IsNearCompletion(order, ship, c, p) <==>
      || c.completedAt.Some?
      || HasStatus(c, order[|order| - 1], Completed)
      || (c.phases != map[] && forall q :: q in c.phases ==> c.phases[q].status == Completed || c.phases[q].status == Skipped || c.phases[q].status == Cancelled)
      || exists i, j :: 0 <= j <= i < |order| && order[j] == ship && p.EffectivePhase() == Some(order[i])
  {
    if i, j :| 0 <= j <= i < |order| && order[j] == ship && p.EffectivePhase() == Some(order[i]) {
      IndexOf(order, i);
      IndexOf(order, j);
    }
  }

  /** The gap between the two tests: complete but not near completion means the
      terminal phase was skipped while some phase is still open, and no
      completion time was written. */
  lemma CompletionGap(order: seq<Phase>, ship: Phase, c: Checkpoint, p: Position)
    requires ValidOrder(order) && Classifies(order, c, p)
    ensures IsComplete(order, c) && !IsNearCompletion(order, ship, c, p)
      <==> && c.completedAt.None?
           && Last(order) in c.phases && c.phases[Last(order)].status == Skipped
           && exists q :: q in c.phases && c.phases[q].status != Completed && c.phases[q].status != Skipped && c.phases[q].status != Cancelled
  {
  }

  /** While a phase before `ship` runs, without a completion time and without a
      completed terminal phase, completion is not believed. */
  lemma EarlyPhaseIsNotNear(order: seq<Phase>, ship: Phase, c: Checkpoint, p: Position, i: nat)
    requires ValidOrder(order) && Classifies(order, c, p)
    requires FirstWithStatus(order, c, InProgress, i)
    requires PhaseIndex(order, ship).Some? ==> i < PhaseIndex(order, ship).value
    requires c.completedAt.None? && !(Last(order) in c.phases && c.phases[Last(order)].status == Completed)
    ensures !IsNearCompletion(order, ship, c, p)
  {
  }

  /** When no terminal phase was skipped, being complete implies being near. */
  lemma CompleteIsNearUnlessSkipped(order: seq<Phase>, ship: Phase, c: Checkpoint, p: Position)
    requires ValidOrder(order) && Classifies(order, c, p)
    requires IsComplete(order, c) && !(Last(order) in c.phases && c.phases[Last(order)].status == Skipped)
    ensures IsNearCompletion(order, ship, c, p)
  {
  }

  // ── Stored and effective sequence ──────────────────────────────────

  function EffectiveSequence(order: seq<Phase>, c: Checkpoint, p: Position): Option<nat> {
    var inferred := if p.EffectivePhase().Some? then PhaseIndex(order, p.EffectivePhase().value) else None;
    inferred.OrElse(c.phaseSequence)
  }

  /** The phase the stored sequence number stands for; one past the end stands
      for the last phase, anything beyond for none. */
  function CurrentPhase(order: seq<Phase>, c: Checkpoint): Option<Phase> {
    if c.phaseSequence.None? then None
    else if c.phaseSequence.value < |order| then Some(order[c.phaseSequence.value])
    else if order != [] && c.phaseSequence.value == |order| then Some(Last(order))
    else None
  }
}

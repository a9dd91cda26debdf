/** Moving a checkpoint forward, and that the classifier follows. Modelled on
    src/checkpoint/reader.rs and src/checkpoint/writer.rs. */
module CheckpointProgress {
  import opened Prelude
  import opened CheckpointSchema

  /** A checkpoint that is updated in place. */
  class CheckpointFile {
    const id: string
    const planFile: string
    const startedAt: string
    const skipMap: Option<map<Phase, string>>
    const completedAt: Option<string>
    var phases: map<Phase, PhaseStatus>
    var phaseSequence: Option<nat>

    ghost function View(): Checkpoint
      reads this
    {
      Checkpoint(id, planFile, phases, skipMap, startedAt, completedAt, phaseSequence)
    }

    /** A new checkpoint: every phase of the table is pending. */
    constructor Fresh(order: seq<Phase>, id: string, planFile: string, now: string)
      ensures View() == FreshCheckpoint(order, id, planFile, now)
      ensures (forall p :: p in phases <==> p in order) && (forall p :: p in phases ==> phases[p].status == Pending && phases[p].completedAt.None?)
      ensures phaseSequence == Some(0) && completedAt.None? && skipMap.None?
    {
      this.id, this.planFile, this.startedAt, this.skipMap, this.completedAt := id, planFile, now, None, None;
      var all: map<Phase, PhaseStatus> := map[];
      for i := 0 to |order|
        invariant all == AllPending(order[..i])
      {
        assert order[..i + 1] == order[..i] + [order[i]];
        all := all[order[i] := PENDING];
      }
      assert order[..|order|] == order;
      phases, phaseSequence := all, Some(0);
    }

    method MarkPhasesCompletedBefore(order: seq<Phase>, target: Phase, now: string)
      requires NoDup(order)
      modifies this
      ensures View() == MarkedBefore(order, old(View()), target, now)
      ensures Marks(order, old(View()), View(), target, now)
    {
      MarkingPromise(order, View(), target, now);
      var index := PhaseIndex(order, target);
      if index.None? {
        return;
      }
      var updated := phases;
      ghost var before := View();
      for i := 0 to index.value
        invariant updated == MarkedPhases(order, before, i, i, now)
        modifies {}
      {
        var name := order[i];
        var entry := FinishedEntry(if name in updated then updated[name] else PENDING, skipMap.Some? && name in skipMap.value, now);
        MarkOneMore(order, before, i, now);
        updated := updated[name := entry];
      }
      MarkTarget(order, before, index.value, now);
      if target !in updated {
        updated := updated[target := PENDING];
      }
      phases, phaseSequence := updated, index;
    }

    static method FinishedEntry(was: PhaseStatus, skipped: bool, now: string) returns (entry: PhaseStatus)
      ensures entry == was.(status := if skipped then Skipped else Completed, completedAt := was.completedAt.OrElse(Some(now)))
    {
      entry := was.(status := if skipped then Skipped else Completed);
      if entry.completedAt.None? {
        entry := entry.(completedAt := Some(now));
      }
    }

    /** `hash`: the artifact's hash, when it exists and could be computed. */
    method MarkPhaseCompleted(order: seq<Phase>, name: Phase, artifact: Option<string>, hash: Option<string>, now: string)
      modifies this
      ensures View() == PhaseCompleted(order, old(View()), name, artifact, hash, now)
      ensures Completes(order, old(View()), View(), name, artifact, hash, now)
    {
      CompletionPromise(order, View(), name, artifact, hash, now);
      var entry := if name in phases then phases[name] else PENDING;
      entry := entry.(status := Completed, completedAt := Some(now));
      if artifact.Some? {
        entry := entry.(artifact := artifact);
        if hash.Some? {
          entry := entry.(artifactHash := hash);
        }
      }
      phases := phases[name := entry];
      var index := PhaseIndex(order, name);
      if index.Some? {
        phaseSequence := Some(index.value + 1);
      }
    }
  }

  function AllPending(order: seq<Phase>): map<Phase, PhaseStatus> {
    map p | p in order :: PENDING
  }

  function FreshCheckpoint(order: seq<Phase>, id: string, planFile: string, now: string): Checkpoint {
    Checkpoint(id, planFile, AllPending(order), None, now, None, Some(0))
  }

  function TableSet(order: seq<Phase>, n: nat): set<Phase>
    requires n <= |order|
  {
    set p | p in order[..n]
  }

  /** The status of `p` once the first `n` phases of the table count as done. */
  function MarkedStatus(order: seq<Phase>, c: Checkpoint, n: nat, p: Phase, now: string): PhaseStatus {
    var was := if p in c.phases then c.phases[p] else PENDING;
    var index := PhaseIndex(order, p);
    if index.Some? && index.value < n then
      was.(status := if InSkipMap(c, p) then Skipped else Completed, completedAt := was.completedAt.OrElse(Some(now)))
    else was
  }

  /** The first `n` phases done, and the first `m` present. */
  function MarkedPhases(order: seq<Phase>, c: Checkpoint, n: nat, m: nat, now: string): map<Phase, PhaseStatus>
    requires m <= |order|
  {
    map p | p in c.phases.Keys + TableSet(order, m) :: MarkedStatus(order, c, n, p, now)
  }

  /** `c` marked before position `n`. */
  function MarkedTo(order: seq<Phase>, c: Checkpoint, n: nat, now: string): Checkpoint
    requires n < |order|
  {
    c.(phases := MarkedPhases(order, c, n, n + 1, now), phaseSequence := Some(n))
  }

  function MarkedBefore(order: seq<Phase>, c: Checkpoint, target: Phase, now: string): Checkpoint {
    var index := PhaseIndex(order, target);
    if index.None? then c else MarkedTo(order, c, index.value, now)
  }

  function PhaseCompleted(order: seq<Phase>, c: Checkpoint, name: Phase, artifact: Option<string>, hash: Option<string>, now: string): Checkpoint {
    var was := if name in c.phases then c.phases[name] else PENDING;
    var entry := was.(status := Completed, completedAt := Some(now), artifact := artifact.OrElse(was.artifact),
                      artifactHash := if artifact.Some? then hash.OrElse(was.artifactHash) else was.artifactHash);
    var index := PhaseIndex(order, name);
    c.(phases := c.phases[name := entry], phaseSequence := if index.Some? then Some(index.value + 1) else c.phaseSequence)
  }

  // ── What the operations promise ────────────────────────────────────

  /** Phase `name` is finished: skipped if the skip map says so, else completed,
      since `now` unless a completion time was there. */
  ghost predicate FinishedNow(c: Checkpoint, c': Checkpoint, name: Phase, now: string) {
    && name in c'.phases
    && c'.phases[name].status == (if c.skipMap.Some? && name in c.skipMap.value then Skipped else Completed)
    && (if name in c.phases && c.phases[name].completedAt.Some? then c'.phases[name].completedAt == c.phases[name].completedAt
        else c'.phases[name].completedAt == Some(now))
    && (name in c.phases ==> c'.phases[name].artifact == c.phases[name].artifact && c'.phases[name].startedAt == c.phases[name].startedAt)
  }

  /** What marking does to phase `name`, given the positions of it and of the target. */
  ghost predicate MarksPhase(order: seq<Phase>, c: Checkpoint, c': Checkpoint, target: Phase, name: Phase, now: string) {
    if exists i, j :: 0 <= i < j < |order| && order[i] == name && order[j] == target then FinishedNow(c, c', name, now)
    else if name in c.phases then name in c'.phases && c'.phases[name] == c.phases[name]
    else if name == target then name in c'.phases && c'.phases[name].status == Pending
    else name !in c'.phases
  }

  /** An unknown target changes nothing. Otherwise everything before the target is
      finished, a missing target waits, nothing else changes, and the stored
      sequence is the target's position. */
  ghost predicate Marks(order: seq<Phase>, c: Checkpoint, c': Checkpoint, target: Phase, now: string) {
    && (target !in order ==> c' == c)
    && (target in order ==>
          && c' == c.(phases := c'.phases, phaseSequence := c'.phaseSequence)
          && c'.phaseSequence.Some? && c'.phaseSequence.value < |order| && order[c'.phaseSequence.value] == target
          && forall name :: MarksPhase(order, c, c', target, name, now))
  }

  lemma MarkingPromise(order: seq<Phase>, c: Checkpoint, target: Phase, now: string)
    requires NoDup(order)
    ensures Marks(order, c, MarkedBefore(order, c, target, now), target, now)
  {
    if target in order {
      forall name ensures MarksPhase(order, c, MarkedBefore(order, c, target, now), target, name, now) {
        MarkedLookup(order, c, target, now, name);
        EarlierByIndex(order, name, target);
      }
    }
  }

  lemma EarlierByIndex(order: seq<Phase>, name: Phase, target: Phase)
    requires NoDup(order) && target in order
    ensures (exists i, j :: 0 <= i < j < |order| && order[i] == name && order[j] == target)
      <==> PhaseIndex(order, name).Some? && PhaseIndex(order, name).value < PhaseIndex(order, target).value
  {
    if i, j :| 0 <= i < j < |order| && order[i] == name && order[j] == target {
      IndexOf(order, i);
      IndexOf(order, j);
    }
  }

  /** One phase is completed with its artifact, and the stored sequence is the
      position after it if the table knows it. */
  ghost predicate Completes(order: seq<Phase>, c: Checkpoint, c': Checkpoint, name: Phase, artifact: Option<string>, hash: Option<string>, now: string) {
    && c' == c.(phases := c'.phases, phaseSequence := c'.phaseSequence)
    && name in c'.phases && c'.phases == c.phases[name := c'.phases[name]]
    && c'.phases[name].status == Completed && c'.phases[name].completedAt == Some(now)
    && (artifact.Some? ==> c'.phases[name].artifact == artifact && (hash.Some? ==> c'.phases[name].artifactHash == hash))
    && (artifact.None? && name in c.phases ==> c'.phases[name].artifact == c.phases[name].artifact && c'.phases[name].artifactHash == c.phases[name].artifactHash)
    && (name !in order ==> c'.phaseSequence == c.phaseSequence)
    && (name in order ==> c'.phaseSequence.Some? && 0 < c'.phaseSequence.value <= |order| && order[c'.phaseSequence.value - 1] == name)
  }

  lemma CompletionPromise(order: seq<Phase>, c: Checkpoint, name: Phase, artifact: Option<string>, hash: Option<string>, now: string)
    ensures Completes(order, c, PhaseCompleted(order, c, name, artifact, hash, now), name, artifact, hash, now)
  {
  }

  // ── Marking ────────────────────────────────────────────────────────

  lemma MarkOneMore(order: seq<Phase>, c: Checkpoint, i: nat, now: string)
    requires NoDup(order) && i < |order|
    ensures var name := order[i]; var m := MarkedPhases(order, c, i, i, now);
      var was := if name in m then m[name] else PENDING;
      MarkedPhases(order, c, i + 1, i + 1, now) ==
        m[name := was.(status := if InSkipMap(c, name) then Skipped else Completed, completedAt := was.completedAt.OrElse(Some(now)))]
  {
    IndexOf(order, i);
    PhaseInTableSet(order, i, order[i]);
    assert order[..i + 1] == order[..i] + [order[i]];
    assert TableSet(order, i + 1) == TableSet(order, i) + {order[i]};
    forall p | p != order[i] ensures MarkedStatus(order, c, i + 1, p, now) == MarkedStatus(order, c, i, p, now) {
    }
  }

  lemma MarkTarget(order: seq<Phase>, c: Checkpoint, n: nat, now: string)
    requires NoDup(order) && n < |order|
    ensures var m := MarkedPhases(order, c, n, n, now);
      MarkedPhases(order, c, n, n + 1, now) == if order[n] in m then m else m[order[n] := PENDING]
  {
    IndexOf(order, n);
    assert order[..n + 1] == order[..n] + [order[n]];
    assert TableSet(order, n + 1) == TableSet(order, n) + {order[n]};
  }

  lemma PhaseInTableSet(order: seq<Phase>, n: nat, p: Phase)
    requires NoDup(order) && n <= |order|
    ensures p in TableSet(order, n) <==> PhaseIndex(order, p).Some? && PhaseIndex(order, p).value < n
  {
  }

  lemma StatusTwice(order: seq<Phase>, c: Checkpoint, n1: nat, n2: nat, now: string, p: Phase)
    requires NoDup(order) && n1 <= n2 < |order|
    ensures MarkedStatus(order, MarkedTo(order, c, n1, now), n2, p, now) == MarkedStatus(order, c, n2, p, now)
  {
    PhaseInTableSet(order, n1 + 1, p);
  }

  lemma KeysTwice(order: seq<Phase>, c: Checkpoint, n1: nat, n2: nat, now: string)
    requires n1 <= n2 < |order|
    ensures MarkedTo(order, c, n1, now).phases.Keys + TableSet(order, n2 + 1) == c.phases.Keys + TableSet(order, n2 + 1)
  {
  }

  lemma SameMarks(order: seq<Phase>, a: Checkpoint, b: Checkpoint, n: nat, m: nat, now: string)
    requires m <= |order| && a.phases.Keys + TableSet(order, m) == b.phases.Keys + TableSet(order, m)
    requires forall p :: MarkedStatus(order, a, n, p, now) == MarkedStatus(order, b, n, p, now)
    ensures MarkedPhases(order, a, n, m, now) == MarkedPhases(order, b, n, m, now)
  {
  }

  lemma MarksTwice(order: seq<Phase>, c: Checkpoint, n1: nat, n2: nat, now: string)
    requires NoDup(order) && n1 <= n2 < |order|
    ensures MarkedPhases(order, MarkedTo(order, c, n1, now), n2, n2 + 1, now) == MarkedPhases(order, c, n2, n2 + 1, now)
  {
    var c1 := MarkedTo(order, c, n1, now);
    KeysTwice(order, c, n1, n2, now);
    forall p ensures MarkedStatus(order, c1, n2, p, now) == MarkedStatus(order, c, n2, p, now) {
      StatusTwice(order, c, n1, n2, now, p);
    }
    SameMarks(order, c1, c, n2, n2 + 1, now);
  }

  /** With one clock reading, marking before an earlier target and then before a
      later or equal one is the same as marking before the later one alone. */
  lemma MarkingTwice(order: seq<Phase>, c: Checkpoint, t1: Phase, t2: Phase, now: string)
    requires NoDup(order) && t2 in order
    requires PhaseIndex(order, t1).Some? ==> PhaseIndex(order, t1).value <= PhaseIndex(order, t2).value
    ensures MarkedBefore(order, MarkedBefore(order, c, t1, now), t2, now) == MarkedBefore(order, c, t2, now)
  {
    if t1 in order {
      MarksTwice(order, c, PhaseIndex(order, t1).value, PhaseIndex(order, t2).value, now);
    }
  }

  lemma MarkedLookup(order: seq<Phase>, c: Checkpoint, t: Phase, now: string, p: Phase)
    requires NoDup(order) && t in order
    ensures var c', n := MarkedBefore(order, c, t, now), PhaseIndex(order, t).value;
      && (p in c'.phases <==> p in c.phases || (PhaseIndex(order, p).Some? && PhaseIndex(order, p).value <= n))
      && (p in c'.phases ==> c'.phases[p] == MarkedStatus(order, c, n, p, now))
  {
  }

  /** Marking leaves the target, every later phase and every unknown name alone,
      except that a missing target becomes pending; a status already there for
      the target stays, whatever it is. */
  lemma MarkingFrame(order: seq<Phase>, c: Checkpoint, t: Phase, now: string, p: Phase)
    requires NoDup(order) && t in order
    requires p !in order || PhaseIndex(order, p).value >= PhaseIndex(order, t).value
    ensures var c' := MarkedBefore(order, c, t, now);
      && (p in c.phases ==> p in c'.phases && c'.phases[p] == c.phases[p])
      && (p !in c.phases ==> (p in c'.phases <==> p == t))
      && (p == t && t !in c.phases ==> c'.phases[t] == PENDING)
  {
    MarkedLookup(order, c, t, now, p);
  }

  /** Before the call: would the pipeline resume at the target? */
  ghost predicate ResumesAt(order: seq<Phase>, c: Checkpoint, t: nat)
    requires order != [] && t < |order|
  {
    && c.completedAt.None?
    && !HasStatus(c, order[|order| - 1], Completed) && !HasStatus(c, order[|order| - 1], Skipped)
    && (|| HasStatus(c, order[t], InProgress)
        || (NoneWithStatus(order, c, InProgress, t)
            && (|| HasStatus(c, order[t], Failed)
                || (NoneWithStatus(order, c, Failed, t) && Awaits(c, order[t]) && NoneWithStatus(order, c, Completed, t + 1)))))
  }

  /** Actionable, or missing and not to be skipped. */
  predicate Awaits(c: Checkpoint, p: Phase) {
    (p !in c.phases || HasStatus(c, p, Pending) || HasStatus(c, p, Blank)) && (c.skipMap.Some? ==> p !in c.skipMap.value)
  }

  /** What marking before position `t` does to the phase at position `j`. */
  ghost predicate MarkedAt(order: seq<Phase>, c: Checkpoint, c': Checkpoint, t: nat, j: nat)
    requires j < |order|
  {
    var p := order[j];
    if j < t then p in c'.phases && c'.phases[p].status == (if InSkipMap(c, p) then Skipped else Completed)
    else if p in c.phases then p in c'.phases && c'.phases[p] == c.phases[p]
    else if j == t then p in c'.phases && c'.phases[p] == PENDING
    else p !in c'.phases
  }

  lemma MarkingAt(order: seq<Phase>, c: Checkpoint, t: nat, now: string, j: nat)
    requires NoDup(order) && t < |order| && j < |order|
    ensures MarkedAt(order, c, MarkedBefore(order, c, order[t], now), t, j)
  {
  }

  /** On any checkpoint, after marking the phases before a target the pipeline
      stands at the target exactly when `ResumesAt` held before; the stored
      sequence is the target's in any case. */
  lemma MarkingResumesIff(order: seq<Phase>, c: Checkpoint, t: nat, now: string, p: Position)
    requires ValidOrder(order) && t < |order|
    requires Classifies(order, MarkedBefore(order, c, order[t], now), p)
    ensures MarkedBefore(order, c, order[t], now).phaseSequence == Some(t)
    ensures p.EffectivePhase() == Some(order[t]) <==> ResumesAt(order, c, t)
    ensures p.EffectivePhase() == Some(order[t]) ==> EffectiveSequence(order, MarkedBefore(order, c, order[t], now), p) == Some(t)
  {
    var c' := MarkedBefore(order, c, order[t], now);
    IndexOf(order, t);
    forall j: nat | j < |order| ensures MarkedAt(order, c, c', t, j) {
      MarkingAt(order, c, t, now, j);
    }
    ResumeCases(order, c, c', t, p);
  }

  lemma ResumeCases(order: seq<Phase>, c: Checkpoint, c': Checkpoint, t: nat, p: Position)
    requires ValidOrder(order) && t < |order| && Classifies(order, c', p)
    requires c'.completedAt == c.completedAt && c'.skipMap == c.skipMap
    requires forall j: nat :: j < |order| ==> MarkedAt(order, c, c', t, j)
    ensures p.EffectivePhase() == Some(order[t]) <==> ResumesAt(order, c, t)
  {
    assert MarkedAt(order, c, c', t, t) && MarkedAt(order, c, c', t, |order| - 1);
    assert TerminalPhaseCompleted(order, c') <==> TerminalPhaseCompleted(order, c);
    if c.completedAt.None? && !TerminalPhaseCompleted(order, c) {
      forall j: nat | j < |order|
        ensures j < t ==> !Holds(c', Running, order[j]) && !Holds(c', HasFailed, order[j]) && !Holds(c', Actionable, order[j])
        ensures j >= t ==> (Holds(c', Running, order[j]) <==> Holds(c, Running, order[j]))
        ensures j >= t ==> (Holds(c', HasFailed, order[j]) <==> Holds(c, HasFailed, order[j]))
        ensures j >= t ==> (Holds(c', Done, order[j]) <==> Holds(c, Done, order[j]))
      {
        assert MarkedAt(order, c, c', t, j);
      }
      ResumeByTests(order, c, c', t, p);
    }
  }

  lemma ResumeByTests(order: seq<Phase>, c: Checkpoint, c': Checkpoint, t: nat, p: Position)
    requires ValidOrder(order) && t < |order| && Classifies(order, c', p)
    requires c'.completedAt.None? && !TerminalPhaseCompleted(order, c') && c.completedAt.None? && !TerminalPhaseCompleted(order, c)
    requires order[t] in c'.phases
    requires forall j :: 0 <= j < t ==> !Holds(c', Running, order[j]) && !Holds(c', HasFailed, order[j]) && !Holds(c', Actionable, order[j])
    requires forall j :: t <= j < |order| ==> (Holds(c', Running, order[j]) <==> Holds(c, Running, order[j]))
    requires forall j :: t <= j < |order| ==> (Holds(c', HasFailed, order[j]) <==> Holds(c, HasFailed, order[j]))
    requires forall j :: t <= j < |order| ==> (Holds(c', Done, order[j]) <==> Holds(c, Done, order[j]))
    requires Holds(c', Actionable, order[t]) <==> Awaits(c, order[t])
    ensures p.EffectivePhase() == Some(order[t]) <==> ResumesAt(order, c, t)
  {
  }

  // ── Advancing a fresh checkpoint ───────────────────────────────────

  /** `c` after completing the first `k` phases of the table in order. */
  function Advanced(order: seq<Phase>, c: Checkpoint, k: nat, clock: nat -> string): Checkpoint
    requires k <= |order|
  {
    if k == 0 then c else PhaseCompleted(order, Advanced(order, c, k - 1, clock), order[k - 1], None, None, clock(k - 1))
  }

  lemma CompletedLookup(order: seq<Phase>, c: Checkpoint, k: nat, now: string, p: Phase)
    requires NoDup(order) && k < |order| && p in c.phases
    ensures var c' := PhaseCompleted(order, c, order[k], None, None, now);
      && c'.completedAt == c.completedAt && c'.skipMap == c.skipMap && c'.phaseSequence == Some(k + 1)
      && p in c'.phases
      && c'.phases[p] == if p == order[k] then c.phases[p].(status := Completed, completedAt := Some(now)) else c.phases[p]
  {
  }

  lemma {:induction false} AdvancedPhase(order: seq<Phase>, id: string, plan: string, now: string, clock: nat -> string, k: nat, j: nat)
    requires NoDup(order) && k <= |order| && j < |order|
    ensures var c := Advanced(order, FreshCheckpoint(order, id, plan, now), k, clock);
      && c.completedAt.None? && c.skipMap.None? && c.phaseSequence == Some(k)
      && order[j] in c.phases
      && c.phases[order[j]] == if j < k then PENDING.(status := Completed, completedAt := Some(clock(j))) else PENDING
  {
    if k > 0 {
      AdvancedPhase(order, id, plan, now, clock, k - 1, j);
      CompletedLookup(order, Advanced(order, FreshCheckpoint(order, id, plan, now), k - 1, clock), k - 1, clock(k - 1), order[j]);
    }
  }

  /** `c` has exactly its first `k` table phases completed and the rest pending. */
  ghost predicate DoneUpTo(order: seq<Phase>, c: Checkpoint, k: nat) {
    && c.completedAt.None? && c.skipMap.None?
    && forall j :: 0 <= j < |order| ==> order[j] in c.phases && c.phases[order[j]].status == if j < k then Completed else Pending
  }

  lemma DoneUpToPosition(order: seq<Phase>, c: Checkpoint, k: nat, p: Position)
    requires ValidOrder(order) && k <= |order| && DoneUpTo(order, c, k) && Classifies(order, c, p)
    ensures k == 0 ==> p == WaitingToStart(order[0])
    ensures 0 < k < |order| ==> p == Transitioning(order[k - 1], c.phases[order[k - 1]].completedAt, order[k])
    ensures k == |order| ==> p == AllDone
  {
    assert order[|order| - 1] in c.phases;
    if k < |order| {
      assert Holds(c, Actionable, order[k]);
      assert "" != order[k];
      if k > 0 {
        assert Holds(c, Done, order[k - 1]);
      } else {
        assert forall j :: 0 <= j < |order| ==> !Holds(c, Done, order[j]);
      }
    }
  }

  /** Completing the first `k` phases of a fresh checkpoint in order leaves the
      classifier, the stored sequence and the effective sequence at phase `k`;
      completing all of them leaves it done. */
  lemma AdvancingAgrees(order: seq<Phase>, id: string, plan: string, now: string, clock: nat -> string, k: nat, p: Position)
    requires ValidOrder(order) && k <= |order|
    requires Classifies(order, Advanced(order, FreshCheckpoint(order, id, plan, now), k, clock), p)
    ensures var c := Advanced(order, FreshCheckpoint(order, id, plan, now), k, clock);
      && c.phaseSequence == EffectiveSequence(order, c, p) == Some(k)
      && (k < |order| ==> p.EffectivePhase() == CurrentPhase(order, c) == Some(order[k]))
      && (k == |order| ==> p == AllDone && CurrentPhase(order, c) == Some(Last(order)))
  {
    var c := Advanced(order, FreshCheckpoint(order, id, plan, now), k, clock);
    AdvancedPhase(order, id, plan, now, clock, k, 0);
    forall j: nat | j < |order|
      ensures order[j] in c.phases && c.phases[order[j]].status == if j < k then Completed else Pending
    {
      AdvancedPhase(order, id, plan, now, clock, k, j);
    }
    DoneUpToPosition(order, c, k, p);
    if k < |order| {
      IndexOf(order, k);
    }
  }

  /** Jumping a fresh checkpoint straight to phase `k` agrees with that as well. */
  lemma JumpingAgrees(order: seq<Phase>, id: string, plan: string, now: string, k: nat, at: string, p: Position)
    requires ValidOrder(order) && k < |order|
    requires Classifies(order, MarkedBefore(order, FreshCheckpoint(order, id, plan, now), order[k], at), p)
    ensures var c := MarkedBefore(order, FreshCheckpoint(order, id, plan, now), order[k], at);
      && c.phaseSequence == EffectiveSequence(order, c, p) == Some(k)
      && p.EffectivePhase() == CurrentPhase(order, c) == Some(order[k])
  {
    var start := FreshCheckpoint(order, id, plan, now);
    var c := MarkedBefore(order, start, order[k], at);
    forall j: nat | j < |order|
      ensures order[j] in c.phases && c.phases[order[j]].status == if j < k then Completed else Pending
    {
      MarkingAt(order, start, k, at, j);
      assert start.phases[order[j]] == PENDING;
    }
    IndexOf(order, k);
    DoneUpToPosition(order, c, k, p);
  }

  // ── The next pending phase ─────────────────────────────────────────

  /** Missing phases count as pending here, blank ones do not, and the skip map
      is not consulted. */
  predicate CountsAsPending(c: Checkpoint, p: Phase) {
    p in c.phases ==> c.phases[p].status == Pending
  }

  ghost predicate NextPendingIs(order: seq<Phase>, c: Checkpoint, i: nat) {
    && i <= |order|
    && (i < |order| ==> CountsAsPending(c, order[i]))
    && (forall j :: 0 <= j < i ==> !CountsAsPending(c, order[j]))
  }

  method NextPendingPhase(order: seq<Phase>, c: Checkpoint) returns (next: Option<Phase>)
    ensures next.Some? ==> exists i: nat :: NextPendingIs(order, c, i) && i < |order| && order[i] == next.value
    ensures next.None? ==> NextPendingIs(order, c, |order|)
  {
    for i := 0 to |order|
      invariant forall j :: 0 <= j < i ==> !CountsAsPending(c, order[j])
    {
      if order[i] !in c.phases || c.phases[order[i]].status == Pending {
        assert NextPendingIs(order, c, i);
        return Some(order[i]);
      }
    }
    next := None;
  }

  /** After marking before a target nothing earlier is pending; the target itself
      is the next pending phase exactly when it was pending or missing before. */
  lemma NextPendingAfterMarking(order: seq<Phase>, c: Checkpoint, t: nat, now: string, i: nat)
    requires NoDup(order) && t < |order|
    requires NextPendingIs(order, MarkedBefore(order, c, order[t], now), i)
    ensures i >= t && (i == t <==> CountsAsPending(c, order[t]))
  {
    if i < |order| {
      MarkingAt(order, c, t, now, i);
    }
    MarkingAt(order, c, t, now, t);
  }

  /** The two notions of "next" part ways on an otherwise fresh checkpoint as soon
      as its first phase is in the skip map: it is pending but not actionable. */
  lemma SkippedPhaseIsPendingNotNext(order: seq<Phase>, id: string, plan: string, now: string, why: string, p: Position)
    requires ValidOrder(order)
    requires Classifies(order, FreshCheckpoint(order, id, plan, now).(skipMap := Some(map[order[0] := why])), p)
    ensures NextPendingIs(order, FreshCheckpoint(order, id, plan, now).(skipMap := Some(map[order[0] := why])), 0)
    ensures p == if |order| > 1 then WaitingToStart(order[1]) else Unknown
  {
  }
}

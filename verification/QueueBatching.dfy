/** Several queue mutations under one lock with a single trailing snapshot do the
    same as the wrappers that persist the queue after each. Modelled on
    src/daemon/registry.rs and src/daemon/executor.rs. */
module QueueBatching {
  import opened Prelude
  import opened RunModel
  import opened RegistrySpec
  import opened RegistrySystem
  import opened RunRegistryClass
  import Protocol = FlushProtocol

  // ── One flush, undisturbed ─────────────────────────────────────────

  /** What flushing touches: the shared epoch tracker and queue.json. */
  datatype Disk = Disk(tracker: nat, file: Wire)

  /** `writeOk`: the temporary file could be written; `meanwhile`: what other
      flushers left behind while it was; `renameOk`: it could be moved. */
  function Flush(d: Disk, snap: QueueSnapshot, writeOk: bool, meanwhile: Disk, renameOk: bool): (Disk, bool) {
    if snap.epoch <= d.tracker then (d, true)
    else if !writeOk then (d, false)
    else if snap.epoch <= meanwhile.tracker then (meanwhile, true)
    else if !renameOk then (meanwhile.(tracker := snap.epoch), false)
    else (Disk(snap.epoch, snap.wire), true)
  }

  class QueueFile {
    var tracker: nat
    var tmp: map<nat, Wire>
    var file: Wire

    constructor (found: Wire)
      ensures tracker == 0 && tmp == map[] && file == found
    {
      tracker, tmp, file := 0, map[], found;
    }

    method FlushQueue(snap: QueueSnapshot, writeOk: bool, meanwhile: Disk, renameOk: bool) returns (ok: bool)
      modifies this
      ensures (Disk(tracker, file), ok) == Flush(old(Disk(tracker, file)), snap, writeOk, meanwhile, renameOk)
      ensures ok ==> tracker >= snap.epoch
    {
      var last := tracker;
      if snap.epoch <= last {
        return true;
      }
      if !writeOk {
        return false;
      }
      tmp := tmp[snap.epoch := snap.wire];
      tracker, file := meanwhile.tracker, meanwhile.file;
      var winner := tracker;
      tracker := if tracker < snap.epoch then snap.epoch else tracker;
      if snap.epoch <= winner {
        tmp := tmp - {snap.epoch};
        return true;
      }
      if !renameOk {
        tmp := tmp - {snap.epoch};
        return false;
      }
      file := tmp[snap.epoch];
      tmp := tmp - {snap.epoch};
      ok := true;
    }
  }

  /** The four steps of one flusher of the racing model, with nobody between them. */
  function FlushSteps(s: Protocol.Sys, e: nat, writeOk: bool, renameOk: bool): Protocol.Sys
    requires Protocol.StandsAt(s, e, Protocol.Idle)
  {
    var s1 := Protocol.Take(s, Protocol.Enter(e));
    if s1.at[e - 1] == Protocol.Flushed then s1
    else
      var s2 := Protocol.Take(s1, Protocol.Write(e, writeOk));
      if !writeOk then s2
      else
        var s3 := Protocol.Take(s2, Protocol.Claim(e));
        Protocol.Take(s3, Protocol.Rename(e, renameOk))
  }

  /** `Flush` is what those four steps amount to. */
  lemma FlushIsFourSteps(s: Protocol.Sys, e: nat, writeOk: bool, renameOk: bool)
    requires Protocol.StandsAt(s, e, Protocol.Idle)
    requires s.file.Whole?
    ensures var s' := FlushSteps(s, e, writeOk, renameOk);
      var before := Disk(s.tracker, s.file.wire);
      var (d, ok) := Flush(before, QueueSnapshot(s.snapshots[e - 1], e), writeOk, before, renameOk);
      && s'.tracker == d.tracker && s'.file == Protocol.Whole(d.file)
      && s'.at[e - 1] == (if ok then Protocol.Flushed else Protocol.Idle)
  {
  }

  // ── Mutations, batched and one by one ──────────────────────────────

  /** The mutations that come with a helper that takes no snapshot. The source
      has no persisting wrapper for the drain over all repositories; it is given
      one of the same shape as that for a single repository. */
  predicate IsQueueMutation(a: Action) {
    a.Submit? || a.Drain? || a.DrainFirstReady? || a.SpawnFailed? || a.SpawnSucceeded? || a.DropPending?
  }

  /** Whether the persisting wrapper takes a snapshot: not after a refused
      submission, nor when there was nothing to drain. */
  ghost predicate TakesSnapshot(env: Env, s: Registry, a: Action) {
    match a
    case Submit(p) => Enqueue(env, s, p).1.Enqueued?
    case Drain(repo) => DrainNext(env, s, repo).1.Some?
    case DrainFirstReady => DrainAny(s).1.Some?
    case _ => true
  }

  /** What the caller is given, the same in both forms. */
  datatype Answer = Position(outcome: EnqueueOutcome) | Popped(run: Option<PendingRun>) | StoppedRuns(batch: seq<RunEntry>) | Nothing

  ghost function AnswerTo(env: Env, s: Registry, a: Action): Answer {
    match a
    case Submit(p) => Position(Enqueue(env, s, p).1)
    case Drain(repo) => Popped(DrainNext(env, s, repo).1)
    case DrainFirstReady => Popped(DrainAny(s).1)
    case SpawnFailed(repo, now) => StoppedRuns(RecordFailure(env, s, repo, now).1)
    case _ => Nothing
  }

  function Persist(s: Registry, d: Disk): (Registry, Disk) {
    (StageQueue(s), Flush(d, QueueSnapshot(WireOf(s), s.queueEpoch + 1), true, d, true).0)
  }

  datatype Outcome = Outcome(s: Registry, d: Disk, answers: seq<Answer>)

  ghost function RunEach(env: Env, s: Registry, d: Disk, ops: seq<Action>): Outcome
    decreases |ops|
  {
    if ops == [] then Outcome(s, d, [])
    else
      var s1 := Apply(env, s, ops[0]);
      var (s2, d2) := if TakesSnapshot(env, s, ops[0]) then Persist(s1, d) else (s1, d);
      var rest := RunEach(env, s2, d2, ops[1..]);
      rest.(answers := [AnswerTo(env, s, ops[0])] + rest.answers)
  }

  ghost function ApplyAll(env: Env, s: Registry, ops: seq<Action>): (Registry, seq<Answer>)
    decreases |ops|
  {
    if ops == [] then (s, [])
    else
      var (s', answers) := ApplyAll(env, Apply(env, s, ops[0]), ops[1..]);
      (s', [AnswerTo(env, s, ops[0])] + answers)
  }

  ghost function RunBatched(env: Env, s: Registry, d: Disk, ops: seq<Action>): Outcome {
    var (s1, answers) := ApplyAll(env, s, ops);
    var (s2, d2) := Persist(s1, d);
    Outcome(s2, d2, answers)
  }

  // ── The epoch is a bystander ───────────────────────────────────────

  function AtEpoch(s: Registry, n: nat): Registry {
    s.(queueEpoch := n)
  }

  lemma {:induction false} StopEachIgnoresEpoch(env: Env, s: Registry, n: nat, ids: seq<RunId>, reason: string, now: Instant)
    ensures var (s1, b1) := StopEach(env, s, ids, reason, now);
      StopEach(env, AtEpoch(s, n), ids, reason, now) == (AtEpoch(s1, n), b1)
  {
    if ids != [] {
      StopEachIgnoresEpoch(env, s, n, ids[..|ids| - 1], reason, now);
    }
  }

  lemma {:induction false} FirstReadyIgnoresEpoch(s: Registry, n: nat, i: nat)
    requires i <= |s.order|
    ensures FirstReady(AtEpoch(s, n), i) == FirstReady(s, i)
    decreases |s.order| - i
  {
    if i < |s.order| {
      FirstReadyIgnoresEpoch(s, n, i + 1);
    }
  }

  lemma FailureIgnoresEpoch(env: Env, s: Registry, n: nat, repo: Path, now: Instant)
    ensures var (s1, b1) := RecordFailure(env, s, repo, now);
      RecordFailure(env, AtEpoch(s, n), repo, now) == (AtEpoch(s1, n), b1)
  {
    var k := RepoHash(env, repo);
    var emptied := s.(queues := if k in s.queues then s.queues[k := []] else s.queues);
    StopEachIgnoresEpoch(env, emptied, n, QueuedIds(s, k), "circuit breaker tripped", now);
  }

  lemma StepIgnoresEpoch(env: Env, s: Registry, n: nat, a: Action)
    requires IsQueueMutation(a)
    ensures Apply(env, AtEpoch(s, n), a) == AtEpoch(Apply(env, s, a), n)
    ensures AnswerTo(env, AtEpoch(s, n), a) == AnswerTo(env, s, a)
    ensures TakesSnapshot(env, AtEpoch(s, n), a) == TakesSnapshot(env, s, a)
  {
    match a
    case SpawnFailed(repo, now) => FailureIgnoresEpoch(env, s, n, repo, now);
    case DrainFirstReady => FirstReadyIgnoresEpoch(s, n, 0);
    case Submit(p) => assert HasActiveDuplicate(env, AtEpoch(s, n), p) == HasActiveDuplicate(env, s, p);
    case _ =>
  }

  lemma {:induction false} ApplyAllIgnoresEpoch(env: Env, s: Registry, n: nat, ops: seq<Action>)
    requires forall a :: a in ops ==> IsQueueMutation(a)
    ensures ApplyAll(env, AtEpoch(s, n), ops) == (AtEpoch(ApplyAll(env, s, ops).0, n), ApplyAll(env, s, ops).1)
    decreases |ops|
  {
    if ops != [] {
      StepIgnoresEpoch(env, s, n, ops[0]);
      ApplyAllIgnoresEpoch(env, Apply(env, s, ops[0]), n, ops[1..]);
    }
  }

  // ── Refinement ─────────────────────────────────────────────────────

  lemma {:induction false} FirstReadyIsReady(s: Registry, i: nat)
    requires i <= |s.order| && FirstReady(s, i).Some?
    ensures Ready(s, FirstReady(s, i).value)
    decreases |s.order| - i
  {
    if !Ready(s, s.order[i]) {
      FirstReadyIsReady(s, i + 1);
    }
  }

  /** The persisting form: queue.json keeps up with memory, one epoch per snapshot. */
  lemma {:induction false} EachFormKeepsUp(env: Env, s: Registry, d: Disk, ops: seq<Action>)
    requires forall a :: a in ops ==> IsQueueMutation(a)
    requires d.tracker <= s.queueEpoch && d.file == WireOf(s)
    ensures var (each, all) := (RunEach(env, s, d, ops), ApplyAll(env, s, ops));
      && each.s == AtEpoch(all.0, each.s.queueEpoch) && each.answers == all.1
      && each.d.file == WireOf(each.s) && each.d.tracker <= each.s.queueEpoch
      && s.queueEpoch <= each.s.queueEpoch <= s.queueEpoch + |ops|
    decreases |ops|
  {
    if ops != [] {
      var s1 := Apply(env, s, ops[0]);
      StepIgnoresEpoch(env, s, s.queueEpoch, ops[0]);
      assert AtEpoch(s, s.queueEpoch) == s;
      assert s1.queueEpoch == s.queueEpoch;
      if TakesSnapshot(env, s, ops[0]) {
        var (s2, d2) := Persist(s1, d);
        EachFormKeepsUp(env, s2, d2, ops[1..]);
        ApplyAllIgnoresEpoch(env, s1, s2.queueEpoch, ops[1..]);
      } else {
        EachFormKeepsUp(env, s1, d, ops[1..]);
      }
    }
  }

  lemma {:induction false} ApplyAllKeepsEpoch(env: Env, s: Registry, ops: seq<Action>)
    requires forall a :: a in ops ==> IsQueueMutation(a)
    ensures ApplyAll(env, s, ops).0.queueEpoch == s.queueEpoch
    decreases |ops|
  {
    if ops != [] {
      StepIgnoresEpoch(env, s, s.queueEpoch, ops[0]);
      assert AtEpoch(s, s.queueEpoch) == s;
      ApplyAllKeepsEpoch(env, Apply(env, s, ops[0]), ops[1..]);
    }
  }

  /** For any list of mutations, started from a queue.json that agrees with
      memory, the batched form gives the same answers, the same registry up to
      the epoch and the same queue.json as the form that persists after each, and
      uses one epoch. */
  lemma BatchingRefines(env: Env, s: Registry, d: Disk, ops: seq<Action>)
    requires forall a :: a in ops ==> IsQueueMutation(a)
    requires d.tracker <= s.queueEpoch && d.file == WireOf(s)
    ensures var (each, batched) := (RunEach(env, s, d, ops), RunBatched(env, s, d, ops));
      && batched.answers == each.answers
      && batched.s == AtEpoch(each.s, s.queueEpoch + 1)
      && batched.d.file == each.d.file == WireOf(batched.s)
      && batched.d.tracker == batched.s.queueEpoch
  {
    EachFormKeepsUp(env, s, d, ops);
    ApplyAllKeepsEpoch(env, s, ops);
  }
}

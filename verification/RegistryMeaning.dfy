/** What the registry's operations promise, in terms of entries, locks, queues and
    counts alone. The functions of RegistrySpec are proved to keep each promise.
    Modelled on src/daemon/registry.rs. */
module RegistryMeaning {
  import opened Prelude
  import opened RunModel
  import opened RegistrySpec
  import opened RegistrySystem

  predicate IsOver(status: RunStatus) {
    status != Queued && status != Running
  }

  predicate ActiveIn(runs: map<RunId, RunEntry>, id: RunId) {
    id in runs && (runs[id].status == Queued || runs[id].status == Running)
  }

  /** Only the entry of `id` differs, and in it only what a status change touches. */
  ghost predicate Restaged(s: Registry, s': Registry, id: RunId, e': RunEntry) {
    && id in s.runs && s'.runs == s.runs[id := e']
    && e' == s.runs[id].(status := e'.status, writeEpoch := e'.writeEpoch, currentPhase := e'.currentPhase,
                         errorMessage := e'.errorMessage, finishedAt := e'.finishedAt)
  }

  ghost predicate ReachesStatus(e: RunEntry, e': RunEntry, status: RunStatus, phase: Option<string>, error: Option<string>, now: Instant) {
    && e'.status == status && e'.writeEpoch == e.writeEpoch + 1
    && (phase.Some? ==> e'.currentPhase == phase) && (phase.None? ==> e'.currentPhase == e.currentPhase)
    && (error.Some? ==> e'.errorMessage == error) && (error.None? ==> e'.errorMessage == e.errorMessage)
    && (IsOver(status) ==> e'.finishedAt == Some(now)) && (!IsOver(status) ==> e'.finishedAt == e.finishedAt)
  }

  /** An ended run never becomes active again and a running one is never queued
      again; nothing else is refused. Ending a run unlocks its repository. */
  ghost predicate Stages(env: Env, s: Registry, s': Registry, id: RunId, status: RunStatus, phase: Option<string>, error: Option<string>,
                         now: Instant, outcome: StageOutcome) {
    && (outcome.RunNotFound? <==> id !in s.runs)
    && (outcome.InvalidTransition? <==> id in s.runs && ((IsOver(s.runs[id].status) && !IsOver(status)) || (s.runs[id].status == Running && status == Queued)))
    && (outcome.InvalidTransition? ==> outcome.from == s.runs[id].status && outcome.to == status)
    && (!outcome.Staged? ==> s' == s)
    && (outcome.Staged? ==>
          && Restaged(s, s', id, outcome.entry) && ReachesStatus(s.runs[id], outcome.entry, status, phase, error, now)
          && s' == s.(runs := s'.runs, locks := s'.locks)
          && (forall k :: k in s'.locks <==> k in s.locks && (IsOver(status) ==> k != RepoHash(env, s.runs[id].repoDir))))
  }

  lemma StagePromise(env: Env, s: Registry, id: RunId, status: RunStatus, phase: Option<string>, error: Option<string>, now: Instant)
    ensures var (s', outcome) := StageStatus(env, s, id, status, phase, error, now);
      Stages(env, s, s', id, status, phase, error, now, outcome)
  {
  }

  // ── Granting a repository's lock ───────────────────────────────────

  /** `ok` exactly when nobody holds the repository and the write works; then the
      lock and the queued entry of the run are there, and otherwise nothing is. */
  ghost predicate Registers(env: Env, s: Registry, s': Registry, id: RunId, plan: Path, repo: Path, session: Option<string>,
                            osFree: bool, writeOk: bool, now: Instant, ok: bool) {
    && (ok <==> RepoHash(env, repo) !in s.locks && osFree && writeOk)
    && (!ok ==> s' == s)
    && (ok ==>
          && s' == s.(runs := s'.runs, locks := s.locks + {RepoHash(env, repo)})
          && id in s'.runs && s'.runs == s.runs[id := s'.runs[id]]
          && (var e := s'.runs[id];
              && e.runId == id && e.planPath == plan && e.repoDir == repo && e.status == Queued && e.startedAt == now
              && e.restartable && e.tmuxSession.None? && e.finishedAt.None? && e.crashRestarts == 0 && e.writeEpoch == 0
              && e.sessionName == session.OrElse(Some("gw-" + id)).value))
  }

  lemma RegisterPromise(env: Env, s: Registry, id: RunId, plan: Path, repo: Path, session: Option<string>, config: Option<Path>,
                        schedule: Option<string>, osFree: bool, writeOk: bool, now: Instant)
    ensures var (s', ok) := Register(env, s, FreshEntry(id, plan, repo, session, config, schedule, now), osFree, writeOk);
      Registers(env, s, s', id, plan, repo, session, osFree, writeOk, now, ok)
  {
  }

  /** `ok` exactly for a queued run whose repository nobody holds, if the write
      works; after a failed write only the entry's times differ. */
  ghost predicate Promotes(env: Env, s: Registry, s': Registry, id: RunId, osFree: bool, writeOk: bool, now: Instant, ok: bool) {
    var free := id in s.runs && s.runs[id].status == Queued && RepoHash(env, s.runs[id].repoDir) !in s.locks && osFree;
    && (ok <==> free && writeOk)
    && (!free ==> s' == s)
    && (free ==>
          && s'.runs == s.runs[id := s.runs[id].(startedAt := now, restartable := true)]
          && s' == s.(runs := s'.runs, locks := if ok then s.locks + {RepoHash(env, s.runs[id].repoDir)} else s.locks))
  }

  lemma PromotePromise(env: Env, s: Registry, id: RunId, osFree: bool, writeOk: bool, now: Instant)
    ensures var (s', ok) := Promote(env, s, id, osFree, writeOk, now); Promotes(env, s, s', id, osFree, writeOk, now, ok)
  {
  }

  // ── Queues ─────────────────────────────────────────────────────────

  /** An active run of the repository of `p` whose plan matches. */
  ghost predicate BlocksPlan(env: Env, s: Registry, p: PendingRun, id: RunId) {
    && ActiveIn(s.runs, id) && RepoHash(env, s.runs[id].repoDir) == RepoHash(env, p.repoDir)
    && PlansMatch(env, s.runs[id].planPath, p.planPath, p.repoDir)
  }

  /** Refused at 50 waiting runs, or because of an active run of the same plan and
      repository; otherwise the run joins the end of its repository's queue, and a
      repository not known before joins the end of the drain order. */
  ghost predicate Enqueues(env: Env, s: Registry, s': Registry, p: PendingRun, outcome: EnqueueOutcome) {
    && (outcome.QueueFull? <==> Total(s.queues) >= 50)
    && (outcome.AlreadyActive? <==> Total(s.queues) < 50 && exists id :: BlocksPlan(env, s, p, id))
    && (!outcome.Enqueued? ==> s' == s)
    && (outcome.Enqueued? ==>
          var k := RepoHash(env, p.repoDir);
          && s' == s.(runs := s'.runs, order := s'.order, queues := s'.queues)
          && QueueOf(s'.queues, k) == QueueOf(s.queues, k) + [p] && outcome.position == |QueueOf(s'.queues, k)|
          && (forall j :: j != k ==> QueueOf(s'.queues, j) == QueueOf(s.queues, j))
          && s.order <= s'.order && k in s'.order
          && |s'.order| == |s.order| + (if k in s.order then 0 else 1)
          && p.runId in s'.runs && s'.runs == s.runs[p.runId := outcome.entry]
          && outcome.entry.status == Queued && outcome.entry.runId == p.runId && outcome.entry.sessionName == "gw-" + p.runId
          && outcome.entry.planPath == p.planPath && outcome.entry.repoDir == p.repoDir && !outcome.entry.restartable)
  }

  lemma EnqueuePromise(env: Env, s: Registry, p: PendingRun)
    ensures var (s', outcome) := Enqueue(env, s, p); Enqueues(env, s, s', p, outcome)
  {
    assert HasActiveDuplicate(env, s, p) <==> exists id :: BlocksPlan(env, s, p, id) by {
      if id :| BlocksPlan(env, s, p, id) {
        assert id in s.runs;
      }
      if id :| id in s.runs && !s.runs[id].status.IsTerminal() && RepoHash(env, s.runs[id].repoDir) == RepoHash(env, p.repoDir)
               && PlansMatch(env, s.runs[id].planPath, p.planPath, p.repoDir) {
        assert BlocksPlan(env, s, p, id);
      }
    }
  }

  /** So a plan is refused while a run of the same directory and the same plan file
      name is active, however the two are written. */
  lemma SameNameIsRefused(env: Env, s: Registry, s': Registry, p: PendingRun, outcome: EnqueueOutcome, id: RunId, at: Path, bt: Path)
    requires Enqueues(env, s, s', p, outcome) && Total(s.queues) < 50
    requires ActiveIn(s.runs, id) && env.canonicalize(s.runs[id].repoDir) == env.canonicalize(p.repoDir)
    requires at == env.canonicalize(if env.isAbsolute(s.runs[id].planPath) then s.runs[id].planPath else env.join(p.repoDir, s.runs[id].planPath))
    requires bt == env.canonicalize(if env.isAbsolute(p.planPath) then p.planPath else env.join(p.repoDir, p.planPath))
    requires env.fileName(at).Some? && env.fileName(at) == env.fileName(bt)
    ensures outcome == AlreadyActive && s' == s
  {
    PlansMatchByName(env, p.repoDir, s.runs[id].planPath, p.planPath, at, bt);
    OneDirectoryOneKey(env, s.runs[id].repoDir, p.repoDir);
    assert BlocksPlan(env, s, p, id);
  }

  /** Runs of repository `k` wait and its breaker is not tripped. */
  predicate CanBeDrained(s: Registry, k: RepoKey) {
    k in s.queues && s.queues[k] != [] && (k in s.failures ==> s.failures[k] < 3)
  }

  /** The head of the queue of `k` left it, and nothing else changed. */
  ghost predicate PopsHead(s: Registry, s': Registry, k: RepoKey, p: PendingRun) {
    k in s.queues && s.queues[k] != [] && p == s.queues[k][0] && s' == s.(queues := s.queues[k := s.queues[k][1..]])
  }

  /** The head of the first queue in drain order that can be drained, if any. */
  ghost predicate DrainsFirst(s: Registry, s': Registry, next: Option<PendingRun>) {
    match next
    case None => s' == s && forall j :: 0 <= j < |s.order| ==> !CanBeDrained(s, s.order[j])
    case Some(p) =>
      exists j :: 0 <= j < |s.order| && CanBeDrained(s, s.order[j]) && PopsHead(s, s', s.order[j], p)
                  && forall l :: 0 <= l < j ==> !CanBeDrained(s, s.order[l])
  }

  lemma {:induction false} FirstReadyPromise(s: Registry, i: nat)
    requires i <= |s.order|
    ensures match FirstReady(s, i)
      case None => forall j :: i <= j < |s.order| ==> !CanBeDrained(s, s.order[j])
      case Some(k) => exists j :: i <= j < |s.order| && s.order[j] == k && CanBeDrained(s, k) && forall l :: i <= l < j ==> !CanBeDrained(s, s.order[l])
    decreases |s.order| - i
  {
    if i < |s.order| && !Ready(s, s.order[i]) {
      FirstReadyPromise(s, i + 1);
    }
  }

  lemma DrainAnyPromise(s: Registry)
    ensures var (s', next) := DrainAny(s); DrainsFirst(s, s', next)
  {
    FirstReadyPromise(s, 0);
  }

  /** A run that waits leaves its queue, where the others keep their places, and is
      stopped; one that does not wait stays as it is. `ok` if all of it was done. */
  ghost predicate Dequeues(env: Env, s: Registry, s': Registry, id: RunId, ok: bool) {
    && (ok <==> id in s.runs && exists k :: id in QueuedIds(s, k))
    && (forall k :: QueuedIds(s', k) == Without(QueuedIds(s, k), {id}))
    && s'.runs.Keys == s.runs.Keys
    && (forall x :: x in s.runs ==> if ok && x == id then s'.runs[x].status == Stopped else s'.runs[x] == s.runs[x])
    && s'.locks == (if ok then s.locks - {RepoHash(env, s.runs[id].repoDir)} else s.locks)
    && s'.order == s.order && s'.failures == s.failures
  }

  lemma RemovedIds(s: Registry, id: RunId, k: RepoKey)
    ensures QueuedIds(RemovePending(s, id), k) == Without(QueuedIds(s, k), {id})
  {
    RetainIsWithout(QueueOf(s.queues, k), OtherThan(id), {id});
  }

  lemma DequeuePromise(env: Env, s: Registry, id: RunId, now: Instant)
    ensures var (s', staged) := Dequeue(env, s, id, now);
      Dequeues(env, s, if staged.Some? then StageQueue(s') else s', id, staged.Some?)
  {
    var (s', staged) := Dequeue(env, s, id, now);
    var left := if staged.Some? then StageQueue(s') else s';
    forall k ensures QueuedIds(left, k) == Without(QueuedIds(s, k), {id}) {
      RemovedIds(s, id, k);
      if !Pending(s, id) {
        assert id !in QueuedIds(s, k);
        WithoutNothing(QueuedIds(s, k), {id});
      } else {
        assert left.queues == RemovePending(s, id).queues;
      }
    }
  }

  // ── Clearing ───────────────────────────────────────────────────────

  /** The request names this run: it has no filter, or its filter is the run's
      repository as written or in canonical form. */
  predicate Names(env: Env, filter: Option<Path>, p: PendingRun) {
    filter == None || filter == Some(p.repoDir) || (filter.Some? && env.canonicalize(filter.value) == p.repoDir)
  }

  ghost predicate LeavesIffNamed(env: Env, s: Registry, s': Registry, filter: Option<Path>, k: RepoKey, p: PendingRun) {
    p in QueueOf(s'.queues, k) <==> p in QueueOf(s.queues, k) && !Names(env, filter, p)
  }

  ghost predicate Left(s: Registry, s': Registry, id: RunId) {
    exists k, p :: p in QueueOf(s.queues, k) && p !in QueueOf(s'.queues, k) && p.runId == id
  }

  /** Exactly the runs named leave the queues, exactly they are in `ids`, and
      exactly they are stopped. */
  ghost predicate Clears(env: Env, s: Registry, s': Registry, filter: Option<Path>, ids: seq<RunId>) {
    && (forall k, p :: LeavesIffNamed(env, s, s', filter, k, p))
    && (forall id :: id in ids <==> Left(s, s', id))
    && s'.runs.Keys == s.runs.Keys
    && (forall id :: id in s.runs ==> if id in ids then s'.runs[id].status == Stopped else s'.runs[id] == s.runs[id])
    && s'.locks == s.locks - KeysOf(env, s.runs, Listed(ids))
    && s'.order == s.order && s'.failures == s.failures
  }

  lemma KeptIsNotNamed(env: Env, filter: Option<Path>, p: PendingRun)
    ensures KeptByClear(env, filter)(p) <==> !Names(env, filter, p)
  {
  }

  lemma KeptMembers(env: Env, filter: Option<Path>, q: seq<PendingRun>)
    ensures forall p :: p in Retain(q, KeptByClear(env, filter)) <==> p in q && !Names(env, filter, p)
  {
    RetainMembers(q, KeptByClear(env, filter));
    forall p ensures KeptByClear(env, filter)(p) <==> !Names(env, filter, p) {
      KeptIsNotNamed(env, filter, p);
    }
  }

  lemma ClearedQueue(env: Env, s: Registry, s': Registry, filter: Option<Path>, k: RepoKey, p: PendingRun)
    requires s'.queues == RetainAll(s.queues, KeptByClear(env, filter))
    ensures LeavesIffNamed(env, s, s', filter, k, p)
  {
    KeptMembers(env, filter, QueueOf(s.queues, k));
  }

  lemma ClearedIds(env: Env, s: Registry, s': Registry, filter: Option<Path>, ids: seq<RunId>, id: RunId)
    requires ListsCleared(env, s, filter, ids) && s'.queues == RetainAll(s.queues, KeptByClear(env, filter))
    ensures id in ids <==> Left(s, s', id)
  {
    if id in ids {
      var k, p :| p in QueueOf(s.queues, k) && p.runId == id && !KeptByClear(env, filter)(p);
      ClearedQueue(env, s, s', filter, k, p);
      KeptIsNotNamed(env, filter, p);
    }
    if Left(s, s', id) {
      var k, p :| p in QueueOf(s.queues, k) && p !in QueueOf(s'.queues, k) && p.runId == id;
      ClearedQueue(env, s, s', filter, k, p);
      KeptIsNotNamed(env, filter, p);
    }
  }

  lemma ClearPromise(env: Env, s: Registry, filter: Option<Path>, ids: seq<RunId>, now: Instant)
    requires ListsCleared(env, s, filter, ids)
    ensures Clears(env, s, StageQueue(Clear(env, s, filter, ids, now).0), filter, ids)
  {
    var left, s' := s.(queues := RetainAll(s.queues, KeptByClear(env, filter))), StageQueue(Clear(env, s, filter, ids, now).0);
    StopEachFrame(env, left, ids, "cleared by user", now);
    StopEachLocks(env, left, ids, "cleared by user", now);
    forall k, p ensures LeavesIffNamed(env, s, s', filter, k, p) {
      ClearedQueue(env, s, s', filter, k, p);
    }
    forall id ensures id in ids <==> Left(s, s', id) {
      ClearedIds(env, s, s', filter, ids, id);
    }
    forall id | id in s.runs ensures if id in ids then s'.runs[id].status == Stopped else s'.runs[id] == s.runs[id] {
      assert StoppedIfListed(left.runs[id], s'.runs[id], id in ids);
    }
  }

  // ── The breaker ────────────────────────────────────────────────────

  /** An earlier failure is counted and nothing else; the third forgets the count,
      empties that one queue and stops exactly its runs. */
  ghost predicate CountsFailure(s: Registry, s': Registry, k: RepoKey) {
    var count := if k in s.failures then s.failures[k] else 0;
    if count < 2 then s' == s.(failures := s.failures[k := count + 1])
    else
      && s' == s.(runs := s'.runs, locks := s'.locks, queues := s'.queues, failures := s.failures - {k})
      && (forall j :: QueueOf(s'.queues, j) == if j == k then [] else QueueOf(s.queues, j))
      && s'.runs.Keys == s.runs.Keys
      && (forall id :: id in s.runs ==> if id in QueuedIds(s, k) then s'.runs[id].status == Stopped else s'.runs[id] == s.runs[id])
  }

  lemma FailurePromise(env: Env, s: Registry, repo: Path, now: Instant)
    ensures CountsFailure(s, RecordFailure(env, s, repo, now).0, RepoHash(env, repo))
  {
    var k := RepoHash(env, repo);
    TripFrame(env, s, k, now);
    var emptied := if k in s.queues then s.queues[k := []] else s.queues;
    StopEachShape(env, s.(queues := emptied), QueuedIds(s, k), "circuit breaker tripped", now);
  }
}

/** The run registry as a value, and each of its operations as a function from
    the old registry to the new one. The class in RunRegistry.dfy is proved
    against these functions. Modelled on src/daemon/registry.rs and
    src/daemon/executor.rs. */
module RegistrySpec {
  import opened Prelude
  import opened RunModel

  const MAX_QUEUE_SIZE := 50
  const MAX_CONSECUTIVE_FAILURES := 3

  datatype Registry = Registry(
    runs: map<RunId, RunEntry>,
    locks: set<RepoKey>,
    queues: map<RepoKey, seq<PendingRun>>,
    order: seq<RepoKey>,
    failures: map<RepoKey, nat>,
    queueEpoch: nat)

  const EMPTY := Registry(map[], {}, map[], [], map[], 0)

  /** The two fields of queue.json. */
  datatype Wire = Wire(queues: map<RepoKey, seq<PendingRun>>, failures: map<RepoKey, nat>)

  function WireOf(s: Registry): Wire {
    Wire(s.queues, s.failures)
  }

  // ── Reading the queues ─────────────────────────────────────────────

  function QueueOf(queues: map<RepoKey, seq<PendingRun>>, k: RepoKey): seq<PendingRun> {
    if k in queues then queues[k] else []
  }

  function FailuresOf(s: Registry, k: RepoKey): nat {
    if k in s.failures then s.failures[k] else 0
  }

  function Ids(q: seq<PendingRun>): seq<RunId> {
    seq(|q|, i requires 0 <= i < |q| => q[i].runId)
  }

  function QueuedIds(s: Registry, k: RepoKey): seq<RunId> {
    Ids(QueueOf(s.queues, k))
  }

  ghost predicate Pending(s: Registry, id: RunId) {
    exists k :: id in QueuedIds(s, k)
  }

  /** Number of pending runs over all repositories. */
  ghost function Total(queues: map<RepoKey, seq<PendingRun>>): nat {
    if queues == map[] then 0
    else
      var k :| k in queues;
      |queues[k]| + Total(queues - {k})
  }

  function Retain(q: seq<PendingRun>, keep: PendingRun -> bool): (r: seq<PendingRun>)
    ensures |r| <= |q|
  {
    if q == [] then []
    else
      var front := Retain(q[..|q| - 1], keep);
      if keep(q[|q| - 1]) then front + [q[|q| - 1]] else front
  }

  function RetainAll(queues: map<RepoKey, seq<PendingRun>>, keep: PendingRun -> bool): map<RepoKey, seq<PendingRun>> {
    map k | k in queues :: Retain(queues[k], keep)
  }

  // ── Status changes ─────────────────────────────────────────────────

  datatype StageOutcome =
    | Staged(entry: RunEntry)
    | RunNotFound
    | InvalidTransition(from: RunStatus, to: RunStatus)

  predicate TransitionAllowed(from: RunStatus, to: RunStatus) {
    && !(from.IsTerminal() && !to.IsTerminal())
    && !(from == Running && to == Queued)
  }

  function StagedEntry(e: RunEntry, status: RunStatus, phase: Option<string>, error: Option<string>, now: Instant): RunEntry {
    e.(status := status,
       writeEpoch := e.writeEpoch + 1,
       currentPhase := phase.OrElse(e.currentPhase),
       errorMessage := error.OrElse(e.errorMessage),
       finishedAt := if status.IsTerminal() then Some(now) else e.finishedAt)
  }

  /** A terminal status frees the lock of the run's repository, whichever run
      holds it. */
  function StageStatus(env: Env, s: Registry, id: RunId, status: RunStatus, phase: Option<string>, error: Option<string>, now: Instant): (Registry, StageOutcome) {
    if id !in s.runs then (s, RunNotFound)
    else
      var e := s.runs[id];
      if !TransitionAllowed(e.status, status) then (s, InvalidTransition(e.status, status))
      else
        var e' := StagedEntry(e, status, phase, error, now);
        var locks' := if status.IsTerminal() then s.locks - {RepoHash(env, e.repoDir)} else s.locks;
        (s.(runs := s.runs[id := e'], locks := locks'), Staged(e'))
  }

  /** Stage `Stopped` for each id in turn, skipping the ones that cannot be staged. */
  function StopEach(env: Env, s: Registry, ids: seq<RunId>, reason: string, now: Instant): (Registry, seq<RunEntry>) {
    if ids == [] then (s, [])
    else
      var (s1, batch) := StopEach(env, s, ids[..|ids| - 1], reason, now);
      var (s2, outcome) := StageStatus(env, s1, ids[|ids| - 1], Stopped, None, Some(reason), now);
      (s2, if outcome.Staged? then batch + [outcome.entry] else batch)
  }

  // ── Repository locks ───────────────────────────────────────────────

  /** `osFree`: no other process holds the lock file. */
  predicate CanAcquire(env: Env, s: Registry, repo: Path, osFree: bool) {
    RepoHash(env, repo) !in s.locks && osFree
  }

  function FreshEntry(id: RunId, plan: Path, repo: Path, session: Option<string>, config: Option<Path>, schedule: Option<string>, now: Instant): RunEntry {
    RunEntry(id, plan, repo, if session.Some? then session.value else SessionFor(id), None, Queued, None,
             now, None, 0, config, None, true, None, schedule, None, 0)
  }

  /** `writeOk`: meta.json could be written. */
  function Register(env: Env, s: Registry, entry: RunEntry, osFree: bool, writeOk: bool): (Registry, bool) {
    if !CanAcquire(env, s, entry.repoDir, osFree) || !writeOk then (s, false)
    else
      (s.(runs := s.runs[entry.runId := entry], locks := s.locks + {RepoHash(env, entry.repoDir)}), true)
  }

  function PromotedEntry(e: RunEntry, now: Instant): RunEntry {
    e.(startedAt := now, restartable := true)
  }

  /** A failed write keeps the entry's new start time in memory but no lock. */
  function Promote(env: Env, s: Registry, id: RunId, osFree: bool, writeOk: bool, now: Instant): (Registry, bool) {
    if id !in s.runs || s.runs[id].status != Queued || !CanAcquire(env, s, s.runs[id].repoDir, osFree) then (s, false)
    else
      var s1 := s.(runs := s.runs[id := PromotedEntry(s.runs[id], now)]);
      if writeOk then (s1.(locks := s.locks + {RepoHash(env, s.runs[id].repoDir)}), true) else (s1, false)
  }

  function AdoptLock(env: Env, s: Registry, repo: Path, osFree: bool): (Registry, bool) {
    var k := RepoHash(env, repo);
    if k in s.locks then (s, true)
    else if osFree then (s.(locks := s.locks + {k}), true)
    else (s, false)
  }

  // ── Queue operations ───────────────────────────────────────────────

  datatype EnqueueOutcome = Enqueued(position: nat, entry: RunEntry) | QueueFull | AlreadyActive

  predicate HasActiveDuplicate(env: Env, s: Registry, p: PendingRun) {
    exists id | id in s.runs ::
      && !s.runs[id].status.IsTerminal()
      && RepoHash(env, s.runs[id].repoDir) == RepoHash(env, p.repoDir)
      && PlansMatch(env, s.runs[id].planPath, p.planPath, p.repoDir)
  }

  function QueuedEntry(p: PendingRun): RunEntry {
    RunEntry(p.runId, p.planPath, p.repoDir, SessionFor(p.runId), None, Queued, None,
             p.queuedAt, None, 0, p.configDir, None, false, None, None, None, 0)
  }

  function Push(s: Registry, k: RepoKey, p: PendingRun): Registry {
    s.(runs := s.runs[p.runId := QueuedEntry(p)],
       order := if k in s.order then s.order else s.order + [k],
       queues := s.queues[k := QueueOf(s.queues, k) + [p]])
  }

  ghost function Enqueue(env: Env, s: Registry, p: PendingRun): (Registry, EnqueueOutcome) {
    if Total(s.queues) >= MAX_QUEUE_SIZE then (s, QueueFull)
    else if HasActiveDuplicate(env, s, p) then (s, AlreadyActive)
    else
      var k := RepoHash(env, p.repoDir);
      (Push(s, k, p), Enqueued(|QueueOf(s.queues, k)| + 1, QueuedEntry(p)))
  }

  function PopFront(s: Registry, k: RepoKey): (Registry, Option<PendingRun>) {
    var q := QueueOf(s.queues, k);
    if q == [] then (s, None) else (s.(queues := s.queues[k := q[1..]]), Some(q[0]))
  }

  function DrainNext(env: Env, s: Registry, repo: Path): (Registry, Option<PendingRun>) {
    var k := RepoHash(env, repo);
    if FailuresOf(s, k) >= MAX_CONSECUTIVE_FAILURES then (s, None) else PopFront(s, k)
  }

  predicate Ready(s: Registry, k: RepoKey) {
    FailuresOf(s, k) < MAX_CONSECUTIVE_FAILURES && QueueOf(s.queues, k) != []
  }

  /** First key of `order` that is ready, from position `i` on. */
  function FirstReady(s: Registry, i: nat): Option<RepoKey>
    requires i <= |s.order|
    decreases |s.order| - i
  {
    if i == |s.order| then None
    else if Ready(s, s.order[i]) then Some(s.order[i])
    else FirstReady(s, i + 1)
  }

  function DrainAny(s: Registry): (Registry, Option<PendingRun>) {
    match FirstReady(s, 0)
    case None => (s, None)
    case Some(k) => PopFront(s, k)
  }

  function OtherThan(id: RunId): PendingRun -> bool {
    (p: PendingRun) => p.runId != id
  }

  function RemovePending(s: Registry, id: RunId): Registry {
    s.(queues := RetainAll(s.queues, OtherThan(id)))
  }

  /** Pops `id` from its queue, then stages `Stopped` for it; the outcome is the
      staged entry, if both worked. */
  ghost function Dequeue(env: Env, s: Registry, id: RunId, now: Instant): (Registry, Option<RunEntry>) {
    if !Pending(s, id) then (s, None)
    else
      var (s1, outcome) := StageStatus(env, RemovePending(s, id), id, Stopped, None, Some("removed from queue"), now);
      (s1, if outcome.Staged? then Some(outcome.entry) else None)
  }

  /** What a clear request keeps: everything when the filter names another
      repository path, nothing without a filter. */
  function KeptByClear(env: Env, filter: Option<Path>): PendingRun -> bool {
    (p: PendingRun) => filter.Some? && p.repoDir != env.canonicalize(filter.value) && p.repoDir != filter.value
  }

  /** `ids` lists the cleared runs; the source visits its queues in no fixed order. */
  function Clear(env: Env, s: Registry, filter: Option<Path>, ids: seq<RunId>, now: Instant): (Registry, seq<RunEntry>) {
    StopEach(env, s.(queues := RetainAll(s.queues, KeptByClear(env, filter))), ids, "cleared by user", now)
  }

  ghost predicate ListsCleared(env: Env, s: Registry, filter: Option<Path>, ids: seq<RunId>) {
    forall id :: id in ids <==> exists k, p :: p in QueueOf(s.queues, k) && p.runId == id && !KeptByClear(env, filter)(p)
  }

  /** A breaker trip: the queue of `k` is emptied and each of its runs stopped. */
  function Trip(env: Env, s: Registry, k: RepoKey, now: Instant): (Registry, seq<RunEntry>) {
    var emptied := if k in s.queues then s.queues[k := []] else s.queues;
    var (s1, batch) := StopEach(env, s.(queues := emptied), QueuedIds(s, k), "circuit breaker tripped", now);
    (s1.(failures := s.failures - {k}), batch)
  }

  function RecordFailure(env: Env, s: Registry, repo: Path, now: Instant): (Registry, seq<RunEntry>) {
    var k := RepoHash(env, repo);
    var count := FailuresOf(s, k) + 1;
    if count >= MAX_CONSECUTIVE_FAILURES then Trip(env, s, k, now)
    else (s.(failures := s.failures[k := count]), [])
  }

  function RecordSuccess(env: Env, s: Registry, repo: Path): Registry {
    s.(failures := s.failures - {RepoHash(env, repo)})
  }

  /** Staging a snapshot only advances the epoch. */
  function StageQueue(s: Registry): Registry {
    s.(queueEpoch := s.queueEpoch + 1)
  }

  /** Loading a wire snapshot into `s`: keys are visited in no fixed order, so
      only the set of keys added to the drain order is determined. */
  ghost predicate Restores(s: Registry, w: Wire, s': Registry) {
    && s' == s.(queues := s.queues + w.queues, failures := w.failures, order := s'.order)
    && s.order <= s'.order
    && (NoDup(s.order) ==> NoDup(s'.order))
    && (forall k :: k in s'.order <==> k in s.order || (k in w.queues && w.queues[k] != []))
  }

  // ── Completions and failed launches ────────────────────────────────

  /** The registry after the breaker has been told, before anything is drained. */
  function AfterCompletion(env: Env, s: Registry, repo: Path, failed: bool, now: Instant): (Registry, seq<RunEntry>) {
    if failed then RecordFailure(env, s, repo, now) else (RecordSuccess(env, s, repo), [])
  }

  /** Own repository first, then the first other one that is ready. */
  function DrainOwnOrAny(env: Env, s: Registry, repo: Path): (Registry, Option<PendingRun>) {
    var (s', own) := DrainNext(env, s, repo);
    if own.Some? then (s', own) else DrainAny(s')
  }

  /** A completed run: tell the breaker, pop, take a snapshot. */
  function Completed(env: Env, s: Registry, repo: Path, failed: bool, now: Instant): (Registry, Option<PendingRun>) {
    var (s', popped) := DrainOwnOrAny(env, AfterCompletion(env, s, repo, failed, now).0, repo);
    (StageQueue(s'), popped)
  }

  /** A drained run that could not be spawned is marked failed, and the breaker told. */
  function Blamed(env: Env, s: Registry, p: PendingRun, reason: string, now: Instant): Registry {
    RecordFailure(env, StageStatus(env, s, p.runId, Failed, None, Some(reason), now).0, p.repoDir, now).0
  }

  /** Then the next run of the same repository is popped, again with one snapshot. */
  function Recovery(env: Env, s: Registry, p: PendingRun, reason: string, now: Instant): (Registry, Option<PendingRun>) {
    var (s', popped) := DrainNext(env, Blamed(env, s, p, reason, now), p.repoDir);
    (StageQueue(s'), popped)
  }
}

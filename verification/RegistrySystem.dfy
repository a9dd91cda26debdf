/** Every way the daemon changes its registry, as atomic actions taken under the
    registry mutex in any order, and the invariant they all keep. Modelled on
    src/daemon/registry.rs, src/daemon/executor.rs and src/daemon/server.rs. */
module RegistrySystem {
  import opened Prelude
  import opened RunModel
  import opened RegistrySpec

  datatype Action =
    | Submit(p: PendingRun)
    | Drain(repo: Path)
    | DrainFirstReady
    | DequeueRun(id: RunId, now: Instant)
    | DropPending(id: RunId)
    | ClearQueue(filter: Option<Path>, ids: seq<RunId>, now: Instant)
    | SpawnFailed(repo: Path, now: Instant)
    | SpawnSucceeded(repo: Path)
    | RegisterRun(entry: RunEntry, osFree: bool, writeOk: bool)
    | PromoteRun(id: RunId, osFree: bool, writeOk: bool, now: Instant)
    | Stage(id: RunId, status: RunStatus, phase: Option<string>, error: Option<string>, now: Instant)
    | Edit(id: RunId, fields: EditedFields)
    | Snapshot

  /** The fields written in place through `get_mut`. */
  datatype EditedFields = EditedFields(
    tmuxSession: Option<string>,
    currentPhase: Option<string>,
    crashRestarts: nat,
    claudePid: Option<nat>,
    scheduleId: Option<string>,
    lastRecoveryAt: Option<Instant>)

  function Fields(e: RunEntry): EditedFields {
    EditedFields(e.tmuxSession, e.currentPhase, e.crashRestarts, e.claudePid, e.scheduleId, e.lastRecoveryAt)
  }

  function EditedEntry(e: RunEntry, f: EditedFields): RunEntry {
    e.(tmuxSession := f.tmuxSession, currentPhase := f.currentPhase, crashRestarts := f.crashRestarts,
       claudePid := f.claudePid, scheduleId := f.scheduleId, lastRecoveryAt := f.lastRecoveryAt)
  }

  function EditRun(s: Registry, id: RunId, f: EditedFields): Registry {
    if id in s.runs then s.(runs := s.runs[id := EditedEntry(s.runs[id], f)]) else s
  }

  ghost function Apply(env: Env, s: Registry, a: Action): Registry {
    match a
    case Submit(p) => Enqueue(env, s, p).0
    case Drain(repo) => DrainNext(env, s, repo).0
    case DrainFirstReady => DrainAny(s).0
    case DequeueRun(id, now) => Dequeue(env, s, id, now).0
    case DropPending(id) => RemovePending(s, id)
    case ClearQueue(filter, ids, now) => Clear(env, s, filter, ids, now).0
    case SpawnFailed(repo, now) => RecordFailure(env, s, repo, now).0
    case SpawnSucceeded(repo) => RecordSuccess(env, s, repo)
    case RegisterRun(entry, osFree, writeOk) => Register(env, s, entry, osFree, writeOk).0
    case PromoteRun(id, osFree, writeOk, now) => Promote(env, s, id, osFree, writeOk, now).0
    case Stage(id, status, phase, error, now) => StageStatus(env, s, id, status, phase, error, now).0
    case Edit(id, fields) => EditRun(s, id, fields)
    case Snapshot => StageQueue(s)
  }

  /** Identifiers come from a random generator and are taken to be new; a
      registered entry is one that `FreshEntry` builds. */
  ghost predicate Enabled(env: Env, s: Registry, a: Action) {
    match a
    case Submit(p) => p.runId !in s.runs && !Pending(s, p.runId)
    case RegisterRun(e, _, _) =>
      && e.runId !in s.runs && !Pending(s, e.runId)
      && e == FreshEntry(e.runId, e.planPath, e.repoDir, Some(e.sessionName), e.configDir, e.scheduleId, e.startedAt)
    case ClearQueue(filter, ids, _) => ListsCleared(env, s, filter, ids)
    case _ => true
  }

  ghost predicate OwnKeys(env: Env, s: Registry) {
    forall k, i :: k in s.queues && 0 <= i < |s.queues[k]| ==> RepoHash(env, s.queues[k][i].repoDir) == k
  }

  ghost predicate UniqueIds(s: Registry) {
    && (forall k :: NoDup(QueuedIds(s, k)))
    && (forall k, k' :: k != k' ==> Disjoint(QueuedIds(s, k), QueuedIds(s, k')))
  }

  ghost predicate Ordered(s: Registry) {
    && NoDup(s.order)
    && (forall k :: QueueOf(s.queues, k) != [] ==> k in s.order)
  }

  ghost predicate Keyed(s: Registry) {
    forall id :: id in s.runs ==> s.runs[id].runId == id
  }

  ghost predicate BreakerBounded(s: Registry) {
    forall k :: k in s.failures ==> 1 <= s.failures[k] < MAX_CONSECUTIVE_FAILURES
  }

  ghost predicate WellFormed(env: Env, s: Registry) {
    && OwnKeys(env, s)
    && UniqueIds(s)
    && Ordered(s)
    && Keyed(s)
    && BreakerBounded(s)
    && Total(s.queues) <= MAX_QUEUE_SIZE
  }

  // ── Totals ─────────────────────────────────────────────────────────

  lemma {:induction false} TotalSplit(queues: map<RepoKey, seq<PendingRun>>, k: RepoKey)
    requires k in queues
    ensures Total(queues) == |queues[k]| + Total(queues - {k})
    decreases |queues|
  {
    var c :| c in queues && Total(queues) == |queues[c]| + Total(queues - {c});
    if c != k {
      TotalSplit(queues - {c}, k);
      TotalSplit(queues - {k}, c);
      assert queues - {c} - {k} == queues - {k} - {c};
    }
  }

  lemma TotalUpdate(queues: map<RepoKey, seq<PendingRun>>, k: RepoKey, q: seq<PendingRun>)
    ensures Total(queues[k := q]) == Total(queues) - |QueueOf(queues, k)| + |q|
  {
    TotalSplit(queues[k := q], k);
    assert queues[k := q] - {k} == queues - {k};
    if k in queues {
      TotalSplit(queues, k);
    } else {
      assert queues - {k} == queues;
    }
  }

  lemma {:induction false} TotalMonotone(a: map<RepoKey, seq<PendingRun>>, b: map<RepoKey, seq<PendingRun>>)
    requires a.Keys == b.Keys
    requires forall k :: k in a ==> |a[k]| <= |b[k]|
    ensures Total(a) <= Total(b)
    decreases |a|
  {
    if a != map[] {
      var k :| k in a;
      TotalSplit(a, k);
      TotalSplit(b, k);
      TotalMonotone(a - {k}, b - {k});
    } else {
      assert b.Keys == {};
    }
  }

  // ── Removal ────────────────────────────────────────────────────────

  /** A predicate decides a queue by identity: it drops exactly the runs in `gone`. */
  ghost predicate DropsExactly(q: seq<PendingRun>, keep: PendingRun -> bool, gone: set<RunId>) {
    forall i :: 0 <= i < |q| ==> (keep(q[i]) <==> q[i].runId !in gone)
  }

  lemma {:induction false} RetainIsWithout(q: seq<PendingRun>, keep: PendingRun -> bool, gone: set<RunId>)
    requires DropsExactly(q, keep, gone)
    ensures Ids(Retain(q, keep)) == Without(Ids(q), gone)
  {
    if q != [] {
      var n := |q| - 1;
      var front := Retain(q[..n], keep);
      RetainIsWithout(q[..n], keep, gone);
      assert Ids(q)[..n] == Ids(q[..n]);
      assert Ids(q)[n] == q[n].runId;
      assert Ids(front + [q[n]]) == Ids(front) + [q[n].runId];
    }
  }

  lemma {:induction false} RetainMembers(q: seq<PendingRun>, keep: PendingRun -> bool)
    ensures forall p :: p in Retain(q, keep) <==> p in q && keep(p)
  {
    if q != [] {
      RetainMembers(q[..|q| - 1], keep);
      assert q == q[..|q| - 1] + [q[|q| - 1]];
    }
  }

  lemma IdsMember(q: seq<PendingRun>, p: PendingRun)
    requires p in q
    ensures p.runId in Ids(q)
  {
    var i :| 0 <= i < |q| && q[i] == p;
    assert Ids(q)[i] == p.runId;
  }

  // ── Stopping a batch of runs ───────────────────────────────────────

  lemma {:induction false} StopEachShape(env: Env, s: Registry, ids: seq<RunId>, reason: string, now: Instant)
    ensures var s' := StopEach(env, s, ids, reason, now).0;
      && s' == s.(runs := s'.runs, locks := s'.locks)
      && s'.runs.Keys == s.runs.Keys
      && s'.locks <= s.locks
  {
    if ids != [] {
      StopEachShape(env, s, ids[..|ids| - 1], reason, now);
    }
  }

  /** What a batch of stops does to one run. */
  ghost predicate StoppedIfListed(e: RunEntry, e': RunEntry, listed: bool) {
    if listed then
      && e' == e.(status := Stopped, writeEpoch := e'.writeEpoch, errorMessage := e'.errorMessage, finishedAt := e'.finishedAt)
      && e'.writeEpoch > e.writeEpoch
    else e' == e
  }

  lemma {:induction false} StopEachRun(env: Env, s: Registry, ids: seq<RunId>, reason: string, now: Instant, id: RunId)
    requires id in s.runs
    ensures var s' := StopEach(env, s, ids, reason, now).0;
      id in s'.runs && StoppedIfListed(s.runs[id], s'.runs[id], id in ids)
  {
    if ids != [] {
      StopEachRun(env, s, ids[..|ids| - 1], reason, now, id);
      assert ids == ids[..|ids| - 1] + [ids[|ids| - 1]];
    }
  }

  /** Stopping touches statuses and locks only. */
  lemma StopEachFrame(env: Env, s: Registry, ids: seq<RunId>, reason: string, now: Instant)
    ensures var s' := StopEach(env, s, ids, reason, now).0;
      && s' == s.(runs := s'.runs, locks := s'.locks)
      && s'.runs.Keys == s.runs.Keys
      && s'.locks <= s.locks
      && (forall id :: id in s.runs ==> StoppedIfListed(s.runs[id], s'.runs[id], id in ids))
  {
    StopEachShape(env, s, ids, reason, now);
    var s' := StopEach(env, s, ids, reason, now).0;
    forall id | id in s.runs ensures StoppedIfListed(s.runs[id], s'.runs[id], id in ids) {
      StopEachRun(env, s, ids, reason, now, id);
    }
  }

  /** The keys of these runs' repositories. */
  ghost function KeysOf(env: Env, runs: map<RunId, RunEntry>, ids: set<RunId>): set<RepoKey> {
    set id | id in ids && id in runs :: RepoHash(env, runs[id].repoDir)
  }

  /** A batch of stops frees the locks of exactly the repositories of its runs. */
  lemma {:induction false} StopEachLocks(env: Env, s: Registry, ids: seq<RunId>, reason: string, now: Instant)
    ensures StopEach(env, s, ids, reason, now).0.locks == s.locks - KeysOf(env, s.runs, Listed(ids))
  {
    if ids != [] {
      var front, last := ids[..|ids| - 1], ids[|ids| - 1];
      StopEachLocks(env, s, front, reason, now);
      StopEachShape(env, s, front, reason, now);
      assert ids == front + [last];
      assert Listed(ids) == Listed(front) + {last};
      if last in s.runs {
        StopEachRun(env, s, front, reason, now, last);
      }
    }
  }

  lemma TripFrame(env: Env, s: Registry, k: RepoKey, now: Instant)
    ensures var s' := Trip(env, s, k, now).0;
      && s'.queues == (if k in s.queues then s.queues[k := []] else s.queues)
      && s'.order == s.order && s'.failures == s.failures - {k} && s'.runs.Keys == s.runs.Keys
      && (forall id :: id in s.runs && id in QueuedIds(s, k) ==> id in s'.runs && s'.runs[id].status == Stopped)
      && (forall id :: id in s.runs && id !in QueuedIds(s, k) ==> id in s'.runs && s'.runs[id] == s.runs[id])
  {
    var emptied := if k in s.queues then s.queues[k := []] else s.queues;
    StopEachFrame(env, s.(queues := emptied), QueuedIds(s, k), "circuit breaker tripped", now);
  }

  // ── The invariant ──────────────────────────────────────────────────

  lemma EmptyWellFormed(env: Env)
    ensures WellFormed(env, EMPTY)
  {
  }

  lemma RetainedQueue(s: Registry, keep: PendingRun -> bool, k: RepoKey)
    requires UniqueIds(s)
    ensures var s' := s.(queues := RetainAll(s.queues, keep));
      && QueuedIds(s', k) == Without(QueuedIds(s, k), GoneFrom(QueueOf(s.queues, k), keep))
      && NoDup(QueuedIds(s', k))
      && (forall x :: x in QueuedIds(s', k) ==> x in QueuedIds(s, k))
      && (forall p :: p in QueueOf(s'.queues, k) <==> p in QueueOf(s.queues, k) && keep(p))
  {
    var q := QueueOf(s.queues, k);
    var gone := GoneFrom(q, keep);
    assert NoDup(QueuedIds(s, k));
    UniqueDropsExactly(q, keep);
    RetainIsWithout(q, keep, gone);
    RetainMembers(q, keep);
    WithoutNoDup(Ids(q), gone);
    WithoutMembers(Ids(q), gone);
  }

  lemma RetainKeepsWellFormed(env: Env, s: Registry, keep: PendingRun -> bool)
    requires WellFormed(env, s)
    ensures WellFormed(env, s.(queues := RetainAll(s.queues, keep)))
  {
    var s' := s.(queues := RetainAll(s.queues, keep));
    TotalMonotone(s'.queues, s.queues);
    assert OwnKeys(env, s') by {
      forall k, i | k in s'.queues && 0 <= i < |s'.queues[k]|
        ensures RepoHash(env, s'.queues[k][i].repoDir) == k
      {
        RetainedQueue(s, keep, k);
        assert s'.queues[k][i] in QueueOf(s'.queues, k);
      }
    }
    forall k ensures NoDup(QueuedIds(s', k)) && forall x :: x in QueuedIds(s', k) ==> x in QueuedIds(s, k) {
      RetainedQueue(s, keep, k);
    }
  }

  ghost function GoneFrom(q: seq<PendingRun>, keep: PendingRun -> bool): set<RunId> {
    set p | p in q && !keep(p) :: p.runId
  }

  lemma UniqueDropsExactly(q: seq<PendingRun>, keep: PendingRun -> bool)
    requires NoDup(Ids(q))
    ensures DropsExactly(q, keep, GoneFrom(q, keep))
  {
    forall i | 0 <= i < |q|
      ensures keep(q[i]) <==> q[i].runId !in GoneFrom(q, keep)
    {
      forall j | 0 <= j < |q| && q[j].runId == q[i].runId ensures j == i {
        assert Ids(q)[i] == Ids(q)[j];
      }
    }
  }

  lemma StopEachKeepsWellFormed(env: Env, s: Registry, ids: seq<RunId>, reason: string, now: Instant)
    requires WellFormed(env, s)
    ensures WellFormed(env, StopEach(env, s, ids, reason, now).0)
  {
    StopEachFrame(env, s, ids, reason, now);
    SameQueuesWellFormed(env, s, StopEach(env, s, ids, reason, now).0);
  }

  /** The invariant looks at queues, order, breaker counts and the keys of `runs` only. */
  lemma SameQueuesWellFormed(env: Env, s: Registry, s': Registry)
    requires WellFormed(env, s)
    requires s'.queues == s.queues && s'.order == s.order && BreakerBounded(s') && Keyed(s')
    ensures WellFormed(env, s')
  {
    assert forall k :: QueuedIds(s', k) == QueuedIds(s, k);
  }

  lemma PopFrontKeepsWellFormed(env: Env, s: Registry, k: RepoKey)
    requires WellFormed(env, s)
    ensures WellFormed(env, PopFront(s, k).0)
  {
    var q := QueueOf(s.queues, k);
    if q != [] {
      var s' := PopFront(s, k).0;
      TotalUpdate(s.queues, k, q[1..]);
      assert QueuedIds(s, k) == [q[0].runId] + QueuedIds(s', k);
      NoDupConcat([q[0].runId], QueuedIds(s', k));
      forall k' | k' != k ensures QueuedIds(s', k') == QueuedIds(s, k') {}
      assert forall k' :: NoDup(QueuedIds(s, k'));
      assert OwnKeys(env, s');
    }
  }

  lemma PushKeepsUnique(env: Env, s: Registry, k: RepoKey, p: PendingRun)
    requires UniqueIds(s) && !Pending(s, p.runId)
    ensures UniqueIds(Push(s, k, p))
  {
    var s' := Push(s, k, p);
    assert QueuedIds(s', k) == QueuedIds(s, k) + [p.runId];
    NoDupConcat(QueuedIds(s, k), [p.runId]);
    forall k' | k' != k ensures QueuedIds(s', k') == QueuedIds(s, k') {}
    assert forall k' :: NoDup(QueuedIds(s, k'));
    forall k1, k2 | k1 != k2 ensures Disjoint(QueuedIds(s', k1), QueuedIds(s', k2)) {
      assert Disjoint(QueuedIds(s, k1), QueuedIds(s, k2));
      assert p.runId !in QueuedIds(s, k1) && p.runId !in QueuedIds(s, k2);
    }
  }

  lemma PushKeepsWellFormed(env: Env, s: Registry, p: PendingRun)
    requires WellFormed(env, s)
    requires p.runId !in s.runs && !Pending(s, p.runId)
    requires Total(s.queues) < MAX_QUEUE_SIZE
    ensures WellFormed(env, Push(s, RepoHash(env, p.repoDir), p))
  {
    var k := RepoHash(env, p.repoDir);
    TotalUpdate(s.queues, k, QueueOf(s.queues, k) + [p]);
    PushKeepsUnique(env, s, k, p);
    NoDupConcat(s.order, [k]);
  }

  lemma TripKeepsWellFormed(env: Env, s: Registry, k: RepoKey, now: Instant)
    requires WellFormed(env, s)
    ensures WellFormed(env, Trip(env, s, k, now).0)
  {
    var emptied := if k in s.queues then s.queues[k := []] else s.queues;
    var s1 := s.(queues := emptied);
    if k in s.queues {
      TotalUpdate(s.queues, k, []);
    }
    assert QueuedIds(s1, k) == [];
    forall k' | k' != k ensures QueuedIds(s1, k') == QueuedIds(s, k') {}
    assert forall k' :: NoDup(QueuedIds(s, k'));
    StopEachKeepsWellFormed(env, s1, QueuedIds(s, k), "circuit breaker tripped", now);
    var s2 := StopEach(env, s1, QueuedIds(s, k), "circuit breaker tripped", now).0;
    StopEachFrame(env, s1, QueuedIds(s, k), "circuit breaker tripped", now);
    SameQueuesWellFormed(env, s2, s2.(failures := s.failures - {k}));
  }

  lemma FailureKeepsWellFormed(env: Env, s: Registry, repo: Path, now: Instant)
    requires WellFormed(env, s)
    ensures WellFormed(env, RecordFailure(env, s, repo, now).0)
  {
    if FailuresOf(s, RepoHash(env, repo)) + 1 >= MAX_CONSECUTIVE_FAILURES {
      TripKeepsWellFormed(env, s, RepoHash(env, repo), now);
    } else {
      SameQueuesWellFormed(env, s, RecordFailure(env, s, repo, now).0);
    }
  }

  lemma DequeueKeepsWellFormed(env: Env, s: Registry, id: RunId, now: Instant)
    requires WellFormed(env, s)
    ensures WellFormed(env, Dequeue(env, s, id, now).0)
  {
    if Pending(s, id) {
      RetainKeepsWellFormed(env, s, OtherThan(id));
      SameQueuesWellFormed(env, RemovePending(s, id), Dequeue(env, s, id, now).0);
    }
  }

  /** Actions that leave the queues alone. */
  predicate LeavesQueues(a: Action) {
    a.SpawnSucceeded? || a.RegisterRun? || a.PromoteRun? || a.Stage? || a.Edit? || a.Snapshot?
  }

  lemma LeavesQueuesFrame(env: Env, s: Registry, a: Action)
    requires LeavesQueues(a)
    ensures Apply(env, s, a).queues == s.queues && Apply(env, s, a).order == s.order
    ensures a.SpawnSucceeded? || Apply(env, s, a).failures == s.failures
  {
  }

  lemma QuietActionKeepsWellFormed(env: Env, s: Registry, a: Action)
    requires WellFormed(env, s) && LeavesQueues(a)
    ensures WellFormed(env, Apply(env, s, a))
  {
    LeavesQueuesFrame(env, s, a);
    var s' := Apply(env, s, a);
    assert BreakerBounded(s');
    SameQueuesWellFormed(env, s, s');
  }

  lemma StepKeepsWellFormed(env: Env, s: Registry, a: Action)
    requires WellFormed(env, s) && Enabled(env, s, a)
    ensures WellFormed(env, Apply(env, s, a))
  {
    if LeavesQueues(a) {
      QuietActionKeepsWellFormed(env, s, a);
    } else {
      match a
      case Submit(p) =>
        if Enqueue(env, s, p).1.Enqueued? { PushKeepsWellFormed(env, s, p); }
      case Drain(repo) => PopFrontKeepsWellFormed(env, s, RepoHash(env, repo));
      case DrainFirstReady =>
        if FirstReady(s, 0).Some? { PopFrontKeepsWellFormed(env, s, FirstReady(s, 0).value); }
      case DequeueRun(id, now) => DequeueKeepsWellFormed(env, s, id, now);
      case DropPending(id) => RetainKeepsWellFormed(env, s, OtherThan(id));
      case ClearQueue(filter, ids, now) =>
        RetainKeepsWellFormed(env, s, KeptByClear(env, filter));
        StopEachKeepsWellFormed(env, s.(queues := RetainAll(s.queues, KeptByClear(env, filter))), ids, "cleared by user", now);
      case SpawnFailed(repo, now) => FailureKeepsWellFormed(env, s, repo, now);
      case _ =>
    }
  }

  // ── Runs ───────────────────────────────────────────────────────────

  /** `states` is an execution: each state follows from the one before by an enabled action. */
  ghost predicate Execution(env: Env, states: seq<Registry>, actions: seq<Action>) {
    && |states| == |actions| + 1
    && (forall i :: 0 <= i < |actions| ==> Enabled(env, states[i], actions[i]) && states[i + 1] == Apply(env, states[i], actions[i]))
  }

  lemma {:induction false} ExecutionWellFormed(env: Env, states: seq<Registry>, actions: seq<Action>, i: nat)
    requires Execution(env, states, actions) && WellFormed(env, states[0])
    requires i < |states|
    ensures WellFormed(env, states[i])
  {
    if i > 0 {
      ExecutionWellFormed(env, states, actions, i - 1);
      StepKeepsWellFormed(env, states[i - 1], actions[i - 1]);
    }
  }
}

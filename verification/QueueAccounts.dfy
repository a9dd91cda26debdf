/** The account of submitted runs that one step of the daemon keeps: a log of what
    was submitted, handed out and removed, balanced against the queues, and of
    the failures the breaker counts. Modelled on src/daemon/registry.rs. */
module QueueAccounts {
  import opened Prelude
  import opened RunModel
  import opened RegistrySpec
  import opened RegistrySystem

  /** A restart reloads the snapshot of the current queues into an empty
      registry. The run entries it finds on disk are arbitrary. */
  datatype Event = Act(a: Action) | Restart(next: Registry)

  /** A log of the past that the daemon does not keep. */
  datatype History = History(
    enqueued: map<RepoKey, seq<RunId>>,
    handedOut: map<RepoKey, seq<RunId>>,
    removed: set<RunId>,
    failedSince: map<RepoKey, nat>)

  const NO_HISTORY := History(map[], map[], {}, map[])

  function Log(m: map<RepoKey, seq<RunId>>, k: RepoKey): seq<RunId> {
    if k in m then m[k] else []
  }

  function Append(m: map<RepoKey, seq<RunId>>, k: RepoKey, id: RunId): map<RepoKey, seq<RunId>> {
    m[k := Log(m, k) + [id]]
  }

  /** Spawn failures of repository `k` since its last success. */
  function FailedSince(h: History, k: RepoKey): nat {
    if k in h.failedSince then h.failedSince[k] else 0
  }

  ghost function PendingSet(s: Registry): set<RunId> {
    set k, p | k in s.queues && p in s.queues[k] :: p.runId
  }

  ghost predicate CanHappen(env: Env, s: Registry, h: History, e: Event) {
    match e
    case Act(a) =>
      && Enabled(env, s, a)
      && (a.Submit? ==> forall k :: a.p.runId !in Log(h.enqueued, k))
    case Restart(next) =>
      && Keyed(next)
      && Restores(EMPTY.(runs := next.runs), WireOf(s), next)
  }

  ghost function After(env: Env, s: Registry, e: Event): Registry {
    match e
    case Act(a) => Apply(env, s, a)
    case Restart(next) => next
  }

  ghost function HandOut(env: Env, h: History, popped: Option<PendingRun>): History {
    match popped
    case None => h
    case Some(p) => h.(handedOut := Append(h.handedOut, RepoHash(env, p.repoDir), p.runId))
  }

  ghost function Record(env: Env, s: Registry, h: History, e: Event): History {
    match e
    case Restart(_) => h
    case Act(a) =>
      match a
      case Submit(p) =>
        if Enqueue(env, s, p).1.Enqueued? then h.(enqueued := Append(h.enqueued, RepoHash(env, p.repoDir), p.runId)) else h
      case Drain(repo) => HandOut(env, h, DrainNext(env, s, repo).1)
      case DrainFirstReady => HandOut(env, h, DrainAny(s).1)
      case SpawnFailed(repo, _) =>
        var k := RepoHash(env, repo);
        h.(removed := h.removed + (PendingSet(s) - PendingSet(Apply(env, s, a))), failedSince := h.failedSince[k := FailedSince(h, k) + 1])
      case SpawnSucceeded(repo) => h.(failedSince := h.failedSince[RepoHash(env, repo) := 0])
      case _ => h.(removed := h.removed + (PendingSet(s) - PendingSet(Apply(env, s, a))))
  }

  // ── The account ────────────────────────────────────────────────────

  /** Per repository, in submission order: what was submitted and not removed is
      what was handed out followed by what still waits. */
  ghost predicate Balanced(s: Registry, h: History, k: RepoKey) {
    Without(Log(h.enqueued, k), h.removed) == Log(h.handedOut, k) + QueuedIds(s, k)
  }

  ghost predicate Accounts(s: Registry, h: History) {
    && (forall k :: Balanced(s, h, k))
    && (forall k :: NoDup(Log(h.enqueued, k)))
    && (forall k, k' :: k != k' ==> Disjoint(Log(h.enqueued, k), Log(h.enqueued, k')))
    && (forall id :: id in h.removed ==> exists k :: id in Log(h.enqueued, k))
  }

  ghost predicate BreakerAccounts(s: Registry, h: History) {
    forall k :: CountAgrees(s, h, k)
  }

  lemma WaitingWasSubmitted(s: Registry, h: History, k: RepoKey)
    requires Accounts(s, h)
    ensures forall id :: id in QueuedIds(s, k) ==> id in Log(h.enqueued, k) && id !in h.removed
    ensures forall id :: id in Log(h.handedOut, k) ==> id in Log(h.enqueued, k) && id !in h.removed
    ensures forall id :: id in Log(h.enqueued, k) ==> id in h.removed || id in Log(h.handedOut, k) || id in QueuedIds(s, k)
    ensures NoDup(Log(h.handedOut, k) + QueuedIds(s, k))
  {
    WithoutMembers(Log(h.enqueued, k), h.removed);
    WithoutNoDup(Log(h.enqueued, k), h.removed);
    assert Balanced(s, h, k);
  }

  lemma {:induction false} WithoutAgree<T>(s: seq<T>, a: set<T>, b: set<T>)
    requires forall x :: x in s ==> (x in a <==> x in b)
    ensures Without(s, a) == Without(s, b)
  {
    if s != [] {
      WithoutAgree(s[..|s| - 1], a, b);
    }
  }

  lemma {:induction false} WithoutEverything<T>(s: seq<T>, gone: set<T>)
    requires forall x :: x in s ==> x in gone
    ensures Without(s, gone) == []
  {
    if s != [] {
      WithoutEverything(s[..|s| - 1], gone);
    }
  }

  lemma PendingSetIsQueued(s: Registry, id: RunId)
    ensures id in PendingSet(s) <==> exists k :: id in QueuedIds(s, k)
  {
    if id in PendingSet(s) {
      var k, p :| k in s.queues && p in s.queues[k] && p.runId == id;
      IdsMember(s.queues[k], p);
      assert id in QueuedIds(s, k);
    }
    if k :| id in QueuedIds(s, k) {
      var i :| 0 <= i < |QueuedIds(s, k)| && QueuedIds(s, k)[i] == id;
      assert s.queues[k][i] in s.queues[k];
    }
  }

  /** Some runs left their queues, the others kept their order. */
  ghost predicate OnlyRemoves(s: Registry, s': Registry) {
    forall k :: QueuedIds(s', k) == Without(QueuedIds(s, k), PendingSet(s) - PendingSet(s'))
  }

  lemma RetainOnlyRemoves(env: Env, s: Registry, keep: PendingRun -> bool, s': Registry)
    requires WellFormed(env, s)
    requires s'.queues == RetainAll(s.queues, keep)
    ensures OnlyRemoves(s, s')
  {
    var dropped := PendingSet(s) - PendingSet(s');
    forall k
      ensures QueuedIds(s', k) == Without(QueuedIds(s, k), dropped)
    {
      var gone := GoneFrom(QueueOf(s.queues, k), keep);
      RetainedQueue(s, keep, k);
      WithoutMembers(QueuedIds(s, k), gone);
      forall x | x in QueuedIds(s, k)
        ensures x in gone <==> x in dropped
      {
        PendingSetIsQueued(s, x);
        PendingSetIsQueued(s', x);
        forall k' ensures x in QueuedIds(s', k') ==> x in QueuedIds(s, k') {
          RetainedQueue(s, keep, k');
        }
        assert QueuedIds(s', k) == Without(QueuedIds(s, k), gone);
        assert forall k' :: x in QueuedIds(s', k') ==> k' == k;
      }
      WithoutAgree(QueuedIds(s, k), gone, dropped);
    }
  }

  lemma NothingRemoved(s: Registry, s': Registry)
    requires s'.queues == s.queues
    ensures OnlyRemoves(s, s')
  {
    assert PendingSet(s) - PendingSet(s') == {};
    forall k ensures QueuedIds(s', k) == Without(QueuedIds(s, k), {}) {
      WithoutNothing(QueuedIds(s, k), {});
    }
  }

  lemma TripOnlyRemoves(env: Env, s: Registry, k: RepoKey, s': Registry)
    requires WellFormed(env, s)
    requires s'.queues == if k in s.queues then s.queues[k := []] else s.queues
    ensures OnlyRemoves(s, s')
  {
    var dropped := PendingSet(s) - PendingSet(s');
    forall k'
      ensures QueuedIds(s', k') == Without(QueuedIds(s, k'), dropped)
    {
      forall x | x in QueuedIds(s, k')
        ensures x in dropped <==> k' == k
      {
        PendingSetIsQueued(s, x);
        PendingSetIsQueued(s', x);
        assert k' != k ==> x in QueuedIds(s', k');
        assert forall j :: x in QueuedIds(s, j) ==> j == k';
        assert forall j :: x in QueuedIds(s', j) ==> j != k && x in QueuedIds(s, j);
      }
      if k' == k {
        WithoutEverything(QueuedIds(s, k'), dropped);
      } else {
        WithoutNothing(QueuedIds(s, k'), dropped);
      }
    }
  }

  lemma RemovalKeepsAccounts(env: Env, s: Registry, s': Registry, h: History)
    requires WellFormed(env, s) && Accounts(s, h)
    requires OnlyRemoves(s, s')
    ensures Accounts(s', h.(removed := h.removed + (PendingSet(s) - PendingSet(s'))))
  {
    var dropped := PendingSet(s) - PendingSet(s');
    var h' := h.(removed := h.removed + dropped);
    forall k
      ensures Balanced(s', h', k)
    {
      var enqueued, handed, queued := Log(h.enqueued, k), Log(h.handedOut, k), QueuedIds(s, k);
      assert Balanced(s, h, k);
      WithoutTwice(enqueued, h.removed, dropped);
      WithoutConcat(handed, queued, dropped);
      HandedOutIsNotWaiting(s, h, k);
      WithoutNothing(handed, dropped);
    }
    forall id | id in dropped
      ensures exists k :: id in Log(h.enqueued, k)
    {
      PendingSetIsQueued(s, id);
      var k :| id in QueuedIds(s, k);
      WaitingWasSubmitted(s, h, k);
    }
  }

  lemma HandedOutIsNotWaiting(s: Registry, h: History, k: RepoKey)
    requires Accounts(s, h)
    ensures forall id :: id in Log(h.handedOut, k) ==> id !in PendingSet(s)
  {
    forall id, k' | id in Log(h.handedOut, k)
      ensures id !in QueuedIds(s, k')
    {
      WaitingWasSubmitted(s, h, k);
      WaitingWasSubmitted(s, h, k');
      NoDupConcat(Log(h.handedOut, k), QueuedIds(s, k));
      assert k != k' ==> Disjoint(Log(h.enqueued, k), Log(h.enqueued, k'));
    }
    forall id | id in Log(h.handedOut, k) ensures id !in PendingSet(s) {
      PendingSetIsQueued(s, id);
    }
  }

  lemma SubmitKeepsBalance(s: Registry, h: History, k: RepoKey, p: PendingRun)
    requires Balanced(s, h, k) && p.runId !in h.removed
    ensures Balanced(Push(s, k, p), h.(enqueued := Append(h.enqueued, k, p.runId)), k)
  {
  }

  lemma SubmitKeepsOthers(s: Registry, h: History, k: RepoKey, p: PendingRun, k': RepoKey)
    requires Balanced(s, h, k') && k' != k
    ensures Balanced(Push(s, k, p), h.(enqueued := Append(h.enqueued, k, p.runId)), k')
  {
  }

  /** A submission of a new run extends one log of an account that stays in order. */
  lemma SubmitKeepsLogs(h: History, k: RepoKey, id: RunId, h': History)
    requires forall k' :: NoDup(Log(h.enqueued, k'))
    requires forall k', k'' :: k' != k'' ==> Disjoint(Log(h.enqueued, k'), Log(h.enqueued, k''))
    requires forall k' :: id !in Log(h.enqueued, k')
    requires h' == h.(enqueued := Append(h.enqueued, k, id))
    ensures forall k' :: NoDup(Log(h'.enqueued, k'))
    ensures forall k', k'' :: k' != k'' ==> Disjoint(Log(h'.enqueued, k'), Log(h'.enqueued, k''))
    ensures forall k', x :: x in Log(h.enqueued, k') ==> x in Log(h'.enqueued, k')
  {
    NoDupConcat(Log(h.enqueued, k), [id]);
    assert forall k' :: k' != k ==> Log(h'.enqueued, k') == Log(h.enqueued, k');
    assert forall x :: x in Log(h'.enqueued, k) <==> x in Log(h.enqueued, k) || x == id;
  }

  lemma SubmitKeepsAccounts(s: Registry, h: History, k: RepoKey, p: PendingRun)
    requires Accounts(s, h)
    requires forall k' :: p.runId !in Log(h.enqueued, k')
    ensures Accounts(Push(s, k, p), h.(enqueued := Append(h.enqueued, k, p.runId)))
  {
    var h' := h.(enqueued := Append(h.enqueued, k, p.runId));
    SubmitKeepsLogs(h, k, p.runId, h');
    forall k' ensures Balanced(Push(s, k, p), h', k') {
      assert Balanced(s, h, k');
      if k' == k { SubmitKeepsBalance(s, h, k, p); } else { SubmitKeepsOthers(s, h, k, p, k'); }
    }
    forall x | x in h'.removed ensures exists k' :: x in Log(h'.enqueued, k') {
      var k' :| x in Log(h.enqueued, k');
      assert x in Log(h'.enqueued, k');
    }
  }

  lemma PopKeepsAccounts(env: Env, s: Registry, h: History, k: RepoKey)
    requires WellFormed(env, s) && Accounts(s, h)
    ensures Accounts(PopFront(s, k).0, HandOut(env, h, PopFront(s, k).1))
  {
    var q := QueueOf(s.queues, k);
    if q != [] {
      var s', h' := PopFront(s, k).0, HandOut(env, h, PopFront(s, k).1);
      assert s.queues[k][0] == q[0] && RepoHash(env, q[0].repoDir) == k;
      assert QueuedIds(s, k) == [q[0].runId] + QueuedIds(s', k);
      assert Log(h'.handedOut, k) + QueuedIds(s', k) == Log(h.handedOut, k) + QueuedIds(s, k);
      forall k' ensures Balanced(s', h', k') {
        assert Balanced(s, h, k');
        assert k' != k ==> QueuedIds(s', k') == QueuedIds(s, k') && Log(h'.handedOut, k') == Log(h.handedOut, k');
      }
    }
  }

  lemma SameQueuesAccounts(s: Registry, s': Registry, h: History, h': History)
    requires Accounts(s, h)
    requires forall k :: QueuedIds(s', k) == QueuedIds(s, k)
    requires h' == h.(failedSince := h'.failedSince)
    ensures Accounts(s', h')
  {
    forall k ensures Balanced(s', h', k) {
      assert Balanced(s, h, k);
    }
  }

  predicate Removes(a: Action) {
    a.DequeueRun? || a.DropPending? || a.ClearQueue? || a.SpawnFailed?
  }

  lemma FailureOnlyRemoves(env: Env, s: Registry, repo: Path, now: Instant)
    requires WellFormed(env, s)
    ensures OnlyRemoves(s, RecordFailure(env, s, repo, now).0)
  {
    var k := RepoHash(env, repo);
    var s' := RecordFailure(env, s, repo, now).0;
    if FailuresOf(s, k) + 1 >= MAX_CONSECUTIVE_FAILURES {
      TripFrame(env, s, k, now);
      TripOnlyRemoves(env, s, k, s');
    } else {
      NothingRemoved(s, s');
    }
  }

  lemma DequeueOnlyRemoves(env: Env, s: Registry, id: RunId, now: Instant)
    requires WellFormed(env, s)
    ensures OnlyRemoves(s, Dequeue(env, s, id, now).0)
  {
    var s' := Dequeue(env, s, id, now).0;
    if Pending(s, id) { RetainOnlyRemoves(env, s, OtherThan(id), s'); } else { NothingRemoved(s, s'); }
  }

  lemma ClearOnlyRemoves(env: Env, s: Registry, filter: Option<Path>, ids: seq<RunId>, now: Instant)
    requires WellFormed(env, s)
    ensures OnlyRemoves(s, Clear(env, s, filter, ids, now).0)
  {
    StopEachShape(env, s.(queues := RetainAll(s.queues, KeptByClear(env, filter))), ids, "cleared by user", now);
    RetainOnlyRemoves(env, s, KeptByClear(env, filter), Clear(env, s, filter, ids, now).0);
  }

  lemma ActionOnlyRemoves(env: Env, s: Registry, a: Action)
    requires WellFormed(env, s) && Removes(a)
    ensures OnlyRemoves(s, Apply(env, s, a))
  {
    match a
    case DequeueRun(id, now) => DequeueOnlyRemoves(env, s, id, now);
    case DropPending(id) => RetainOnlyRemoves(env, s, OtherThan(id), Apply(env, s, a));
    case ClearQueue(filter, ids, now) => ClearOnlyRemoves(env, s, filter, ids, now);
    case SpawnFailed(repo, now) => FailureOnlyRemoves(env, s, repo, now);
  }

  lemma RestartAccounts(env: Env, s: Registry, h: History, next: Registry)
    requires WellFormed(env, s) && Accounts(s, h) && BreakerAccounts(s, h)
    requires Keyed(next) && Restores(EMPTY.(runs := next.runs), WireOf(s), next)
    ensures WellFormed(env, next) && Accounts(next, h) && BreakerAccounts(next, h)
  {
    assert next.queues == s.queues;
    assert forall k :: QueuedIds(next, k) == QueuedIds(s, k);
    SameQueuesAccounts(s, next, h, h);
    forall k ensures CountAgrees(next, h, k) {
      assert CountAgrees(s, h, k);
    }
  }

  lemma RemovingStepKeepsAccounts(env: Env, s: Registry, h: History, a: Action)
    requires WellFormed(env, s) && Accounts(s, h) && Removes(a)
    ensures Accounts(Apply(env, s, a), Record(env, s, h, Act(a)))
  {
    var s' := Apply(env, s, a);
    ActionOnlyRemoves(env, s, a);
    RemovalKeepsAccounts(env, s, s', h);
    var h1 := h.(removed := h.removed + (PendingSet(s) - PendingSet(s')));
    SameQueuesAccounts(s', s', h1, Record(env, s, h, Act(a)));
  }

  lemma QuietStepKeepsAccounts(env: Env, s: Registry, h: History, a: Action)
    requires Accounts(s, h) && LeavesQueues(a)
    ensures Accounts(Apply(env, s, a), Record(env, s, h, Act(a)))
  {
    var s' := Apply(env, s, a);
    LeavesQueuesFrame(env, s, a);
    assert PendingSet(s) - PendingSet(s') == {};
    assert h.removed + {} == h.removed;
    forall k ensures QueuedIds(s', k) == QueuedIds(s, k) {}
    SameQueuesAccounts(s, s', h, Record(env, s, h, Act(a)));
  }

  lemma StepKeepsAccounts(env: Env, s: Registry, h: History, e: Event)
    requires WellFormed(env, s) && Accounts(s, h) && BreakerAccounts(s, h)
    requires CanHappen(env, s, h, e)
    ensures WellFormed(env, After(env, s, e))
    ensures Accounts(After(env, s, e), Record(env, s, h, e))
  {
    match e
    case Restart(next) => RestartAccounts(env, s, h, next);
    case Act(a) =>
      StepKeepsWellFormed(env, s, a);
      if LeavesQueues(a) {
        QuietStepKeepsAccounts(env, s, h, a);
      } else if Removes(a) {
        RemovingStepKeepsAccounts(env, s, h, a);
      } else {
        match a
        case Submit(p) =>
          if Enqueue(env, s, p).1.Enqueued? { SubmitKeepsAccounts(s, h, RepoHash(env, p.repoDir), p); }
        case Drain(repo) => PopKeepsAccounts(env, s, h, RepoHash(env, repo));
        case DrainFirstReady => if FirstReady(s, 0).Some? { PopKeepsAccounts(env, s, h, FirstReady(s, 0).value); }
        case _ =>
      }
  }

  lemma FailuresUntouched(env: Env, s: Registry, a: Action)
    requires !a.SpawnFailed? && !a.SpawnSucceeded?
    ensures Apply(env, s, a).failures == s.failures
  {
    if a.ClearQueue? {
      StopEachShape(env, s.(queues := RetainAll(s.queues, KeptByClear(env, a.filter))), a.ids, "cleared by user", a.now);
    }
  }

  ghost predicate CountAgrees(s: Registry, h: History, k: RepoKey) {
    FailuresOf(s, k) == FailedSince(h, k) % MAX_CONSECUTIVE_FAILURES
  }

  lemma RecordedFailures(env: Env, s: Registry, h: History, e: Event, k: RepoKey)
    ensures FailedSince(Record(env, s, h, e), k) ==
      if e.Act? && e.a.SpawnFailed? && RepoHash(env, e.a.repo) == k then FailedSince(h, k) + 1
      else if e.Act? && e.a.SpawnSucceeded? && RepoHash(env, e.a.repo) == k then 0
      else FailedSince(h, k)
  {
  }

  lemma NextModulo(n: nat)
    ensures (n + 1) % MAX_CONSECUTIVE_FAILURES ==
      if n % MAX_CONSECUTIVE_FAILURES + 1 >= MAX_CONSECUTIVE_FAILURES then 0 else n % MAX_CONSECUTIVE_FAILURES + 1
  {
  }

  lemma StepKeepsCount(env: Env, s: Registry, h: History, e: Event, k: RepoKey)
    requires CountAgrees(s, h, k) && CanHappen(env, s, h, e)
    ensures CountAgrees(After(env, s, e), Record(env, s, h, e), k)
  {
    RecordedFailures(env, s, h, e, k);
    if e.Act? {
      if e.a.SpawnFailed? {
        NextModulo(FailedSince(h, k));
      } else if !e.a.SpawnSucceeded? {
        FailuresUntouched(env, s, e.a);
      }
    }
  }

  lemma StepKeepsBreakerAccounts(env: Env, s: Registry, h: History, e: Event)
    requires BreakerAccounts(s, h) && CanHappen(env, s, h, e)
    ensures BreakerAccounts(After(env, s, e), Record(env, s, h, e))
  {
    forall k ensures CountAgrees(After(env, s, e), Record(env, s, h, e), k) {
      assert CountAgrees(s, h, k);
      StepKeepsCount(env, s, h, e, k);
    }
  }
}

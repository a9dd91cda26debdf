/** In which order repositories are drained: by their first accepted submission,
    as long as the daemon is not restarted. Modelled on src/daemon/registry.rs. */
module DrainOrder {
  import opened Prelude
  import opened RunModel
  import opened RegistrySpec
  import opened RegistrySystem
  import opened RegistryMeaning
  import opened QueueAccounts
  import opened QueueHistory

  /** Event `m` submits a run of repository `k`, and the run waits after it. */
  ghost predicate AcceptedAt(env: Env, states: seq<Registry>, events: seq<Event>, k: RepoKey, m: nat) {
    && m < |events| && m + 1 < |states| && events[m].Act? && events[m].a.Submit?
    && RepoHash(env, events[m].a.p.repoDir) == k && events[m].a.p.runId in QueuedIds(states[m + 1], k)
  }

  ghost predicate FirstAt(env: Env, states: seq<Registry>, events: seq<Event>, k: RepoKey, m: nat) {
    AcceptedAt(env, states, events, k, m) && forall l: nat :: l < m ==> !AcceptedAt(env, states, events, k, l)
  }

  ghost predicate NoRestart(events: seq<Event>, i: nat) {
    forall m: nat :: m < i && m < |events| ==> events[m].Act?
  }

  ghost predicate Known(env: Env, states: seq<Registry>, events: seq<Event>, k: RepoKey, i: nat) {
    exists m: nat :: m < i && FirstAt(env, states, events, k, m)
  }

  /** `order` holds the repositories with an accepted submission among the first
      `i` events, the earlier ones first. */
  ghost predicate ByFirstSubmission(env: Env, states: seq<Registry>, events: seq<Event>, order: seq<RepoKey>, i: nat) {
    && NoDup(order)
    && (forall k :: k in order <==> Known(env, states, events, k, i))
    && (forall a, b :: 0 <= a < b < |order| ==> CameBefore(env, states, events, order[a], order[b]))
  }

  ghost predicate CameBefore(env: Env, states: seq<Registry>, events: seq<Event>, k: RepoKey, k': RepoKey) {
    forall m: nat, l: nat :: FirstAt(env, states, events, k, m) && FirstAt(env, states, events, k', l) ==> m < l
  }

  // ── One event ──────────────────────────────────────────────────────

  lemma OtherActionsKeepOrder(env: Env, s: Registry, a: Action)
    requires !a.Submit?
    ensures Apply(env, s, a).order == s.order
  {
    match a
    case ClearQueue(filter, ids, now) =>
      StopEachShape(env, s.(queues := RetainAll(s.queues, KeptByClear(env, filter))), ids, "cleared by user", now);
    case SpawnFailed(repo, now) =>
      var k := RepoHash(env, repo);
      StopEachShape(env, s.(queues := if k in s.queues then s.queues[k := []] else s.queues), QueuedIds(s, k), "circuit breaker tripped", now);
    case _ =>
  }

  /** A submission is accepted exactly when its run waits afterwards, and then its
      repository stands at the end of the drain order unless it stood there before. */
  lemma SubmissionOrder(env: Env, s: Registry, s': Registry, p: PendingRun, outcome: EnqueueOutcome)
    requires Enqueues(env, s, s', p, outcome) && !Pending(s, p.runId)
    ensures var k := RepoHash(env, p.repoDir); var accepted := p.runId in QueuedIds(s', k);
      s'.order == if accepted && k !in s.order then s.order + [k] else s.order
  {
    var k := RepoHash(env, p.repoDir);
    if outcome.Enqueued? {
      assert QueuedIds(s', k)[|QueueOf(s.queues, k)|] == p.runId;
      if k !in s.order {
        assert s'.order[|s.order|] == k;
        assert s'.order == s.order + [k];
      }
    } else {
      assert p.runId !in QueuedIds(s, k);
    }
  }

  lemma EventOrder(env: Env, states: seq<Registry>, pasts: seq<History>, events: seq<Event>, m: nat)
    requires QueueHistory.Execution(env, states, pasts, events) && m < |events| && events[m].Act?
    ensures exists k :: OrderGrows(env, states, events, m, k)
  {
    var a, s := events[m].a, states[m];
    assert CanHappen(env, s, pasts[m], events[m]) && states[m + 1] == Apply(env, s, a);
    if a.Submit? {
      EnqueuePromise(env, s, a.p);
      SubmissionOrder(env, s, states[m + 1], a.p, Enqueue(env, s, a.p).1);
      assert OrderGrows(env, states, events, m, RepoHash(env, a.p.repoDir));
    } else {
      OtherActionsKeepOrder(env, s, a);
      assert OrderGrows(env, states, events, m, "");
    }
  }

  /** Event `m` accepts a submission for `k`, or for no repository at all. */
  ghost predicate OrderGrows(env: Env, states: seq<Registry>, events: seq<Event>, m: nat, k: RepoKey)
    requires m + 1 < |states|
  {
    && (forall j :: AcceptedAt(env, states, events, j, m) ==> j == k)
    && states[m + 1].order == (if AcceptedAt(env, states, events, k, m) && k !in states[m].order then states[m].order + [k] else states[m].order)
  }

  // ── Whole executions ───────────────────────────────────────────────

  lemma {:induction false} SomeFirst(env: Env, states: seq<Registry>, events: seq<Event>, k: RepoKey, m: nat, i: nat)
    requires m < i && AcceptedAt(env, states, events, k, m)
    ensures Known(env, states, events, k, i)
    decreases m
  {
    if l: nat :| l < m && AcceptedAt(env, states, events, k, l) {
      SomeFirst(env, states, events, k, l, i);
    } else {
      assert FirstAt(env, states, events, k, m);
    }
  }

  lemma NewIsFirst(env: Env, states: seq<Registry>, events: seq<Event>, i: nat, k: RepoKey)
    requires AcceptedAt(env, states, events, k, i) && !Known(env, states, events, k, i)
    ensures FirstAt(env, states, events, k, i)
  {
    if l: nat :| l < i && AcceptedAt(env, states, events, k, l) {
      SomeFirst(env, states, events, k, l, i);
      assert false;
    }
  }

  lemma KnownAfter(env: Env, states: seq<Registry>, events: seq<Event>, i: nat, n: nat, j: RepoKey)
    requires n == i + 1
    ensures Known(env, states, events, j, n) <==> Known(env, states, events, j, i) || FirstAt(env, states, events, j, i)
  {
    if Known(env, states, events, j, n) {
      var m: nat :| m < n && FirstAt(env, states, events, j, m);
      assert m < i ==> Known(env, states, events, j, i);
    }
    if Known(env, states, events, j, i) {
      var m: nat :| m < i && FirstAt(env, states, events, j, m);
      assert m < n;
    }
  }

  lemma NewComesLast(env: Env, states: seq<Registry>, events: seq<Event>, i: nat, j: RepoKey, k: RepoKey)
    requires Known(env, states, events, j, i) && FirstAt(env, states, events, k, i)
    ensures CameBefore(env, states, events, j, k)
  {
    var f: nat :| f < i && FirstAt(env, states, events, j, f);
    forall m: nat, l: nat | FirstAt(env, states, events, j, m) && FirstAt(env, states, events, k, l) ensures m < l {
      assert m == f && l == i;
    }
  }

  lemma OneMoreSorted(env: Env, states: seq<Registry>, events: seq<Event>, i: nat, n: nat, k: RepoKey, order: seq<RepoKey>, order': seq<RepoKey>)
    requires n == i + 1 && ByFirstSubmission(env, states, events, order, i)
    requires forall j :: AcceptedAt(env, states, events, j, i) ==> j == k
    requires order' == if AcceptedAt(env, states, events, k, i) && k !in order then order + [k] else order
    ensures ByFirstSubmission(env, states, events, order', n)
  {
    NoDupConcat(order, [k]);
    if AcceptedAt(env, states, events, k, i) && k !in order {
      NewIsFirst(env, states, events, i, k);
    }
    forall j ensures j in order' <==> Known(env, states, events, j, n) {
      KnownAfter(env, states, events, i, n, j);
    }
    forall a, b | 0 <= a < b < |order'| ensures CameBefore(env, states, events, order'[a], order'[b]) {
      if b < |order| {
        assert CameBefore(env, states, events, order[a], order[b]);
      } else {
        assert order'[a] == order[a] && order[a] in order;
        NewComesLast(env, states, events, i, order[a], k);
      }
    }
  }

  /** Until the first restart the drain order is exactly the list of repositories
      with an accepted submission, by the first one of each. */
  lemma {:induction false} OrderIsByFirstSubmission(env: Env, states: seq<Registry>, pasts: seq<History>, events: seq<Event>, i: nat)
    requires QueueHistory.Execution(env, states, pasts, events) && i < |states| && NoRestart(events, i)
    ensures ByFirstSubmission(env, states, events, states[i].order, i)
  {
    if i > 0 {
      OrderIsByFirstSubmission(env, states, pasts, events, i - 1);
      EventOrder(env, states, pasts, events, i - 1);
      var k :| OrderGrows(env, states, events, i - 1, k);
      OneMoreSorted(env, states, events, i - 1, i, k, states[i - 1].order, states[i].order);
    }
  }

  lemma PoppedOnce(s: Registry, s': Registry, k: RepoKey, p: PendingRun, next: Option<PendingRun>)
    requires PopsHead(s, s', k, p) && DrainsFirst(s, s', next)
    ensures exists a :: 0 <= a < |s.order| && s.order[a] == k && forall l :: 0 <= l < a ==> !CanBeDrained(s, s.order[l])
  {
    assert |s'.queues[k]| != |s.queues[k]|;
    assert s' != s;
    var a :| 0 <= a < |s.order| && CanBeDrained(s, s.order[a]) && PopsHead(s, s', s.order[a], next.value)
             && forall l :: 0 <= l < a ==> !CanBeDrained(s, s.order[l]);
    if s.order[a] != k {
      assert false;
    }
  }

  lemma BothKnown(env: Env, states: seq<Registry>, events: seq<Event>, i: nat, k: RepoKey, other: RepoKey)
    requires Known(env, states, events, k, i) && Known(env, states, events, other, i) && CameBefore(env, states, events, k, other)
    ensures exists m: nat, l: nat :: m < l < i && FirstAt(env, states, events, k, m) && FirstAt(env, states, events, other, l)
  {
    var m: nat :| m < i && FirstAt(env, states, events, k, m);
    var l: nat :| l < i && FirstAt(env, states, events, other, l);
    assert m < l < i;
  }

  /** A queue that can be drained stands no earlier than the first that can. */
  lemma StandsLater(env: Env, states: seq<Registry>, events: seq<Event>, s: Registry, i: nat, k: RepoKey, a: nat, other: RepoKey)
    requires ByFirstSubmission(env, states, events, s.order, i)
    requires a < |s.order| && s.order[a] == k && forall l :: 0 <= l < a ==> !CanBeDrained(s, s.order[l])
    requires other != k && other in s.order && CanBeDrained(s, other)
    ensures Known(env, states, events, k, i) && Known(env, states, events, other, i) && CameBefore(env, states, events, k, other)
  {
    var b :| 0 <= b < |s.order| && s.order[b] == other;
    assert s.order[a] in s.order && a < b;
  }

  /** First come, first served between repositories: when the drain over all of
      them hands out a run of `k`, every other repository with a waiting run had
      its first submission accepted after that of `k`. */
  lemma DrainedRepositoryCameFirst(env: Env, states: seq<Registry>, pasts: seq<History>, events: seq<Event>, i: nat, k: RepoKey, p: PendingRun, other: RepoKey)
    requires QueueHistory.Execution(env, states, pasts, events) && i < |events| && NoRestart(events, i)
    requires events[i] == Act(DrainFirstReady) && PopsHead(states[i], states[i + 1], k, p)
    requires other != k && QueueOf(states[i].queues, other) != []
    ensures exists m: nat, l: nat :: m < l < i && FirstAt(env, states, events, k, m) && FirstAt(env, states, events, other, l)
  {
    var s := states[i];
    OrderIsByFirstSubmission(env, states, pasts, events, i);
    WaitingIsListed(env, states, pasts, events, i, other);
    DrainStepDrains(env, states, pasts, events, i);
    PoppedOnce(s, states[i + 1], k, p, DrainAny(s).1);
    var a: nat :| a < |s.order| && s.order[a] == k && forall l :: 0 <= l < a ==> !CanBeDrained(s, s.order[l]);
    StandsLater(env, states, events, s, i, k, a, other);
    BothKnown(env, states, events, i, k, other);
  }

  lemma WaitingIsListed(env: Env, states: seq<Registry>, pasts: seq<History>, events: seq<Event>, i: nat, k: RepoKey)
    requires QueueHistory.Execution(env, states, pasts, events) && i < |states| && QueueOf(states[i].queues, k) != []
    ensures k in states[i].order && CanBeDrained(states[i], k)
  {
    ExecutionAccounts(env, states, pasts, events, i);
  }

  lemma DrainStepDrains(env: Env, states: seq<Registry>, pasts: seq<History>, events: seq<Event>, i: nat)
    requires QueueHistory.Execution(env, states, pasts, events) && i < |events| && events[i] == Act(DrainFirstReady)
    ensures DrainsFirst(states[i], states[i + 1], DrainAny(states[i]).1)
  {
    DrainAnyPromise(states[i]);
    assert states[i + 1] == After(env, states[i], events[i]);
  }
}

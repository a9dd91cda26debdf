/** What happens to submitted runs over a whole execution of the daemon, through
    restarts that find the snapshot of the current queues: none is lost,
    duplicated or overtaken, and the breaker counts exactly the failures since the
    last success. For restarts from an older snapshot see StaleRestart.dfy.
    Modelled on src/daemon/registry.rs. */
module QueueHistory {
  import opened Prelude
  import opened RunModel
  import opened RegistrySpec
  import opened RegistrySystem
  import opened RegistryMeaning
  import opened QueueAccounts

  // ── Over a whole execution ─────────────────────────────────────────

  ghost predicate Execution(env: Env, states: seq<Registry>, pasts: seq<History>, events: seq<Event>) {
    && |states| == |pasts| == |events| + 1
    && states[0] == EMPTY && pasts[0] == NO_HISTORY
    && (forall i :: 0 <= i < |events| ==>
          && CanHappen(env, states[i], pasts[i], events[i])
          && states[i + 1] == After(env, states[i], events[i])
          && pasts[i + 1] == Record(env, states[i], pasts[i], events[i]))
  }

  lemma {:induction false} ExecutionAccounts(env: Env, states: seq<Registry>, pasts: seq<History>, events: seq<Event>, i: nat)
    requires Execution(env, states, pasts, events) && i < |states|
    ensures WellFormed(env, states[i])
    ensures Accounts(states[i], pasts[i])
    ensures BreakerAccounts(states[i], pasts[i])
  {
    if i == 0 {
      EmptyWellFormed(env);
    } else {
      ExecutionAccounts(env, states, pasts, events, i - 1);
      StepKeepsAccounts(env, states[i - 1], pasts[i - 1], events[i - 1]);
      StepKeepsBreakerAccounts(env, states[i - 1], pasts[i - 1], events[i - 1]);
    }
  }

  ghost predicate Submitted(h: History, k: RepoKey, id: RunId) { id in Log(h.enqueued, k) }
  ghost predicate HandedOut(h: History, k: RepoKey, id: RunId) { id in Log(h.handedOut, k) }
  ghost predicate Waits(s: Registry, k: RepoKey, id: RunId) { id in QueuedIds(s, k) }

  /** In every reachable state a submitted run is in exactly one place: waiting
      under the key of its own repository and nowhere else, handed out, or
      removed; and at most 50 runs wait. */
  lemma SubmittedRunIsInOnePlace(env: Env, states: seq<Registry>, pasts: seq<History>, events: seq<Event>, i: nat, k: RepoKey, id: RunId)
    requires Execution(env, states, pasts, events) && i < |states|
    requires Submitted(pasts[i], k, id)
    ensures var (s, h) := (states[i], pasts[i]);
      && (Waits(s, k, id) || HandedOut(h, k, id) || id in h.removed)
      && !(Waits(s, k, id) && HandedOut(h, k, id))
      && !(Waits(s, k, id) && id in h.removed)
      && !(HandedOut(h, k, id) && id in h.removed)
      && (forall k' :: k' != k ==> !Waits(s, k', id) && !HandedOut(h, k', id))
      && NoDup(QueuedIds(s, k)) && NoDup(Log(h.handedOut, k))
      && Total(s.queues) <= 50
  {
    ExecutionAccounts(env, states, pasts, events, i);
    var s, h := states[i], pasts[i];
    WaitingWasSubmitted(s, h, k);
    NoDupConcat(Log(h.handedOut, k), QueuedIds(s, k));
    forall k' | k' != k ensures !Waits(s, k', id) && !HandedOut(h, k', id) {
      WaitingWasSubmitted(s, h, k');
      assert Disjoint(Log(h.enqueued, k), Log(h.enqueued, k'));
    }
  }

  ghost predicate Before<T(!new)>(s: seq<T>, x: T, y: T) {
    exists i, j :: 0 <= i < j < |s| && s[i] == x && s[j] == y
  }

  lemma {:induction false} WithoutKeepsOrder<T(!new)>(s: seq<T>, gone: set<T>, x: T, y: T)
    requires Before(s, x, y) && NoDup(s) && x !in gone && y !in gone
    ensures Before(Without(s, gone), x, y)
  {
    var n := |s| - 1;
    var front := s[..n];
    var kept := Without(front, gone);
    var i, j :| 0 <= i < j < |s| && s[i] == x && s[j] == y;
    if j < n {
      assert front[i] == x && front[j] == y;
      WithoutKeepsOrder(front, gone, x, y);
      var i', j' :| 0 <= i' < j' < |kept| && kept[i'] == x && kept[j'] == y;
      assert Without(s, gone)[i'] == x && Without(s, gone)[j'] == y;
    } else {
      assert front[i] == x;
      WithoutMembers(front, gone);
      var i' :| 0 <= i' < |kept| && kept[i'] == x;
      assert Without(s, gone)[i'] == x && Without(s, gone)[|kept|] == y;
    }
  }

  /** First come, first served per repository: if `x` was submitted before `y` and
      `y` has been handed out, then `x` has been removed or was handed out first. */
  lemma HandedOutInSubmissionOrder(env: Env, states: seq<Registry>, pasts: seq<History>, events: seq<Event>, i: nat, k: RepoKey, x: RunId, y: RunId)
    requires Execution(env, states, pasts, events) && i < |states|
    requires Before(Log(pasts[i].enqueued, k), x, y)
    requires HandedOut(pasts[i], k, y)
    ensures x in pasts[i].removed || Before(Log(pasts[i].handedOut, k), x, y)
  {
    ExecutionAccounts(env, states, pasts, events, i);
    var s, h := states[i], pasts[i];
    WaitingWasSubmitted(s, h, k);
    if x !in h.removed {
      WithoutKeepsOrder(Log(h.enqueued, k), h.removed, x, y);
      assert Balanced(s, h, k);
      BeforeInPrefix(Log(h.handedOut, k), QueuedIds(s, k), x, y);
    }
  }

  lemma BeforeInPrefix<T(!new)>(s: seq<T>, t: seq<T>, x: T, y: T)
    requires NoDup(s + t) && Before(s + t, x, y) && y in s
    ensures Before(s, x, y)
  {
    var st := s + t;
    var i, j :| 0 <= i < j < |st| && st[i] == x && st[j] == y;
    var j' :| 0 <= j' < |s| && s[j'] == y;
    assert st[j'] == y;
    assert j' == j;
    assert s[i] == x;
  }

  // ── The breaker ────────────────────────────────────────────────────

  /** In every reachable state the stored count is the number of failures since
      the last success modulo 3, so no queue is ever held back by it. */
  lemma BreakerNeverStaysTripped(env: Env, states: seq<Registry>, pasts: seq<History>, events: seq<Event>, i: nat, k: RepoKey)
    requires Execution(env, states, pasts, events) && i < |states|
    ensures FailuresOf(states[i], k) == FailedSince(pasts[i], k) % 3
    ensures FailuresOf(states[i], k) < 3
  {
    ExecutionAccounts(env, states, pasts, events, i);
    assert CountAgrees(states[i], pasts[i], k);
  }

  /** Every third failure in a row, and no other, empties the queue of exactly
      that repository and stops each of its runs. */
  lemma ThirdFailureEmptiesItsQueue(env: Env, states: seq<Registry>, pasts: seq<History>, events: seq<Event>, i: nat, repo: Path, now: Instant)
    requires Execution(env, states, pasts, events) && i < |events|
    requires events[i] == Act(SpawnFailed(repo, now))
    ensures var k := RepoHash(env, repo);
      var trips := (FailedSince(pasts[i], k) + 1) % 3 == 0;
      EmptiesQueue(states[i], states[i + 1], k, trips)
  {
    ExecutionAccounts(env, states, pasts, events, i);
    var k, s := RepoHash(env, repo), states[i];
    TripFrame(env, s, k, now);
    assert CountAgrees(s, pasts[i], k);
    NextModulo(FailedSince(pasts[i], k));
  }

  /** With `trips`, the queue of `k` and no other becomes empty, and each run in
      it and no other becomes `Stopped`; without, nothing of the kind happens. */
  ghost predicate EmptiesQueue(s: Registry, s': Registry, k: RepoKey, trips: bool) {
    && (forall k' :: QueueOf(s'.queues, k') == if trips && k' == k then [] else QueueOf(s.queues, k'))
    && s'.runs.Keys == s.runs.Keys
    && (forall id :: id in s.runs ==>
          if trips && id in QueuedIds(s, k) then s'.runs[id].status == Stopped else s'.runs[id] == s.runs[id])
  }

  lemma DrainEmptyWhenNothingWaits(env: Env, s: Registry, repo: Path)
    requires WellFormed(env, s)
    ensures (DrainNext(env, s, repo).1.None? && DrainAny(s).1.None?) <==> forall k :: QueueOf(s.queues, k) == []
  {
    DrainAnyPromise(s);
    if DrainAny(s).1.None? {
      forall k ensures QueueOf(s.queues, k) == [] {
        if k in s.order {
          var j :| 0 <= j < |s.order| && s.order[j] == k;
          assert !CanBeDrained(s, s.order[j]);
        }
      }
    }
  }

  /** In every reachable state, trying a repository's own queue and then all
      others comes up empty exactly when no run waits anywhere. */
  lemma DrainFindsWaitingRun(env: Env, states: seq<Registry>, pasts: seq<History>, events: seq<Event>, i: nat, repo: Path)
    requires Execution(env, states, pasts, events) && i < |states|
    ensures (DrainNext(env, states[i], repo).1.None? && DrainAny(states[i]).1.None?) <==> forall k :: QueueOf(states[i].queues, k) == []
  {
    ExecutionAccounts(env, states, pasts, events, i);
    DrainEmptyWhenNothingWaits(env, states[i], repo);
  }

  // ── Restarts ───────────────────────────────────────────────────────

  /** Snapshot, write, read back and restore rebuilds the same queues and breaker
      counts, with every waiting repository in the drain order. */
  lemma RestartRoundTrip(env: Env, s: Registry, runs: map<RunId, RunEntry>, next: Registry)
    requires Restores(EMPTY.(runs := runs), WireOf(s), next)
    ensures WireOf(next) == WireOf(s)
    ensures next.runs == runs && next.locks == {}
    ensures NoDup(next.order)
    ensures forall k :: k in next.order <==> QueueOf(s.queues, k) != []
    ensures WellFormed(env, s) && Keyed(next) ==> WellFormed(env, next)
  {
    assert next.queues == s.queues;
    assert forall k :: QueuedIds(next, k) == QueuedIds(s, k);
  }
}

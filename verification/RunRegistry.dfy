/** The in-memory registry as the daemon mutates it, proved against the
    functions of RegistrySpec. Modelled on src/daemon/registry.rs. */
module RunRegistryClass {
  import opened Prelude
  import opened RunModel
  import opened RegistrySpec
  import opened RegistrySystem
  import opened RegistryMeaning

  /** A staged snapshot of the queues, to be flushed outside the mutex. */
  datatype QueueSnapshot = QueueSnapshot(wire: Wire, epoch: nat)

  datatype Dequeued = Dequeued(pending: PendingRun, entry: RunEntry, snapshot: QueueSnapshot)

  class RunRegistry {
    const env: Env
    var runs: map<RunId, RunEntry>
    var repoLocks: set<RepoKey>
    var pendingQueues: map<RepoKey, seq<PendingRun>>
    var repoInsertionOrder: seq<RepoKey>
    var consecutiveFailures: map<RepoKey, nat>
    var queueEpoch: nat

    ghost function View(): Registry
      reads this
    {
      Registry(runs, repoLocks, pendingQueues, repoInsertionOrder, consecutiveFailures, queueEpoch)
    }

    ghost predicate Valid()
      reads this
    {
      WellFormed(env, View())
    }

    constructor (env: Env)
      ensures this.env == env && View() == EMPTY
    {
      this.env := env;
      runs, repoLocks, pendingQueues, repoInsertionOrder, consecutiveFailures, queueEpoch :=
        map[], {}, map[], [], map[], 0;
    }

    // ── Statuses and locks ───────────────────────────────────────────

    method StageStatusLocked(id: RunId, status: RunStatus, phase: Option<string>, error: Option<string>, now: Instant)
      returns (outcome: StageOutcome)
      modifies this
      ensures (View(), outcome) == StageStatus(env, old(View()), id, status, phase, error, now)
      ensures Stages(env, old(View()), View(), id, status, phase, error, now, outcome)
    {
      StagePromise(env, View(), id, status, phase, error, now);
      if id !in runs {
        return RunNotFound;
      }
      var from := runs[id].status;
      if (from.IsTerminal() && !status.IsTerminal()) || (from == Running && status == Queued) {
        return InvalidTransition(from, status);
      }
      var entry := WithStatus(runs[id], status, phase, error, now);
      if status.IsTerminal() {
        repoLocks := repoLocks - {RepoHash(env, entry.repoDir)};
      }
      runs := runs[id := entry];
      outcome := Staged(entry);
    }

    static method WithStatus(e: RunEntry, status: RunStatus, phase: Option<string>, error: Option<string>, now: Instant)
      returns (entry: RunEntry)
      ensures entry == StagedEntry(e, status, phase, error, now)
    {
      entry := e.(status := status, writeEpoch := e.writeEpoch + 1);
      if phase.Some? { entry := entry.(currentPhase := phase); }
      if error.Some? { entry := entry.(errorMessage := error); }
      if status.IsTerminal() { entry := entry.(finishedAt := Some(now)); }
    }

    /** Stage, then write meta.json at once; `ok` reports both. */
    method UpdateStatus(id: RunId, status: RunStatus, phase: Option<string>, error: Option<string>, writeOk: bool, now: Instant)
      returns (ok: bool)
      modifies this
      ensures var (s', outcome) := StageStatus(env, old(View()), id, status, phase, error, now);
        View() == s' && ok == (outcome.Staged? && writeOk)
    {
      var outcome := StageStatusLocked(id, status, phase, error, now);
      ok := outcome.Staged? && writeOk;
    }

    method AcquireRepoLock(repo: Path, osFree: bool) returns (ok: bool)
      modifies this
      ensures ok <==> RepoHash(env, repo) !in old(repoLocks) && osFree
      ensures View() == old(View()).(locks := if ok then old(repoLocks) + {RepoHash(env, repo)} else old(repoLocks))
    {
      var key := RepoHash(env, repo);
      if key in repoLocks || !osFree {
        return false;
      }
      repoLocks := repoLocks + {key};
      ok := true;
    }

    method AcquireRepoLockForAdopt(repo: Path, osFree: bool) returns (ok: bool)
      modifies this
      ensures (View(), ok) == AdoptLock(env, old(View()), repo, osFree)
      ensures ok <==> RepoHash(env, repo) in old(repoLocks) || osFree
      ensures repoLocks == if ok then old(repoLocks) + {RepoHash(env, repo)} else old(repoLocks)
    {
      var key := RepoHash(env, repo);
      if key in repoLocks {
        return true;
      }
      if !osFree {
        return false;
      }
      repoLocks := repoLocks + {key};
      ok := true;
    }

    method RegisterRun(id: RunId, plan: Path, repo: Path, session: Option<string>, config: Option<Path>, schedule: Option<string>,
                       osFree: bool, writeOk: bool, now: Instant)
      returns (ok: bool)
      modifies this
      ensures (View(), ok) == Register(env, old(View()), FreshEntry(id, plan, repo, session, config, schedule, now), osFree, writeOk)
      ensures Registers(env, old(View()), View(), id, plan, repo, session, osFree, writeOk, now, ok)
    {
      RegisterPromise(env, View(), id, plan, repo, session, config, schedule, osFree, writeOk, now);
      ok := AcquireRepoLock(repo, osFree);
      if !ok {
        return;
      }
      var name := if session.Some? then session.value else "gw-" + id;
      var entry := RunEntry(id, plan, repo, name, None, Queued, None, now, None, 0, config, None, true, None, schedule, None, 0);
      if !writeOk {
        repoLocks := repoLocks - {RepoHash(env, repo)};
        return false;
      }
      runs := runs[id := entry];
    }

    method PromoteQueued(id: RunId, osFree: bool, writeOk: bool, now: Instant) returns (ok: bool)
      modifies this
      ensures (View(), ok) == Promote(env, old(View()), id, osFree, writeOk, now)
      ensures Promotes(env, old(View()), View(), id, osFree, writeOk, now, ok)
    {
      PromotePromise(env, View(), id, osFree, writeOk, now);
      if id !in runs || runs[id].status != Queued {
        return false;
      }
      var repo := runs[id].repoDir;
      ok := AcquireRepoLock(repo, osFree);
      if !ok {
        return;
      }
      runs := runs[id := runs[id].(startedAt := now, restartable := true)];
      if !writeOk {
        repoLocks := repoLocks - {RepoHash(env, repo)};
        ok := false;
      }
    }

    // ── Queue operations ─────────────────────────────────────────────

    method TotalPendingCount() returns (total: nat)
      ensures total == Total(pendingQueues)
    {
      total := 0;
      var rest := pendingQueues;
      while rest != map[]
        invariant total + Total(rest) == Total(pendingQueues)
        decreases |rest|
      {
        var k :| k in rest;
        TotalSplit(rest, k);
        total := total + |rest[k]|;
        rest := rest - {k};
      }
    }

    method EnqueueRunWithoutSnapshot(p: PendingRun) returns (outcome: EnqueueOutcome)
      modifies this
      ensures (View(), outcome) == Enqueue(env, old(View()), p)
      ensures Enqueues(env, old(View()), View(), p, outcome)
    {
      EnqueuePromise(env, View(), p);
      var total := TotalPendingCount();
      if total >= MAX_QUEUE_SIZE {
        return QueueFull;
      }
      var key := RepoHash(env, p.repoDir);
      if exists id | id in runs :: !runs[id].status.IsTerminal() && RepoHash(env, runs[id].repoDir) == key
                                   && PlansMatch(env, runs[id].planPath, p.planPath, p.repoDir) {
        return AlreadyActive;
      }
      var entry := RunEntry(p.runId, p.planPath, p.repoDir, "gw-" + p.runId, None, Queued, None,
                            p.queuedAt, None, 0, p.configDir, None, false, None, None, None, 0);
      runs := runs[p.runId := entry];
      if key !in repoInsertionOrder {
        repoInsertionOrder := repoInsertionOrder + [key];
      }
      pendingQueues := pendingQueues[key := (if key in pendingQueues then pendingQueues[key] else []) + [p]];
      outcome := Enqueued(|pendingQueues[key]|, entry);
    }

    /** Takes `id` out of whichever queue holds it. */
    method PopFromPendingQueues(id: RunId) returns (found: Option<PendingRun>)
      requires Valid()
      modifies this
      ensures View() == RemovePending(old(View()), id)
      ensures found.Some? <==> Pending(old(View()), id)
      ensures found.Some? ==> found.value.runId == id && exists k :: found.value in QueueOf(old(pendingQueues), k)
    {
      found := None;
      var rest := pendingQueues.Keys;
      while rest != {}
        invariant View() == old(View()) && found == None
        invariant rest <= pendingQueues.Keys
        invariant forall k :: k in pendingQueues && k !in rest ==> id !in Ids(pendingQueues[k])
        decreases rest
      {
        var k :| k in rest;
        var pos := Position(pendingQueues[k], id);
        if pos.Some? {
          found := Some(pendingQueues[k][pos.value]);
          ghost var s := View();
          assert found.value in QueueOf(s.queues, k);
          assert Ids(s.queues[k])[pos.value] == id && id in QueuedIds(s, k);
          RemovedAtIsRemovePending(env, s, k, pos.value, id);
          pendingQueues := pendingQueues[k := pendingQueues[k][..pos.value] + pendingQueues[k][pos.value + 1..]];
          return;
        }
        rest := rest - {k};
      }
      assert forall k :: id !in QueuedIds(View(), k);
      NothingToRemove(View(), id);
    }

    method DequeueRunStaged(id: RunId, now: Instant) returns (result: Option<Dequeued>)
      requires Valid()
      modifies this
      ensures var (s', staged) := Dequeue(env, old(View()), id, now);
        && View() == (if staged.Some? then StageQueue(s') else s')
        && (result.Some? <==> staged.Some?)
        && (result.Some? ==> result.value.entry == staged.value)
        && (result.Some? ==> result.value.pending.runId == id)
        && (result.Some? ==> result.value.snapshot == QueueSnapshot(WireOf(s'), s'.queueEpoch + 1))
      ensures Dequeues(env, old(View()), View(), id, result.Some?)
    {
      ghost var s := View();
      DequeuePromise(env, s, id, now);
      assert !Pending(s, id) ==> RemovePending(s, id) == s by {
        if !Pending(s, id) { NothingToRemove(s, id); }
      }
      var pending := PopFromPendingQueues(id);
      if pending.None? {
        return None;
      }
      var outcome := StageStatusLocked(id, Stopped, None, Some("removed from queue"), now);
      if !outcome.Staged? {
        return None;
      }
      var snapshot := StageQueueLocked();
      result := Some(Dequeued(pending.value, outcome.entry, snapshot));
    }

    method DrainNextWithoutSnapshot(repo: Path) returns (next: Option<PendingRun>)
      modifies this
      ensures (View(), next) == DrainNext(env, old(View()), repo)
      ensures next.Some? <==> CanBeDrained(old(View()), RepoHash(env, repo))
      ensures if next.Some? then PopsHead(old(View()), View(), RepoHash(env, repo), next.value) else View() == old(View())
    {
      var key := RepoHash(env, repo);
      if (if key in consecutiveFailures then consecutiveFailures[key] else 0) >= MAX_CONSECUTIVE_FAILURES {
        return None;
      }
      if key !in pendingQueues || pendingQueues[key] == [] {
        return None;
      }
      next := Some(pendingQueues[key][0]);
      pendingQueues := pendingQueues[key := pendingQueues[key][1..]];
    }

    /** First repository in submission order whose queue can be drained. */
    method DrainAnyReadyWithoutSnapshot() returns (next: Option<PendingRun>)
      modifies this
      ensures (View(), next) == DrainAny(old(View()))
      ensures DrainsFirst(old(View()), View(), next)
    {
      DrainAnyPromise(View());
      var i := 0;
      while i < |repoInsertionOrder|
        invariant i <= |repoInsertionOrder| && View() == old(View())
        invariant FirstReady(View(), 0) == FirstReady(View(), i)
      {
        var key := repoInsertionOrder[i];
        var eligible := (if key in consecutiveFailures then consecutiveFailures[key] else 0) < MAX_CONSECUTIVE_FAILURES;
        if eligible && key in pendingQueues && pendingQueues[key] != [] {
          next := Some(pendingQueues[key][0]);
          pendingQueues := pendingQueues[key := pendingQueues[key][1..]];
          return;
        }
        i := i + 1;
      }
      next := None;
    }

    method StopRuns(ids: seq<RunId>, reason: string, now: Instant) returns (batch: seq<RunEntry>)
      modifies this
      ensures (View(), batch) == StopEach(env, old(View()), ids, reason, now)
    {
      batch := [];
      for i := 0 to |ids|
        invariant (View(), batch) == StopEach(env, old(View()), ids[..i], reason, now)
      {
        assert ids[..i + 1][..i] == ids[..i];
        var outcome := StageStatusLocked(ids[i], Stopped, None, Some(reason), now);
        if outcome.Staged? {
          batch := batch + [outcome.entry];
        }
      }
      assert ids[..|ids|] == ids;
    }

    method RecordQueueFailureWithoutSnapshot(repo: Path, now: Instant) returns (batch: seq<RunEntry>)
      modifies this
      ensures (View(), batch) == RecordFailure(env, old(View()), repo, now)
      ensures CountsFailure(old(View()), View(), RepoHash(env, repo))
    {
      FailurePromise(env, View(), repo, now);
      var key := RepoHash(env, repo);
      var count := (if key in consecutiveFailures then consecutiveFailures[key] else 0) + 1;
      consecutiveFailures := consecutiveFailures[key := count];
      batch := [];
      if count >= MAX_CONSECUTIVE_FAILURES {
        var ids := [];
        if key in pendingQueues {
          ids := Ids(pendingQueues[key]);
          pendingQueues := pendingQueues[key := []];
        }
        ghost var counted := View();
        batch := StopRuns(ids, "circuit breaker tripped", now);
        StopEachIgnoresFailures(env, counted, old(consecutiveFailures), ids, "circuit breaker tripped", now);
        StopEachShape(env, counted, ids, "circuit breaker tripped", now);
        consecutiveFailures := consecutiveFailures - {key};
        assert consecutiveFailures == old(consecutiveFailures) - {key};
      }
    }

    method RecordQueueSuccessWithoutSnapshot(repo: Path)
      modifies this
      ensures View() == RecordSuccess(env, old(View()), repo)
    {
      consecutiveFailures := consecutiveFailures - {RepoHash(env, repo)};
    }

    method RemovePendingWithoutSnapshot(id: RunId)
      modifies this
      ensures View() == RemovePending(old(View()), id)
    {
      var rest := pendingQueues.Keys;
      while rest != {}
        invariant rest <= pendingQueues.Keys == old(pendingQueues).Keys
        invariant View() == old(View()).(queues := pendingQueues)
        invariant forall k :: k in pendingQueues ==>
          pendingQueues[k] == if k in rest then old(pendingQueues)[k] else Retain(old(pendingQueues)[k], OtherThan(id))
        decreases rest
      {
        var k :| k in rest;
        pendingQueues := pendingQueues[k := Retain(pendingQueues[k], OtherThan(id))];
        rest := rest - {k};
      }
      assert pendingQueues == RetainAll(old(pendingQueues), OtherThan(id));
    }

    /** Takes what a clear request names out of every queue. */
    method TakeCleared(filter: Option<Path>) returns (removed: seq<RunId>)
      modifies this`pendingQueues
      ensures pendingQueues == RetainAll(old(pendingQueues), KeptByClear(env, filter))
      ensures ListsDropped(old(pendingQueues), old(pendingQueues).Keys, KeptByClear(env, filter), removed)
      ensures |removed| + Total(pendingQueues) == Total(old(pendingQueues))
    {
      removed := [];
      var queues, rest := pendingQueues, pendingQueues.Keys;
      ghost var before, done, keep := pendingQueues, {}, KeptByClear(env, filter);
      while rest != {}
        invariant queues.Keys == before.Keys == done + rest && done !! rest
        invariant forall k :: k in rest ==> queues[k] == before[k]
        invariant forall k :: k in done ==> queues[k] == Retain(before[k], keep)
        invariant ListsDropped(before, done, keep, removed)
        invariant |removed| + Total(queues) == Total(before)
        modifies {}
        decreases rest
      {
        var k :| k in rest;
        var queue, dropped := ClearOneQueue(queues[k], filter);
        TotalUpdate(queues, k, queue);
        ListsOneMore(before, done, keep, removed, k, dropped);
        queues, removed := queues[k := queue], removed + dropped;
        rest, done := rest - {k}, done + {k};
      }
      assert queues == RetainAll(before, keep);
      assert done == before.Keys;
      pendingQueues := queues;
    }

    /** Clears the queues of one repository path, or all of them. */
    method ClearQueueStaged(filter: Option<Path>, now: Instant)
      returns (count: nat, batch: seq<RunEntry>, snapshot: QueueSnapshot, ghost ids: seq<RunId>)
      modifies this
      ensures ListsCleared(env, old(View()), filter, ids) && count == |ids|
      ensures count + Total(pendingQueues) == Total(old(pendingQueues))
      ensures var (s', stopped) := Clear(env, old(View()), filter, ids, now);
        View() == StageQueue(s') && batch == stopped && snapshot == QueueSnapshot(WireOf(s'), s'.queueEpoch + 1)
      ensures Clears(env, old(View()), View(), filter, ids)
    {
      ghost var before := View();
      var removed := TakeCleared(filter);
      ids := removed;
      DroppedIsCleared(env, before, filter, ids);
      ghost var cleared := View();
      batch := StopRuns(removed, "cleared by user", now);
      StopEachShape(env, cleared, removed, "cleared by user", now);
      snapshot := StageQueueLocked();
      count := |removed|;
      ClearPromise(env, before, filter, ids, now);
    }

    /** Removes by index what the clear request does not keep. */
    method ClearOneQueue(queue: seq<PendingRun>, filter: Option<Path>) returns (left: seq<PendingRun>, dropped: seq<RunId>)
      ensures left == Retain(queue, KeptByClear(env, filter))
      ensures |left| + |dropped| == |queue|
      ensures ListsDroppedFrom(queue, KeptByClear(env, filter), dropped)
      ensures forall p :: p in left <==> p in queue && !Names(env, filter, p)
    {
      KeptMembers(env, filter, queue);
      left, dropped := queue, [];
      var i := 0;
      ghost var j, keep := 0, KeptByClear(env, filter);
      assert Decided(queue, keep, 0, 0, left, dropped) by {
        assert queue[..0] == [] && queue[0..] == queue;
      }
      while i < |left|
        invariant Decided(queue, keep, j, i, left, dropped)
        decreases |left| - i
      {
        DecideOne(queue, keep, j, i, left, dropped);
        var p := left[i];
        if filter.None? || p.repoDir == env.canonicalize(filter.value) || p.repoDir == filter.value {
          left := left[..i] + left[i + 1..];
          dropped := dropped + [p.runId];
        } else {
          i := i + 1;
        }
        j := j + 1;
      }
      AllDecided(queue, keep, j, i, left, dropped);
    }

    // ── Persistence ──────────────────────────────────────────────────

    method StageQueueLocked() returns (snapshot: QueueSnapshot)
      modifies this
      ensures View() == StageQueue(old(View()))
      ensures snapshot == QueueSnapshot(WireOf(old(View())), old(queueEpoch) + 1)
    {
      queueEpoch := queueEpoch + 1;
      snapshot := QueueSnapshot(Wire(pendingQueues, consecutiveFailures), queueEpoch);
    }

    method RestoreQueue(w: Wire)
      modifies this
      ensures Restores(old(View()), w, View())
    {
      var queues, order, rest := pendingQueues, repoInsertionOrder, w.queues.Keys;
      ghost var before := pendingQueues;
      while rest != {}
        invariant rest <= w.queues.Keys
        invariant queues == before + (w.queues - rest)
        invariant Extends(repoInsertionOrder, order, w, rest)
        modifies {}
        decreases rest
      {
        var k :| k in rest;
        if w.queues[k] != [] && k !in order {
          NoDupConcat(order, [k]);
          order := order + [k];
        }
        queues := queues[k := w.queues[k]];
        rest := rest - {k};
        assert queues == before + (w.queues - rest);
      }
      assert w.queues - rest == w.queues;
      pendingQueues, repoInsertionOrder, consecutiveFailures := queues, order, w.failures;
    }
  }

  /** `order'` adds to `order` the visited keys with waiting runs, once each. */
  ghost predicate Extends(order: seq<RepoKey>, order': seq<RepoKey>, w: Wire, rest: set<RepoKey>) {
    && order <= order'
    && (NoDup(order) ==> NoDup(order'))
    && (forall k :: k in order' <==> k in order || (k in w.queues && k !in rest && w.queues[k] != []))
  }

  ghost predicate ListsDroppedFrom(q: seq<PendingRun>, keep: PendingRun -> bool, ids: seq<RunId>) {
    forall id :: id in ids <==> exists p :: p in q && p.runId == id && !keep(p)
  }

  /** The first `j` runs of the queue have been decided, and `i` of them kept. */
  ghost predicate Decided(q: seq<PendingRun>, keep: PendingRun -> bool, j: nat, i: nat, left: seq<PendingRun>, dropped: seq<RunId>) {
    && j <= |q| && i == |Retain(q[..j], keep)| && left == Retain(q[..j], keep) + q[j..]
    && |dropped| == j - i && ListsDroppedFrom(q[..j], keep, dropped)
  }

  lemma DecideOne(q: seq<PendingRun>, keep: PendingRun -> bool, j: nat, i: nat, left: seq<PendingRun>, dropped: seq<RunId>)
    requires Decided(q, keep, j, i, left, dropped) && i < |left|
    ensures j < |q| && left[i] == q[j]
    ensures if keep(q[j]) then Decided(q, keep, j + 1, i + 1, left, dropped)
            else Decided(q, keep, j + 1, i, left[..i] + left[i + 1..], dropped + [q[j].runId])
  {
    assert q[..j + 1] == q[..j] + [q[j]] && q[..j + 1][..j] == q[..j];
    assert q[j..] == [q[j]] + q[j + 1..];
  }

  lemma AllDecided(q: seq<PendingRun>, keep: PendingRun -> bool, j: nat, i: nat, left: seq<PendingRun>, dropped: seq<RunId>)
    requires Decided(q, keep, j, i, left, dropped) && i >= |left|
    ensures left == Retain(q, keep) && |left| + |dropped| == |q| && ListsDroppedFrom(q, keep, dropped)
  {
    assert q[..j] == q && q[j..] == [];
  }

  /** `ids` lists the runs that `keep` drops from the queues of `done`. */
  ghost predicate ListsDropped(queues: map<RepoKey, seq<PendingRun>>, done: set<RepoKey>, keep: PendingRun -> bool, ids: seq<RunId>) {
    forall id :: id in ids <==> exists k, p :: k in queues && k in done && p in queues[k] && p.runId == id && !keep(p)
  }

  lemma DroppedIsCleared(env: Env, s: Registry, filter: Option<Path>, ids: seq<RunId>)
    requires ListsDropped(s.queues, s.queues.Keys, KeptByClear(env, filter), ids)
    ensures ListsCleared(env, s, filter, ids)
  {
    var keep := KeptByClear(env, filter);
    forall id
      ensures id in ids <==> exists k, p :: p in QueueOf(s.queues, k) && p.runId == id && !keep(p)
    {
      if id in ids {
        var k, p :| k in s.queues && k in s.queues.Keys && p in s.queues[k] && p.runId == id && !keep(p);
        assert p in QueueOf(s.queues, k);
      }
    }
  }

  lemma ListsOneMore(queues: map<RepoKey, seq<PendingRun>>, done: set<RepoKey>, keep: PendingRun -> bool, ids: seq<RunId>, k: RepoKey, dropped: seq<RunId>)
    requires ListsDropped(queues, done, keep, ids) && k in queues
    requires ListsDroppedFrom(queues[k], keep, dropped)
    ensures ListsDropped(queues, done + {k}, keep, ids + dropped)
  {
  }

  function Position(q: seq<PendingRun>, id: RunId): (r: Option<nat>)
    ensures r.Some? ==> r.value < |q| && q[r.value].runId == id
    ensures r.None? ==> id !in Ids(q)
  {
    if q == [] then None
    else if q[0].runId == id then Some(0)
    else
      assert Ids(q) == [q[0].runId] + Ids(q[1..]);
      match Position(q[1..], id)
      case None => None
      case Some(i) => Some(i + 1)
  }

  lemma {:induction false} RetainOthers(q: seq<PendingRun>, id: RunId)
    requires id !in Ids(q)
    ensures Retain(q, OtherThan(id)) == q
  {
    if q != [] {
      var n := |q| - 1;
      assert Ids(q) == Ids(q[..n]) + [q[n].runId];
      RetainOthers(q[..n], id);
    }
  }

  lemma {:induction false} RetainWithoutOne(q: seq<PendingRun>, pos: nat, id: RunId)
    requires NoDup(Ids(q)) && pos < |q| && q[pos].runId == id
    ensures Retain(q, OtherThan(id)) == q[..pos] + q[pos + 1..]
  {
    var n := |q| - 1;
    assert Ids(q) == Ids(q[..n]) + [q[n].runId];
    NoDupConcat(Ids(q[..n]), [q[n].runId]);
    if pos == n {
      RetainOthers(q[..n], id);
    } else {
      RetainWithoutOne(q[..n], pos, id);
      assert Ids(q)[pos] != Ids(q)[n];
      assert q[pos + 1..] == q[..n][pos + 1..] + [q[n]];
    }
  }

  lemma NothingToRemove(s: Registry, id: RunId)
    requires !Pending(s, id)
    ensures RemovePending(s, id) == s
  {
    forall k | k in s.queues ensures Retain(s.queues[k], OtherThan(id)) == s.queues[k] {
      assert id !in QueuedIds(s, k);
      RetainOthers(s.queues[k], id);
    }
    assert RetainAll(s.queues, OtherThan(id)) == s.queues;
  }

  lemma RemovedAtIsRemovePending(env: Env, s: Registry, k: RepoKey, pos: nat, id: RunId)
    requires WellFormed(env, s)
    requires k in s.queues && pos < |s.queues[k]| && s.queues[k][pos].runId == id
    ensures RemovePending(s, id) == s.(queues := s.queues[k := s.queues[k][..pos] + s.queues[k][pos + 1..]])
  {
    assert QueuedIds(s, k)[pos] == id;
    assert NoDup(QueuedIds(s, k));
    RetainWithoutOne(s.queues[k], pos, id);
    forall k' | k' in s.queues && k' != k ensures Retain(s.queues[k'], OtherThan(id)) == s.queues[k'] {
      assert Disjoint(QueuedIds(s, k), QueuedIds(s, k'));
      assert id !in QueuedIds(s, k');
      RetainOthers(s.queues[k'], id);
    }
    assert RetainAll(s.queues, OtherThan(id)) == s.queues[k := s.queues[k][..pos] + s.queues[k][pos + 1..]];
  }

  /** Stopping runs reads neither the breaker counts nor anything derived from them. */
  lemma {:induction false} StopEachIgnoresFailures(env: Env, s: Registry, failures: map<RepoKey, nat>, ids: seq<RunId>, reason: string, now: Instant)
    ensures var (s1, b1) := StopEach(env, s, ids, reason, now);
      StopEach(env, s.(failures := failures), ids, reason, now) == (s1.(failures := failures), b1)
  {
    if ids != [] {
      StopEachIgnoresFailures(env, s, failures, ids[..|ids| - 1], reason, now);
    }
  }
}

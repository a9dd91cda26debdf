/** What one startup reconciliation amounts to for each run and each repository
    lock. Modelled on src/daemon/reconciler.rs. */
module Startup {
  import opened Prelude
  import opened RunModel
  import opened RegistrySpec
  import opened RegistrySystem
  import opened SessionCollisions
  import opened Reconciler

  /** The waiting runs whose plan or repository is gone. */
  ghost function Vanished(w: World, ps: seq<PendingRun>): set<RunId> {
    set p | p in ps && !(w.pathExists(p.planPath) && w.pathExists(p.repoDir)) :: p.runId
  }

  /** The runs that the reconciliation ends. */
  ghost function EndedAtStartup(w: World, t: Stages): set<RunId> {
    Failing(w, t.adopted, t.stale) + Listed(t.lost) + Vanished(w, t.seen)
  }

  /** Every run's repository stays what it is. */
  ghost predicate SameRepos(s: Registry, s': Registry) {
    s'.runs.Keys == s.runs.Keys && forall id :: id in s.runs ==> s'.runs[id].repoDir == s.runs[id].repoDir
  }

  lemma SameKeys(env: Env, s: Registry, s': Registry, ids: set<RunId>)
    requires SameRepos(s, s')
    ensures KeysOf(env, s'.runs, ids) == KeysOf(env, s.runs, ids)
  {
  }

  lemma KeysOfBoth(env: Env, runs: map<RunId, RunEntry>, a: set<RunId>, b: set<RunId>)
    ensures KeysOf(env, runs, a + b) == KeysOf(env, runs, a) + KeysOf(env, runs, b)
  {
  }

  // ── Each stage ─────────────────────────────────────────────────────

  lemma FailingConcat(w: World, s: Registry, ids: seq<RunId>)
    requires ids != []
    ensures var front, last := ids[..|ids| - 1], ids[|ids| - 1];
      Failing(w, s, ids) == if last in s.runs && FateOf(w, s.runs[last]) == ToFail then Failing(w, s, front) + {last} else Failing(w, s, front)
  {
    assert ids == ids[..|ids| - 1] + [ids[|ids| - 1]];
  }

  lemma ReviveOneLock(env: Env, w: World, s: Registry, s': Registry, id: RunId, now: Instant)
    requires id in s.runs && id in s'.runs && s'.runs[id] == s.runs[id] && Active(s.runs[id])
    ensures Revive(env, w, s', id, now).locks == s'.locks - if FateOf(w, s.runs[id]) == ToFail then KeysOf(env, s.runs, {id}) else {}
  {
    assert KeysOf(env, s.runs, {id}) == {RepoHash(env, s.runs[id].repoDir)};
  }

  lemma {:induction false} ReviveEachLocks(env: Env, w: World, s: Registry, ids: seq<RunId>, now: Instant)
    requires NoDup(ids) && forall x :: x in ids ==> x in s.runs && Active(s.runs[x])
    ensures ReviveEach(env, w, s, ids, now).locks == s.locks - KeysOf(env, s.runs, Failing(w, s, ids))
  {
    if ids != [] {
      var front, last := ids[..|ids| - 1], ids[|ids| - 1];
      assert ids == front + [last];
      NoDupConcat(front, [last]);
      ReviveEachLocks(env, w, s, front, now);
      ReviveEachRun(env, w, s, front, now, last);
      ReviveOneLock(env, w, s, ReviveEach(env, w, s, front, now), last, now);
      FailingConcat(w, s, ids);
      KeysOfBoth(env, s.runs, Failing(w, s, front), {last});
    }
  }

  /** What validation makes of run `id`. */
  ghost predicate FailedIfVanished(e: RunEntry, e': RunEntry, vanished: bool) {
    if vanished then e'.repoDir == e.repoDir && e'.status == Failed else e' == e
  }

  lemma VanishedConcat(w: World, ps: seq<PendingRun>)
    requires ps != []
    ensures var front, last := ps[..|ps| - 1], ps[|ps| - 1];
      Vanished(w, ps) == if Startable(w, last) then Vanished(w, front) else Vanished(w, front) + {last.runId}
  {
    assert ps == ps[..|ps| - 1] + [ps[|ps| - 1]];
  }

  lemma {:induction false} DropAllStatus(env: Env, w: World, s: Registry, ps: seq<PendingRun>, now: Instant, id: RunId)
    requires id in s.runs
    ensures var s' := DropAllVanished(env, w, s, ps, now);
      id in s'.runs && FailedIfVanished(s.runs[id], s'.runs[id], id in Vanished(w, ps))
  {
    if ps != [] {
      DropAllStatus(env, w, s, ps[..|ps| - 1], now, id);
      VanishedConcat(w, ps);
    }
  }

  lemma DropOneLock(env: Env, w: World, s: Registry, p: PendingRun, now: Instant)
    ensures DropVanished(env, w, s, p, now).locks == s.locks - if Startable(w, p) then {} else KeysOf(env, s.runs, {p.runId})
  {
    if p.runId in s.runs {
      assert KeysOf(env, s.runs, {p.runId}) == {RepoHash(env, s.runs[p.runId].repoDir)};
    }
  }

  lemma {:induction false} DropAllLocks(env: Env, w: World, s: Registry, ps: seq<PendingRun>, now: Instant)
    ensures var s' := DropAllVanished(env, w, s, ps, now);
      s'.locks == s.locks - KeysOf(env, s.runs, Vanished(w, ps)) && SameRepos(s, s')
  {
    if ps != [] {
      var front, last := ps[..|ps| - 1], ps[|ps| - 1];
      var s1 := DropAllVanished(env, w, s, front, now);
      DropAllLocks(env, w, s, front, now);
      VanishedConcat(w, ps);
      DropOneLock(env, w, s1, last, now);
      SameKeys(env, s, s1, {last.runId});
      KeysOfBoth(env, s.runs, Vanished(w, front), {last.runId});
    }
  }

  /** The status of a run after the reconciliation, from its entry after adoption. */
  ghost function StatusAfter(w: World, t: Stages, id: RunId): RunStatus
    requires id in t.adopted.runs
  {
    if id in Vanished(w, t.seen) || id in Failing(w, t.adopted, t.stale) then Failed
    else if id in t.lost then Stopped
    else if id in t.stale then Running
    else t.adopted.runs[id].status
  }

  lemma RevivedRun(env: Env, w: World, t: Stages, now: Instant, id: RunId)
    requires NoDup(t.stale) && (forall x :: x in t.stale <==> Stale(w, t.adopted, x))
    requires Listed(t.lost) == Losers(Revived(env, w, t, now).runs)
    requires id in t.adopted.runs
    ensures var r := Revived(env, w, t, now);
      && id in r.runs && r.runs[id].repoDir == t.adopted.runs[id].repoDir
      && (id in Failing(w, t.adopted, t.stale) ==> r.runs[id].status == Failed && id !in t.lost)
      && (id in t.stale && id !in Failing(w, t.adopted, t.stale) ==> r.runs[id].status == Running)
      && (id !in t.stale ==> r.runs[id] == t.adopted.runs[id])
  {
    ReviveEachRun(env, w, t.adopted, t.stale, now, id);
    assert id in t.lost <==> id in Losers(Revived(env, w, t, now).runs);
  }

  /** The fate of every run at startup. */
  lemma FateAtStartup(env: Env, w: World, s: Registry, t: Stages, s': Registry, now: Instant, id: RunId)
    requires Proceeds(env, w, s, t, s', now) && id in t.adopted.runs
    ensures id in s'.runs && s'.runs[id].repoDir == t.adopted.runs[id].repoDir && s'.runs[id].status == StatusAfter(w, t, id)
  {
    RevivedRun(env, w, t, now, id);
    StopEachFrame(env, Revived(env, w, t, now), t.lost, COLLISION, now);
    assert StoppedIfListed(Revived(env, w, t, now).runs[id], Resolved(env, w, t, now).runs[id], id in t.lost);
    DropAllStatus(env, w, Resolved(env, w, t, now), t.seen, now, id);
  }

  /** A run that startup has no cause to touch: it has ended, or waits in a queue,
      or a live session carries its name. */
  ghost predicate HasItsPlace(w: World, s: Registry, id: RunId)
    requires id in s.runs
  {
    var e := s.runs[id];
    || (e.status != Queued && e.status != Running)
    || (e.status == Queued && exists k :: id in QueuedIds(s, k))
    || ("gw-" + e.runId) in w.sessions || e.sessionName in w.sessions
  }

  /** Leaving collisions and vanished plans aside: such a run keeps its entry, and
      every other run is resumed, started afresh or failed by its checkpoint and
      its restart flag. */
  lemma EntryAtStartup(env: Env, w: World, s: Registry, t: Stages, s': Registry, now: Instant, id: RunId)
    requires Proceeds(env, w, s, t, s', now) && id in t.adopted.runs
    requires id !in t.lost && id !in Vanished(w, t.seen)
    ensures id in s'.runs
    ensures if HasItsPlace(w, t.adopted, id) then s'.runs[id] == t.adopted.runs[id] else TakenUp(w, t.adopted.runs[id], s'.runs[id])
  {
    ReviveTakesUp(env, w, t.adopted, t.stale, now);
    assert id in t.stale <==> LeftBehind(w, t.adopted, id);
    StopEachFrame(env, Revived(env, w, t, now), t.lost, COLLISION, now);
    assert StoppedIfListed(Revived(env, w, t, now).runs[id], Resolved(env, w, t, now).runs[id], id in t.lost);
    DropAllStatus(env, w, Resolved(env, w, t, now), t.seen, now, id);
  }

  lemma {:induction false} DropAllQueues(env: Env, w: World, s: Registry, ps: seq<PendingRun>, now: Instant, k: RepoKey, p: PendingRun)
    ensures p in QueueOf(DropAllVanished(env, w, s, ps, now).queues, k) <==> p in QueueOf(s.queues, k) && p.runId !in Vanished(w, ps)
  {
    if ps != [] {
      var front, last := ps[..|ps| - 1], ps[|ps| - 1];
      DropAllQueues(env, w, s, front, now, k, p);
      VanishedConcat(w, ps);
      RetainMembers(QueueOf(DropAllVanished(env, w, s, front, now).queues, k), OtherThan(last.runId));
    }
  }

  /** A run still waits after startup exactly if it waited before and its plan and
      its repository exist. */
  lemma WaitsAfterStartup(env: Env, w: World, s: Registry, t: Stages, s': Registry, now: Instant, k: RepoKey, p: PendingRun)
    requires Proceeds(env, w, s, t, s', now) && UniqueIds(s)
    ensures p in QueueOf(s'.queues, k) <==> p in QueueOf(s.queues, k) && w.pathExists(p.planPath) && w.pathExists(p.repoDir)
  {
    QueuesUntouched(env, w, t, now);
    DropAllQueues(env, w, Resolved(env, w, t, now), t.seen, now, k, p);
    if p in QueueOf(s.queues, k) {
      assert p in t.seen;
      forall q | q in t.seen && q.runId == p.runId ensures q == p {
        var j :| j in t.adopted.queues && q in t.adopted.queues[j];
        OneOfItsId(s, k, p, j, q);
      }
    }
  }

  lemma OneOfItsId(s: Registry, k: RepoKey, p: PendingRun, j: RepoKey, q: PendingRun)
    requires UniqueIds(s) && p in QueueOf(s.queues, k) && q in QueueOf(s.queues, j) && p.runId == q.runId
    ensures p == q
  {
    IdsMember(QueueOf(s.queues, k), p);
    IdsMember(QueueOf(s.queues, j), q);
    assert j != k ==> Disjoint(QueuedIds(s, k), QueuedIds(s, j));
    var a :| 0 <= a < |QueueOf(s.queues, k)| && QueueOf(s.queues, k)[a] == p;
    var b :| 0 <= b < |QueueOf(s.queues, j)| && QueueOf(s.queues, j)[b] == q;
    assert NoDup(QueuedIds(s, k));
    assert QueuedIds(s, k)[a] == p.runId && QueuedIds(s, j)[b] == q.runId;
  }

  lemma NoRunAppears(env: Env, w: World, s: Registry, t: Stages, s': Registry, now: Instant)
    requires Proceeds(env, w, s, t, s', now)
    ensures s'.runs.Keys == t.adopted.runs.Keys
  {
    ReviveEachShape(env, w, t.adopted, t.stale, now);
    StopEachShape(env, Revived(env, w, t, now), t.lost, COLLISION, now);
    DropAllRun(env, w, Resolved(env, w, t, now), t.seen, now, "");
  }

  // ── Ended runs ─────────────────────────────────────────────────────

  /** Session `i` brings run `x` back. */
  ghost predicate BroughtBack(env: Env, w: World, t: Stages, i: nat, x: RunId)
    requires |t.between| == |t.fates| + 1 && |t.fates| <= |w.sessions| && i < |t.fates|
  {
    ComesBack(env, w, t.between[i], w.sessions[i], x)
  }

  lemma {:induction false} BackAmongFirst(env: Env, w: World, s: Registry, t: Stages, n: nat, x: RunId)
    requires Scans(env, w, s, t.adopted, t.between, t.fates) && n <= |t.fates|
    requires x in s.runs && s.runs[x].status.IsTerminal()
    ensures x in t.between[n].runs
    ensures Active(t.between[n].runs[x]) <==> exists i: nat :: i < n && BroughtBack(env, w, t, i, x)
  {
    if n > 0 {
      BackAmongFirst(env, w, s, t, n - 1, x);
      assert FateFits(env, w, t.between[n - 1], t.between[n], w.sessions[n - 1], t.fates[n - 1]);
      if Active(t.between[n - 1].runs[x]) {
        var i: nat :| i < n - 1 && BroughtBack(env, w, t, i, x);
        assert Active(t.between[n].runs[x]);
      } else {
        EndedRunAdoptedIff(env, w, t.between[n - 1], t.between[n], w.sessions[n - 1], t.fates[n - 1], x);
        assert BroughtBack(env, w, t, n - 1, x) <==> Active(t.between[n].runs[x]);
      }
    }
  }

  /** A run that had ended is active after startup if and only if some scanned
      session brought it back and the reconciliation did not end it again. */
  lemma EndedRunActiveIff(env: Env, w: World, s: Registry, t: Stages, s': Registry, now: Instant, x: RunId)
    requires Proceeds(env, w, s, t, s', now) && x in s.runs && s.runs[x].status.IsTerminal()
    ensures x in s'.runs
    ensures Active(s'.runs[x]) <==> (exists i: nat :: i < |t.fates| && BroughtBack(env, w, t, i, x)) && x !in EndedAtStartup(w, t)
  {
    BackAmongFirst(env, w, t.locked, t, |t.fates|, x);
    FateAtStartup(env, w, s, t, s', now, x);
  }

  /** With every meta.json in its own directory an ended run stays ended. */
  lemma EndedStaysEnded(env: Env, w: World, s: Registry, t: Stages, s': Registry, now: Instant, x: RunId)
    requires Proceeds(env, w, s, t, s', now) && MetaFiled(w) && x in s.runs && s.runs[x].status.IsTerminal()
    ensures x in s'.runs && s'.runs[x].status.IsTerminal()
  {
    EndedRunActiveIff(env, w, s, t, s', now, x);
    FiledAdoption(env, w, t.locked, t.adopted);
    FateAtStartup(env, w, s, t, s', now, x);
  }

  // ── Runs left queued ───────────────────────────────────────────────

  lemma OutOfQueueNotVanished(w: World, s: Registry, t: Stages, x: RunId)
    requires t.adopted.queues == s.queues && !Pending(s, x)
    requires forall p :: p in t.seen <==> exists k :: k in t.adopted.queues && p in t.adopted.queues[k]
    ensures !Pending(t.adopted, x) && x !in Vanished(w, t.seen)
  {
    forall k ensures x !in QueuedIds(t.adopted, k) {
      assert QueuedIds(t.adopted, k) == QueuedIds(s, k);
    }
    forall p | p in t.seen ensures p.runId != x {
      var k :| k in t.adopted.queues && p in t.adopted.queues[k];
      IdsMember(QueueOf(t.adopted.queues, k), p);
      assert x !in QueuedIds(t.adopted, k);
    }
  }

  lemma OutOfQueueStatus(w: World, t: Stages, x: RunId)
    requires forall id :: id in t.stale <==> Stale(w, t.adopted, id)
    requires x in t.adopted.runs && !Pending(t.adopted, x) && x !in Vanished(w, t.seen) && !NamedByLive(w, t.adopted.runs[x])
    requires t.adopted.runs[x].status == Queued
    ensures x in t.stale
    ensures var e := t.adopted.runs[x];
      StatusAfter(w, t, x) == if !w.hasCheckpoint(e.repoDir) && !e.restartable then Failed else if x in t.lost then Stopped else Running
  {
    assert Stale(w, t.adopted, x);
  }

  /** A run left queued, in no queue and without a live session, does not stay so
      past a startup. Unless a misfiled meta.json replaces it, it is marked running
      for the monitor to recover if it has a checkpoint or may restart, and failed
      otherwise; or a collision stops it. */
  lemma LeftQueuedEnds(env: Env, w: World, s: Registry, t: Stages, s': Registry, now: Instant, x: RunId)
    requires Proceeds(env, w, s, t, s', now)
    requires x in s.runs && s.runs[x].status == Queued && !Pending(s, x) && ("gw-" + s.runs[x].runId) !in w.sessions && s.runs[x].sessionName !in w.sessions
    ensures x in t.adopted.runs && x in s'.runs && s'.runs[x].status != Queued
    ensures MetaFiled(w) ==> t.adopted.runs[x] == s.runs[x]
    ensures t.adopted.runs[x] == s.runs[x] ==>
      s'.runs[x].status == if !w.hasCheckpoint(s.runs[x].repoDir) && !s.runs[x].restartable then Failed else if x in t.lost then Stopped else Running
  {
    OutOfQueueNotVanished(w, s, t, x);
    FateAtStartup(env, w, s, t, s', now, x);
    if t.adopted.runs[x] == s.runs[x] {
      OutOfQueueStatus(w, t, x);
    } else {
      var id :| id != x && TakenBy(env, w, t.adopted, x, id);
      assert id in w.meta && w.meta[id].runId != id;
    }
  }

  // ── Locks ──────────────────────────────────────────────────────────

  /** The repositories of the adopted runs. */
  ghost function AdoptedKeys(env: Env, w: World, fates: seq<Fate>): set<RepoKey> {
    set i: nat | i < |fates| && fates[i].AdoptedAs? && fates[i].id in w.meta :: RepoHash(env, w.meta[fates[i].id].repoDir)
  }

  lemma {:induction false} ScannedLocks(env: Env, w: World, s: Registry, t: Stages, n: nat)
    requires Scans(env, w, s, t.adopted, t.between, t.fates) && n <= |t.fates|
    ensures t.between[n].locks == s.locks + AdoptedKeys(env, w, t.fates[..n])
  {
    if n > 0 {
      ScannedLocks(env, w, s, t, n - 1);
      var front, last := t.fates[..n - 1], t.fates[n - 1];
      assert FateFits(env, w, t.between[n - 1], t.between[n], w.sessions[n - 1], last);
      assert t.fates[..n] == front + [last];
      AdoptedKeysConcat(env, w, front, last);
    }
  }

  lemma AdoptedKeysConcat(env: Env, w: World, fates: seq<Fate>, last: Fate)
    ensures AdoptedKeys(env, w, fates + [last]) ==
      AdoptedKeys(env, w, fates) + if last.AdoptedAs? && last.id in w.meta then {RepoHash(env, w.meta[last.id].repoDir)} else {}
  {
    var all := fates + [last];
    forall k | k in AdoptedKeys(env, w, fates) ensures k in AdoptedKeys(env, w, all) {
      var i: nat :| i < |fates| && fates[i].AdoptedAs? && fates[i].id in w.meta && k == RepoHash(env, w.meta[fates[i].id].repoDir);
      assert all[i] == fates[i];
    }
    assert all[|fates|] == last;
  }

  /** The lock account of a startup: to the locks held before, those of running
      runs whose lock file is free and those of adopted runs are added; those of
      every run that the reconciliation ends are taken away, whoever held them. */
  lemma LockAccount(env: Env, w: World, s: Registry, t: Stages, s': Registry, now: Instant)
    requires Proceeds(env, w, s, t, s', now)
    ensures t.adopted.locks == s.locks + KeysOf(env, s.runs, Holders(w, s)) + AdoptedKeys(env, w, t.fates)
    ensures s'.locks == t.adopted.locks - KeysOf(env, t.adopted.runs, EndedAtStartup(w, t))
  {
    ScannedLocks(env, w, t.locked, t, |t.fates|);
    assert t.fates[..|t.fates|] == t.fates;
    ReviveEachLocks(env, w, t.adopted, t.stale, now);
    StopEachLocks(env, Revived(env, w, t, now), t.lost, COLLISION, now);
    DropAllLocks(env, w, Resolved(env, w, t, now), t.seen, now);
    ReposKept(env, w, t, now);
    SameKeys(env, t.adopted, Revived(env, w, t, now), Listed(t.lost));
    SameKeys(env, t.adopted, Resolved(env, w, t, now), Vanished(w, t.seen));
    KeysOfEnded(env, w, t);
  }

  lemma KeysOfEnded(env: Env, w: World, t: Stages)
    ensures KeysOf(env, t.adopted.runs, EndedAtStartup(w, t)) ==
      KeysOf(env, t.adopted.runs, Failing(w, t.adopted, t.stale)) + KeysOf(env, t.adopted.runs, Listed(t.lost))
      + KeysOf(env, t.adopted.runs, Vanished(w, t.seen))
  {
  }

  lemma ReposKept(env: Env, w: World, t: Stages, now: Instant)
    requires NoDup(t.stale) && (forall x :: x in t.stale <==> Stale(w, t.adopted, x))
    requires Listed(t.lost) == Losers(Revived(env, w, t, now).runs)
    ensures SameRepos(t.adopted, Revived(env, w, t, now)) && SameRepos(t.adopted, Resolved(env, w, t, now))
  {
    ReviveEachShape(env, w, t.adopted, t.stale, now);
    StopEachFrame(env, Revived(env, w, t, now), t.lost, COLLISION, now);
    forall id | id in t.adopted.runs
      ensures Revived(env, w, t, now).runs[id].repoDir == t.adopted.runs[id].repoDir == Resolved(env, w, t, now).runs[id].repoDir
    {
      RevivedRun(env, w, t, now, id);
      assert StoppedIfListed(Revived(env, w, t, now).runs[id], Resolved(env, w, t, now).runs[id], id in t.lost);
    }
  }

  ghost predicate SharesWithEnded(env: Env, w: World, t: Stages, id: RunId)
    requires id in t.adopted.runs
  {
    exists x :: x in EndedAtStartup(w, t) && x in t.adopted.runs && RepoHash(env, t.adopted.runs[x].repoDir) == RepoHash(env, t.adopted.runs[id].repoDir)
  }

  /** A run that was running after adoption has its repository locked then, unless
      another process has the lock file. */
  lemma RunningHasLock(env: Env, w: World, s: Registry, t: Stages, s': Registry, now: Instant, id: RunId)
    requires Proceeds(env, w, s, t, s', now)
    requires id in t.adopted.runs && t.adopted.runs[id].status == Running && w.lockFree(t.adopted.runs[id].repoDir)
    ensures RepoHash(env, t.adopted.runs[id].repoDir) in t.adopted.locks
  {
    if id in s.runs && t.adopted.runs[id] == s.runs[id] {
      assert id in Holders(w, s);
    } else {
      var from :| TakenBy(env, w, t.adopted, id, from);
    }
  }

  /** Exactly which running runs are left without a lock, so that a new run can
      register beside them: those of a repository of a run the reconciliation
      ended, and those that were stale and queued while nobody had the lock. The
      latter are marked running without taking it. */
  lemma RunningUnlockedIff(env: Env, w: World, s: Registry, t: Stages, s': Registry, now: Instant, id: RunId)
    requires Proceeds(env, w, s, t, s', now)
    requires id in s'.runs && s'.runs[id].status == Running && w.lockFree(s'.runs[id].repoDir)
    ensures id in t.adopted.runs
    ensures CanAcquire(env, s', s'.runs[id].repoDir, true) <==>
      || SharesWithEnded(env, w, t, id)
      || (t.adopted.runs[id].status == Queued && id in t.stale && RepoHash(env, s'.runs[id].repoDir) !in t.adopted.locks)
  {
    NoRunAppears(env, w, s, t, s', now);
    FateAtStartup(env, w, s, t, s', now, id);
    LockAccount(env, w, s, t, s', now);
    var k := RepoHash(env, t.adopted.runs[id].repoDir);
    assert k in KeysOf(env, t.adopted.runs, EndedAtStartup(w, t)) <==> SharesWithEnded(env, w, t, id);
    if t.adopted.runs[id].status == Running {
      RunningHasLock(env, w, s, t, s', now, id);
    }
  }

  // ── Startups that do it ────────────────────────────────────────────

  /** A registration cut short by a crash, alone in its repository and with no
      session alive: if it has a checkpoint or may restart, it is running after
      startup, yet a new run can take its repository. */
  lemma RevivedWithoutLock(env: Env, w: World, s: Registry, t: Stages, s': Registry, now: Instant, x: RunId)
    requires Proceeds(env, w, s, t, s', now) && w.sessions == [] && s.locks == {}
    requires x in s.runs && s.runs[x].status == Queued && s.runs[x].sessionName == SessionFor(x) && !Pending(s, x)
    requires (w.hasCheckpoint(s.runs[x].repoDir) || s.runs[x].restartable) && w.lockFree(s.runs[x].repoDir)
    requires forall y :: y in s.runs && y != x ==> RepoHash(env, s.runs[y].repoDir) != RepoHash(env, s.runs[x].repoDir)
    ensures x in s'.runs && s'.runs[x].status == Running
    ensures CanAcquire(env, s', s.runs[x].repoDir, true)
  {
    assert t.adopted.runs == s.runs;
    LeftQueuedEnds(env, w, s, t, s', now, x);
    OwnNameNotLost(env, w, t, now, x);
    FateAtStartup(env, w, s, t, s', now, x);
    LockAccount(env, w, s, t, s', now);
    assert AdoptedKeys(env, w, t.fates) == {};
    assert x !in Holders(w, s);
    assert RepoHash(env, s.runs[x].repoDir) !in KeysOf(env, s.runs, Holders(w, s));
  }

  /** A run that carries its own session name loses no collision. */
  lemma OwnNameNotLost(env: Env, w: World, t: Stages, now: Instant, x: RunId)
    requires NoDup(t.stale) && (forall id :: id in t.stale <==> Stale(w, t.adopted, id))
    requires Listed(t.lost) == Losers(Revived(env, w, t, now).runs)
    requires x in t.adopted.runs && t.adopted.runs[x].sessionName == SessionFor(x)
    ensures x !in t.lost
  {
    ReviveEachRun(env, w, t.adopted, t.stale, now, x);
    assert Revived(env, w, t, now).runs[x].sessionName == SessionFor(x);
    forall c | SessionFor(x) == SessionFor(c) ensures c == x {
      SessionForInjective(x, c);
    }
    assert x in t.lost <==> x in Losers(Revived(env, w, t, now).runs);
  }

  const ENDED := FreshEntry("b", "p", "repo", None, None, None, 0).(status := Succeeded)
  const AFTER_B := EMPTY.(runs := map["b" := ENDED])

  /** The session of run `a` is alive, but the meta.json in its directory is that
      of run `b`, which has ended. */
  const MISFILED := World(["gw-a"], map["a" := ENDED], (p: Path) => None, true, (p: Path) => true, (p: Path) => false, (p: Path) => true)

  /** However the session is processed, it is adopted and run `b` is running again. */
  lemma MisfiledSessionAdopted(s': Registry, fate: Fate)
    requires FateFits(PLAIN, MISFILED, AFTER_B, s', "gw-a", fate)
    ensures fate == AdoptedAs("a") && "b" in s'.runs && s'.runs["b"] == AdoptedEntry(ENDED, "gw-a")
  {
    assert SessionFor("a") == "gw-a";
    assert SessionFor("b") == "gw-b" && "gw-b"[3] == 'b' && "gw-a"[3] == 'a';
    assert NobodyNamed(AFTER_B, "gw-a");
    assert CanAdopt(PLAIN, MISFILED, AFTER_B, "a");
    assert OrphanAdoptable(PLAIN, MISFILED, AFTER_B, "gw-a");
    if fate.AdoptedAs? {
      SessionForInjective(fate.id, "a");
    }
  }

  lemma MisfiledScan(t: Stages, s': Registry, now: Instant)
    requires Proceeds(PLAIN, MISFILED, AFTER_B, t, s', now)
    ensures "b" in t.adopted.runs && t.adopted.runs["b"] == AdoptedEntry(ENDED, "gw-a") && forall p :: p !in t.seen
  {
    assert KeysOf(PLAIN, AFTER_B.runs, Holders(MISFILED, AFTER_B)) == {};
    assert t.locked == AFTER_B;
    assert FateFits(PLAIN, MISFILED, t.between[0], t.between[1], MISFILED.sessions[0], t.fates[0]);
    MisfiledSessionAdopted(t.adopted, t.fates[0]);
  }

  /** And it is running after every startup that finds this. */
  lemma MisfiledRunComesBack(t: Stages, s': Registry, now: Instant)
    requires Proceeds(PLAIN, MISFILED, AFTER_B, t, s', now)
    ensures AFTER_B.runs["b"].status == Succeeded && "b" in s'.runs && s'.runs["b"].status == Running
  {
    MisfiledScan(t, s', now);
    FateAtStartup(PLAIN, MISFILED, AFTER_B, t, s', now, "b");
    assert SessionFor("b") == "gw-b";
    OwnNameNotLost(PLAIN, MISFILED, t, now, "b");
  }
}

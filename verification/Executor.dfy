/** What the daemon does with the queue when a run completes. Modelled on
    src/daemon/executor.rs. */
module Executor {
  import opened Prelude
  import opened RunModel
  import opened RegistrySpec
  import opened RegistrySystem
  import opened RegistryMeaning
  import opened RunRegistryClass
  import opened QueueHistory

  lemma CompletionKeepsWellFormed(env: Env, s: Registry, repo: Path, failed: bool, now: Instant)
    requires WellFormed(env, s)
    ensures WellFormed(env, AfterCompletion(env, s, repo, failed, now).0)
  {
    if failed {
      FailureKeepsWellFormed(env, s, repo, now);
    } else {
      QuietActionKeepsWellFormed(env, s, SpawnSucceeded(repo));
    }
  }

  /** From a well-formed registry a completed run hands out nothing exactly when,
      after the breaker has been told, nothing waits anywhere; a run of the same
      repository is preferred, and the first of its queue is taken. */
  lemma CompletionDrains(env: Env, s: Registry, repo: Path, failed: bool, now: Instant)
    requires WellFormed(env, s)
    ensures var s1 := AfterCompletion(env, s, repo, failed, now).0;
      var (s2, next) := DrainOwnOrAny(env, s1, repo);
      && WellFormed(env, s2)
      && (next.None? <==> forall k :: QueueOf(s1.queues, k) == [])
      && (QueueOf(s1.queues, RepoHash(env, repo)) != [] ==> next == Some(QueueOf(s1.queues, RepoHash(env, repo))[0]))
  {
    CompletionKeepsWellFormed(env, s, repo, failed, now);
    var s1 := AfterCompletion(env, s, repo, failed, now).0;
    DrainEmptyWhenNothingWaits(env, s1, repo);
    StepKeepsWellFormed(env, s1, Drain(repo));
    StepKeepsWellFormed(env, s1, DrainFirstReady);
    if DrainNext(env, s1, repo).1.None? {
      assert DrainNext(env, s1, repo).0 == s1;
    }
  }

  /** The breaker has been told how a run of `repo` ended. */
  ghost predicate Tells(env: Env, s: Registry, told: Registry, repo: Path, failed: bool) {
    if failed then CountsFailure(s, told, RepoHash(env, repo)) else told == s.(failures := s.failures - {RepoHash(env, repo)})
  }

  /** The head of the own queue if it can be drained, else of the first that can. */
  ghost predicate DrainsOwnFirst(env: Env, s: Registry, s': Registry, repo: Path, next: Option<PendingRun>) {
    if CanBeDrained(s, RepoHash(env, repo)) then next.Some? && PopsHead(s, s', RepoHash(env, repo), next.value)
    else DrainsFirst(s, s', next)
  }

  ghost predicate Completes(env: Env, s: Registry, s': Registry, repo: Path, failed: bool, next: Option<PendingRun>) {
    exists told, drained :: Tells(env, s, told, repo, failed) && DrainsOwnFirst(env, told, drained, repo, next)
                            && s' == drained.(queueEpoch := drained.queueEpoch + 1)
  }

  lemma CompletionPromise(env: Env, s: Registry, repo: Path, failed: bool, now: Instant)
    ensures var (s', next) := Completed(env, s, repo, failed, now); Completes(env, s, s', repo, failed, next)
  {
    var told := AfterCompletion(env, s, repo, failed, now).0;
    FailurePromise(env, s, repo, now);
    assert Tells(env, s, told, repo, failed);
    var (drained, next) := DrainOwnOrAny(env, told, repo);
    DrainAnyPromise(told);
    assert DrainsOwnFirst(env, told, drained, repo, next);
  }

  lemma RecoveryEnds(env: Env, s: Registry, p: PendingRun, reason: string, now: Instant)
    requires p.runId in s.runs
    ensures var s' := Recovery(env, s, p, reason, now).0; p.runId in s'.runs && s'.runs[p.runId].status.IsTerminal()
  {
    TripFrame(env, StageStatus(env, s, p.runId, Failed, None, Some(reason), now).0, RepoHash(env, p.repoDir), now);
  }

  /** The next run after a recovery is one of the same repository, or none. */
  ghost predicate Recovers(env: Env, s: Registry, s': Registry, p: PendingRun, reason: string, now: Instant, outcome: StageOutcome, retry: Option<PendingRun>) {
    exists failed, told, drained ::
      && Stages(env, s, failed, p.runId, Failed, None, Some(reason), now, outcome)
      && Tells(env, failed, told, p.repoDir, true)
      && (retry.Some? <==> CanBeDrained(told, RepoHash(env, p.repoDir)))
      && (if retry.Some? then PopsHead(told, drained, RepoHash(env, p.repoDir), retry.value) else drained == told)
      && s' == drained.(queueEpoch := drained.queueEpoch + 1)
  }

  lemma RecoveryPromise(env: Env, s: Registry, p: PendingRun, reason: string, now: Instant)
    ensures var (s', retry) := Recovery(env, s, p, reason, now);
      Recovers(env, s, s', p, reason, now, StageStatus(env, s, p.runId, Failed, None, Some(reason), now).1, retry)
  {
    var (failed, outcome) := StageStatus(env, s, p.runId, Failed, None, Some(reason), now);
    StagePromise(env, s, p.runId, Failed, None, Some(reason), now);
    FailurePromise(env, failed, p.repoDir, now);
    var told := Blamed(env, s, p, reason, now);
    assert Tells(env, failed, told, p.repoDir, true);
    var (drained, retry) := DrainNext(env, told, p.repoDir);
    assert retry.Some? ==> PopsHead(told, drained, RepoHash(env, p.repoDir), retry.value);
    assert retry.None? ==> drained == told;
  }

  /** The multi-mutation step under the registry mutex: tell the breaker, drain,
      and take one snapshot, whatever has happened in between. */
  method DrainIfAvailable(reg: RunRegistry, repo: Path, failed: bool, now: Instant)
    returns (batch: seq<RunEntry>, next: Option<PendingRun>, snapshot: QueueSnapshot)
    modifies reg
    ensures (reg.View(), next) == Completed(reg.env, old(reg.View()), repo, failed, now)
    ensures batch == AfterCompletion(reg.env, old(reg.View()), repo, failed, now).1
    ensures snapshot == QueueSnapshot(WireOf(reg.View()), reg.queueEpoch)
    ensures Completes(reg.env, old(reg.View()), reg.View(), repo, failed, next)
  {
    CompletionPromise(reg.env, reg.View(), repo, failed, now);
    batch := [];
    if failed {
      batch := reg.RecordQueueFailureWithoutSnapshot(repo, now);
    } else {
      reg.RecordQueueSuccessWithoutSnapshot(repo);
    }
    next := reg.DrainNextWithoutSnapshot(repo);
    if next.None? {
      next := reg.DrainAnyReadyWithoutSnapshot();
    }
    snapshot := reg.StageQueueLocked();
  }

  /** After a drained run could not be spawned: mark it failed, tell the breaker,
      and take the next run of the same repository, again with one snapshot. */
  method RecoverFromFailedSpawn(reg: RunRegistry, pending: PendingRun, reason: string, now: Instant)
    returns (failed: StageOutcome, batch: seq<RunEntry>, retry: Option<PendingRun>, snapshot: QueueSnapshot)
    modifies reg
    ensures (reg.View(), retry) == Recovery(reg.env, old(reg.View()), pending, reason, now)
    ensures var (s1, outcome) := StageStatus(reg.env, old(reg.View()), pending.runId, Failed, None, Some(reason), now);
      failed == outcome && batch == RecordFailure(reg.env, s1, pending.repoDir, now).1
    ensures snapshot == QueueSnapshot(WireOf(reg.View()), reg.queueEpoch)
    ensures pending.runId in old(reg.runs) ==> pending.runId in reg.runs && reg.runs[pending.runId].status.IsTerminal()
    ensures Recovers(reg.env, old(reg.View()), reg.View(), pending, reason, now, failed, retry)
  {
    RecoveryPromise(reg.env, reg.View(), pending, reason, now);
    if pending.runId in reg.runs {
      RecoveryEnds(reg.env, reg.View(), pending, reason, now);
    }
    failed := reg.StageStatusLocked(pending.runId, Failed, None, Some(reason), now);
    batch := reg.RecordQueueFailureWithoutSnapshot(pending.repoDir, now);
    retry := reg.DrainNextWithoutSnapshot(pending.repoDir);
    snapshot := reg.StageQueueLocked();
  }
}

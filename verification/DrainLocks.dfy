/** Repository locks while drained runs are launched: which steps of the drain's
    tasks let two runs own one repository. Modelled on src/daemon/executor.rs. */
module DrainLocks {
  import opened Prelude
  import opened RunModel
  import opened RegistrySpec
  import opened RegistrySystem
  import opened RunLifecycle
  import opened RepoLocks
  import opened DrainTasks

  /** The run, if any, that the step gives its repository's lock to. */
  ghost function GrantedBy(env: Env, s: System, step: Step): set<RunId>
    requires CanStep(env, s, step)
  {
    match step
    case TryPromote(t, osFree, writeOk, now) => Granted(env, s.reg, PromoteRun(s.tasks[t].run.runId, osFree, writeOk, now))
    case Elsewhere(a) => Granted(env, s.reg, a)
    case _ => {}
  }

  /** The runs that the step gives a terminal status, known before it is taken. */
  ghost function FinishedBy(env: Env, s: System, step: Step): set<RunId>
    requires CanStep(env, s, step)
  {
    match step
    case Complete(_, repo, failed, now) => if failed then Finished(env, s.reg, SpawnFailed(repo, now)) else {}
    case FailLaunch(t, _, _) => {s.tasks[t].run.runId}
    case Recover(t, _, _, now) => {s.tasks[t].run.runId} + Finished(env, s.reg, SpawnFailed(s.tasks[t].run.repoDir, now))
    case Elsewhere(a) => Finished(env, s.reg, a)
    case _ => {}
  }

  ghost function OwnersNext(env: Env, s: System, owners: set<RunId>, step: Step): set<RunId>
    requires CanStep(env, s, step)
  {
    owners - FinishedBy(env, s, step) + GrantedBy(env, s, step)
  }

  // ── What a step does to locks and statuses ─────────────────────────

  lemma ReleasesTwice(env: Env, a: Registry, b: Registry, c: Registry, first: set<RunId>, second: set<RunId>)
    requires Releases(env, a, b, first) && Releases(env, b, c, second) && b.runs.Keys == a.runs.Keys
    ensures Releases(env, a, c, first + second)
  {
    assert forall x :: x in a.runs ==> x in b.runs && StaysOrEnds(a.runs[x], b.runs[x], x in first);
    assert KeysOf(env, a.runs, first + second) == KeysOf(env, a.runs, first) + KeysOf(env, b.runs, second);
    forall x | x in a.runs ensures x in c.runs && StaysOrEnds(a.runs[x], c.runs[x], x in first + second) {
      assert StaysOrEnds(b.runs[x], c.runs[x], x in second);
    }
  }

  /** Queues, counts and the epoch are not locks. */
  lemma SameRunsRelease(env: Env, s: Registry, s': Registry)
    requires s'.runs == s.runs && s'.locks == s.locks
    ensures Releases(env, s, s', {})
  {
  }

  lemma FailureReleases(env: Env, s: Registry, repo: Path, now: Instant)
    ensures Releases(env, s, RecordFailure(env, s, repo, now).0, Finished(env, s, SpawnFailed(repo, now)))
    ensures RecordFailure(env, s, repo, now).0.runs.Keys == s.runs.Keys
  {
    ActionReleases(env, s, SpawnFailed(repo, now));
    FailureShrinks(env, s, repo, now);
  }

  lemma FailedRunReleases(env: Env, s: Registry, id: RunId, reason: string, now: Instant)
    ensures var s' := StageStatus(env, s, id, Failed, None, Some(reason), now).0;
      Releases(env, s, s', {id}) && s'.runs.Keys == s.runs.Keys && s'.queues == s.queues && s'.failures == s.failures
  {
    OneLockFreed(env, s, id, Failed, None, Some(reason), now);
    KnownKeys(env, s.runs, {id});
  }

  lemma CompletedReleases(env: Env, s: Registry, repo: Path, failed: bool, now: Instant)
    ensures Releases(env, s, Completed(env, s, repo, failed, now).0, if failed then Finished(env, s, SpawnFailed(repo, now)) else {})
  {
    var s1 := AfterCompletion(env, s, repo, failed, now).0;
    DrainShrinks(env, s1, repo);
    var s2 := Completed(env, s, repo, failed, now).0;
    SameRunsRelease(env, s1, s2);
    if failed {
      FailureReleases(env, s, repo, now);
      var finished := Finished(env, s, SpawnFailed(repo, now));
      ReleasesTwice(env, s, s1, s2, finished, {});
      assert finished + {} == finished;
    }
  }

  lemma RecoveryReleases(env: Env, s: Registry, p: PendingRun, reason: string, now: Instant)
    ensures Releases(env, s, Recovery(env, s, p, reason, now).0, {p.runId} + Finished(env, s, SpawnFailed(p.repoDir, now)))
  {
    var s1 := StageStatus(env, s, p.runId, Failed, None, Some(reason), now).0;
    var s2, s3 := Blamed(env, s, p, reason, now), Recovery(env, s, p, reason, now).0;
    var finished := Finished(env, s, SpawnFailed(p.repoDir, now));
    FailedRunReleases(env, s, p.runId, reason, now);
    assert Finished(env, s1, SpawnFailed(p.repoDir, now)) == finished;
    FailureReleases(env, s1, p.repoDir, now);
    ReleasesTwice(env, s, s1, s2, {p.runId}, finished);
    PopShrinks(s2, RepoHash(env, p.repoDir));
    SameRunsRelease(env, s2, s3);
    ReleasesTwice(env, s, s2, s3, {p.runId} + finished, {});
    assert {p.runId} + finished + {} == {p.runId} + finished;
  }

  lemma LaunchReleases(env: Env, s: Registry, id: RunId, now: Instant)
    ensures Releases(env, s, Launch(env, s, id, now).0, {})
  {
    if id in s.runs {
      assert Launch(env, s, id, now).0.locks == s.locks;
    }
  }

  lemma StepMoves(env: Env, s: System, step: Step)
    requires CanStep(env, s, step)
    ensures Moves(env, s.reg, Next(env, s, step).reg, FinishedBy(env, s, step), GrantedBy(env, s, step))
  {
    match step
    case Complete(_, repo, failed, now) => CompletedReleases(env, s.reg, repo, failed, now);
    case Preflight(_, _) => SameRunsRelease(env, s.reg, s.reg);
    case TryPromote(t, osFree, writeOk, now) => ActionMoves(env, s.reg, PromoteRun(s.tasks[t].run.runId, osFree, writeOk, now));
    case FailLaunch(t, reason, now) => FailedRunReleases(env, s.reg, s.tasks[t].run.runId, reason, now);
    case FinishLaunch(t, _, now) => LaunchReleases(env, s.reg, s.tasks[t].run.runId, now);
    case Recover(t, _, reason, now) => RecoveryReleases(env, s.reg, s.tasks[t].run, reason, now);
    case Elsewhere(a) => ActionMoves(env, s.reg, a);
  }

  // ── Exclusion ──────────────────────────────────────────────────────

  /** The step does not finish a run under another owner's lock. */
  ghost predicate SparesOwners(env: Env, s: System, owners: set<RunId>, step: Step) {
    CanStep(env, s, step) && OwnersFinish(env, s.reg, owners, FinishedBy(env, s, step))
  }

  /** A step keeps locks exclusive if and only if, for each run it finishes,
      whoever owns the lock of that run's repository is finished by it too. */
  lemma DrainStepKeepsExclusive(env: Env, s: System, owners: set<RunId>, step: Step)
    requires Exclusive(env, s.reg, owners) && CanStep(env, s, step)
    ensures Exclusive(env, Next(env, s, step).reg, OwnersNext(env, s, owners, step)) <==> SparesOwners(env, s, owners, step)
  {
    StepMoves(env, s, step);
    MoveIff(env, s.reg, Next(env, s, step).reg, owners, FinishedBy(env, s, step), GrantedBy(env, s, step));
  }

  /** Steps that end no run. */
  predicate EndsNone(step: Step) {
    step.Preflight? || step.TryPromote? || step.FinishLaunch? || (step.Complete? && !step.failed)
  }

  /** The run of its task fails, and nothing else ends: a failed launch, or a
      recovery whose failure empties no queue. */
  ghost predicate FailsOwnRun(env: Env, s: System, step: Step)
    requires CanStep(env, s, step)
  {
    step.FailLaunch? || (step.Recover? && Finished(env, s.reg, SpawnFailed(s.tasks[step.task].run.repoDir, step.now)) == {})
  }

  lemma OneRunSpares(env: Env, s: Registry, owners: set<RunId>, x: RunId)
    requires Exclusive(env, s, owners)
    ensures OwnersFinish(env, s, owners, {x}) <==> x in owners || x !in s.runs || KeyOf(env, s.runs, x) !in s.locks
  {
    if x in s.runs && x !in owners && KeyOf(env, s.runs, x) in s.locks {
      var o :| o in owners && KeyOf(env, s.runs, o) == KeyOf(env, s.runs, x);
      assert x in {x} && o !in {x};
    }
  }

  lemma WhichStepsSpare(env: Env, s: System, owners: set<RunId>, step: Step)
    requires Exclusive(env, s.reg, owners) && CanStep(env, s, step)
    ensures EndsNone(step) ==> SparesOwners(env, s, owners, step)
    ensures FailsOwnRun(env, s, step) ==>
      (SparesOwners(env, s, owners, step) <==>
       var x := s.tasks[step.task].run.runId; x in owners || x !in s.reg.runs || KeyOf(env, s.reg.runs, x) !in s.reg.locks)
  {
    if FailsOwnRun(env, s, step) {
      var x := s.tasks[step.task].run.runId;
      assert FinishedBy(env, s, step) == {x};
      OneRunSpares(env, s.reg, owners, x);
    }
  }

  /** Checks, promotions, finished launches and completions of runs that did not
      fail always keep locks exclusive. A task that fails its run does so if and
      only if that run owns its repository, or the repository is unlocked, or the
      run has no entry. */
  lemma WhichStepsKeepExclusive(env: Env, s: System, owners: set<RunId>, step: Step)
    requires Exclusive(env, s.reg, owners) && CanStep(env, s, step)
    ensures EndsNone(step) ==> Exclusive(env, Next(env, s, step).reg, OwnersNext(env, s, owners, step))
    ensures FailsOwnRun(env, s, step) ==>
      (Exclusive(env, Next(env, s, step).reg, OwnersNext(env, s, owners, step)) <==>
       var x := s.tasks[step.task].run.runId; x in owners || x !in s.reg.runs || KeyOf(env, s.reg.runs, x) !in s.reg.locks)
  {
    DrainStepKeepsExclusive(env, s, owners, step);
    WhichStepsSpare(env, s, owners, step);
  }

  ghost predicate OwnedStep(env: Env, s: System, own: set<RunId>, step: Step, s': System, own': set<RunId>) {
    CanStep(env, s, step) && s' == Next(env, s, step) && own' == OwnersNext(env, s, own, step)
  }

  /** From any state in which the locks have exclusive owners. */
  ghost predicate OwnedRun(env: Env, states: seq<System>, owners: seq<set<RunId>>, steps: seq<Step>) {
    && |owners| == |states| == |steps| + 1
    && Exclusive(env, states[0].reg, owners[0])
    && (forall i :: 0 <= i < |steps| ==> OwnedStep(env, states[i], owners[i], steps[i], states[i + 1], owners[i + 1]))
  }

  lemma {:induction false} DrainsStayExclusive(env: Env, states: seq<System>, owners: seq<set<RunId>>, steps: seq<Step>, i: nat)
    requires OwnedRun(env, states, owners, steps) && i < |states|
    requires forall j :: 0 <= j < |steps| ==> SparesOwners(env, states[j], owners[j], steps[j])
    ensures Exclusive(env, states[i].reg, owners[i])
  {
    if i > 0 {
      DrainsStayExclusive(env, states, owners, steps, i - 1);
      assert OwnedStep(env, states[i - 1], owners[i - 1], steps[i - 1], states[i], owners[i]);
      assert SparesOwners(env, states[i - 1], owners[i - 1], steps[i - 1]);
      DrainStepKeepsExclusive(env, states[i - 1], owners[i - 1], steps[i - 1]);
    }
  }

  /** Over a whole execution of drains, launches, recoveries and anything else,
      each repository has at most one owner, and its lock is held exactly while it
      has one, if and only if no step finishes a run under another owner's lock. */
  lemma DrainsExclusiveExactlyWhen(env: Env, states: seq<System>, owners: seq<set<RunId>>, steps: seq<Step>)
    requires OwnedRun(env, states, owners, steps)
    ensures (forall i :: 0 <= i < |states| ==> Exclusive(env, states[i].reg, owners[i]))
      <==> (forall j :: 0 <= j < |steps| ==> SparesOwners(env, states[j], owners[j], steps[j]))
  {
    if forall j :: 0 <= j < |steps| ==> SparesOwners(env, states[j], owners[j], steps[j]) {
      forall i | 0 <= i < |states| ensures Exclusive(env, states[i].reg, owners[i]) {
        DrainsStayExclusive(env, states, owners, steps, i);
      }
    }
    if forall i :: 0 <= i < |states| ==> Exclusive(env, states[i].reg, owners[i]) {
      forall j | 0 <= j < |steps| ensures SparesOwners(env, states[j], owners[j], steps[j]) {
        assert OwnedStep(env, states[j], owners[j], steps[j], states[j + 1], owners[j + 1]);
        assert Exclusive(env, states[j].reg, owners[j]) && Exclusive(env, states[j + 1].reg, owners[j + 1]);
        DrainStepKeepsExclusive(env, states[j], owners[j], steps[j]);
      }
    }
  }
}

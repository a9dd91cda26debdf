/** What becomes of a drained run when nothing interferes with its task. Modelled on
    src/daemon/executor.rs. */
module DrainPaths {
  import opened Prelude
  import opened RunModel
  import opened RegistrySpec
  import opened RegistrySystem
  import opened DrainTasks

  /** A drained run that passes its checks and finds its repository unlocked is
      promoted and launched: it runs, its session is named, its repository is
      locked, and no other run is touched. */
  lemma UndisturbedLaunch(env: Env, s: System, t: nat, now: Instant) returns (s1: System, s2: System, s3: System)
    requires At(s, t, Preflighting)
    requires var x := s.tasks[t].run.runId;
      x in s.reg.runs && s.reg.runs[x].status == Queued && RepoHash(env, s.reg.runs[x].repoDir) !in s.reg.locks
    ensures Leads(env, s, Preflight(t, true), s1) && Leads(env, s1, TryPromote(t, true, true, now), s2)
    ensures Leads(env, s2, FinishLaunch(t, true, now), s3) && DoneWith(s3, t, Launched)
    ensures var x := s.tasks[t].run.runId;
      && x in s3.reg.runs && s3.reg.runs[x].status == Running && s3.reg.runs[x].tmuxSession == Some("gw-" + x)
      && s3.reg.runs[x].currentPhase == Some("starting") && s3.reg.runs == s.reg.runs[x := s3.reg.runs[x]]
      && s3.reg.locks == s.reg.locks + {RepoHash(env, s.reg.runs[x].repoDir)}
      && s3.reg.queues == s.reg.queues
  {
    s1 := Next(env, s, Preflight(t, true));
    s2 := Next(env, s1, TryPromote(t, true, true, now));
    s3 := Next(env, s2, FinishLaunch(t, true, now));
  }

  /** Where a failure leads: a first task to its recovery, a retry to its end; and
      a launch that fails has failed its run. */
  lemma FailedTask(env: Env, s: System, t: nat, reason: string, now: Instant) returns (s1: System)
    requires At(s, t, Launching) && s.tasks[t].run.runId in s.reg.runs
    ensures Leads(env, s, FailLaunch(t, reason, now), s1)
    ensures var x := s.tasks[t].run.runId;
      && x in s1.reg.runs && s1.reg.runs[x].status == Failed && s1.reg.runs[x].errorMessage == Some(reason)
      && RepoHash(env, s.reg.runs[x].repoDir) !in s1.reg.locks
    ensures if s.tasks[t].retry then DoneWith(s1, t, LaunchFailed) else At(s1, t, Recovering)
  {
    s1 := Next(env, s, FailLaunch(t, reason, now));
  }

  /** Where a first task and a retry stand after a step has failed. */
  predicate StandsFailed(s: System, t: nat, retry: bool, ending: Ending) {
    if retry then DoneWith(s, t, ending) else At(s, t, Recovering)
  }

  /** What decides how a task goes on: its checks; then whether its run is still
      queued, its repository unlocked and the write good; then whether the run has
      not ended meanwhile and its new status reached the disk. */
  lemma TaskGoesOnIff(env: Env, s: System, step: Step)
    requires CanStep(env, s, step) && (step.Preflight? || step.TryPromote? || step.FinishLaunch?)
    ensures var t, retry := step.task, s.tasks[step.task].retry; var x, s' := s.tasks[step.task].run.runId, Next(env, s, step);
      && (step.Preflight? ==> if step.ok then At(s', t, Promoting) else StandsFailed(s', t, retry, NotPromoted))
      && (step.TryPromote? ==>
            if x in s.reg.runs && s.reg.runs[x].status == Queued && RepoHash(env, s.reg.runs[x].repoDir) !in s.reg.locks && step.osFree && step.writeOk
            then At(s', t, Launching) else StandsFailed(s', t, retry, NotPromoted))
      && (step.FinishLaunch? ==>
            if x in s.reg.runs && (s.reg.runs[x].status == Queued || s.reg.runs[x].status == Running) && step.flushOk
            then DoneWith(s', t, Launched) else StandsFailed(s', t, retry, LaunchFailed))
  {
  }
}

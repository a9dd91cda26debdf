/** What recoveries, launches and stops come to when nothing interferes. Modelled
    on src/daemon/heartbeat.rs and src/daemon/executor.rs. */
module RecoveryPaths {
  import opened Prelude
  import opened RunModel
  import opened RegistrySpec
  import opened RegistrySystem
  import opened Recovery

  /** What a step that ends a task makes of the entry of an active run. */
  predicate Concludes(id: RunId, step: Step, e: RunEntry, e': RunEntry) {
    match step
    case FindAlive(_, _) => e'.status == Running && e'.currentPhase == Some("running") && e'.crashRestarts == e.crashRestarts
    case GiveUp(_, outcome, reason, _) => e'.status == outcome && (outcome == Succeeded ==> e'.currentPhase == Some("complete"))
    case Resume(_, pid, now) =>
      && e'.status == Running && e'.currentPhase == Some("resuming") && e'.tmuxSession == Some("gw-" + id)
      && e'.claudePid == Some(pid) && e'.crashRestarts == e.crashRestarts + 1 && e'.lastRecoveryAt == Some(now)
    case ResumeFailed(_, now) => e'.status == Failed && e'.finishedAt == Some(now)
    case LaunchFailed(_, now) => e'.status == Failed && e'.finishedAt == Some(now)
    case Start(_, _) => e'.status == Running && e'.currentPhase == Some("starting") && e'.tmuxSession == Some("gw-" + id)
    case StartFailed(_, now) => e'.status == Failed && e'.finishedAt == Some(now)
    case FinishStop(_, now) => e'.status == Stopped && e'.finishedAt == Some(now)
    case _ => true
  }

  predicate EndsTask(step: Step) {
    step.FindAlive? || step.GiveUp? || step.Resume? || step.ResumeFailed? || step.LaunchFailed? || step.Start? || step.StartFailed? || step.FinishStop?
  }

  lemma EditThenStage(env: Env, s: Registry, id: RunId, f: EditedFields, status: RunStatus, phase: Option<string>, error: Option<string>, now: Instant)
    requires IsActive(s, id) && status != Queued
    ensures var s' := ApplyEach(env, s, [Edit(id, f), Action.Stage(id, status, phase, error, now)]);
      id in s'.runs && s'.runs[id] == StagedEntry(EditedEntry(s.runs[id], f), status, phase, error, now)
  {
    ApplyTwo(env, s, Edit(id, f), Action.Stage(id, status, phase, error, now));
  }

  lemma StageAlone(env: Env, s: Registry, id: RunId, status: RunStatus, phase: Option<string>, error: Option<string>, now: Instant)
    requires IsActive(s, id) && status != Queued
    ensures var s' := ApplyEach(env, s, [Action.Stage(id, status, phase, error, now)]);
      id in s'.runs && s'.runs[id] == StagedEntry(s.runs[id], status, phase, error, now)
  {
    var stage := Action.Stage(id, status, phase, error, now);
    ApplyTwo(env, s, stage, stage);
  }

  lemma EditedActions(env: Env, s: System, id: RunId, step: Step) returns (f: EditedFields)
    requires id in s.reg.runs && (step.FindAlive? || step.Resume? || step.Start?)
    ensures step.FindAlive? ==> Actions(s.reg, id, step) == [Edit(id, f), Action.Stage(id, Running, Some("running"), None, step.now)]
    ensures step.Resume? ==> Actions(s.reg, id, step) == [Edit(id, f), Action.Stage(id, Running, Some("resuming"), None, step.now)]
    ensures step.Start? ==> Actions(s.reg, id, step) == [Edit(id, f), Action.Stage(id, Running, Some("starting"), None, step.now)]
    ensures step.FindAlive? ==> f.crashRestarts == s.reg.runs[id].crashRestarts
    ensures step.Resume? ==> f.tmuxSession == Some("gw-" + id) && f.claudePid == Some(step.pid) && f.lastRecoveryAt == Some(step.now)
                             && f.crashRestarts == s.reg.runs[id].crashRestarts + 1
    ensures step.Start? ==> f.tmuxSession == Some("gw-" + id)
  {
    f := Actions(s.reg, id, step)[0].fields;
  }

  /** Every way a task can end does to an active run what its name says, and the
      task is gone; a launch whose command cannot be sent kills its session. */
  lemma TaskConcludes(env: Env, s: System, id: RunId, step: Step)
    requires IsActive(s.reg, id) && CanStep(env, s, id, step) && EndsTask(step)
    ensures var s' := Next(env, s, id, step);
      && id in s'.reg.runs && Concludes(id, step, s.reg.runs[id], s'.reg.runs[id])
      && s'.pcs == s.pcs - {step.task} && s'.live == (s.live && !step.StartFailed?)
  {
    if step.FindAlive? || step.Resume? || step.Start? {
      var f := EditedActions(env, s, id, step);
      var phase := if step.FindAlive? then "running" else if step.Resume? then "resuming" else "starting";
      EditThenStage(env, s.reg, id, f, Running, Some(phase), None, step.now);
    } else {
      match step
      case GiveUp(_, outcome, reason, now) => StageAlone(env, s.reg, id, outcome, if outcome == Succeeded then Some("complete") else None, reason, now);
      case ResumeFailed(_, now) => StageAlone(env, s.reg, id, Failed, None, Some("crash recovery failed"), now);
      case LaunchFailed(_, now) => StageAlone(env, s.reg, id, Failed, None, Some("tmux spawn failed"), now);
      case StartFailed(_, now) => StageAlone(env, s.reg, id, Failed, None, Some("failed to send arc command"), now);
      case FinishStop(_, now) => StageAlone(env, s.reg, id, Stopped, None, Some("stopped by user"), now);
    }
  }

  /** A phase seen for the first time on an active run is recorded, and the run
      counts as running. */
  lemma PhaseIsRecorded(env: Env, s: System, id: RunId, phase: string, now: Instant)
    requires IsActive(s.reg, id) && s.reg.runs[id].currentPhase != Some(phase)
    ensures var s' := Next(env, s, id, UpdatePhase(phase, now));
      && id in s'.reg.runs && s'.reg.runs[id].currentPhase == Some(phase) && s'.reg.runs[id].status == Running
      && s'.live == s.live && s'.pcs == s.pcs
  {
    var f := Fields(s.reg.runs[id]).(currentPhase := Some(phase));
    assert Actions(s.reg, id, UpdatePhase(phase, now)) == [Edit(id, f), Action.Stage(id, Running, Some(phase), None, now)];
    EditThenStage(env, s.reg, id, f, Running, Some(phase), None, now);
  }

  /** A recovery that nothing disturbs ends with the run running, its session
      alive and one more restart counted. */
  lemma UndisturbedRecovery(env: Env, s: System, id: RunId, t: nat, pid: nat, now: Instant)
    requires IsActive(s.reg, id) && t !in s.pcs
    ensures CanRun(env, s, id, [Gate(t)] + LateRecovery(t, pid, now))
    ensures var s' := RunSteps(env, s, id, [Gate(t)] + LateRecovery(t, pid, now));
      && s'.live && s'.pcs == s.pcs && id in s'.reg.runs && s'.reg.runs[id].status == Running
      && s'.reg.runs[id].crashRestarts == s.reg.runs[id].crashRestarts + 1 && s'.reg.runs[id].tmuxSession == Some("gw-" + id)
  {
    GateEffect(env, s, id, t);
    var s1 := Next(env, s, id, Gate(t));
    SpawnEffect(env, s1, id, t);
    var s2 := Next(env, s1, id, SpawnRecovery(t));
    TaskConcludes(env, s2, id, Resume(t, pid, now));
    assert s2.pcs - {t} == s.pcs;
    Prepend(env, s2, id, Resume(t, pid, now), []);
    Prepend(env, s1, id, SpawnRecovery(t), [Resume(t, pid, now)] + []);
    Prepend(env, s, id, Gate(t), LateRecovery(t, pid, now));
  }

  /** A stop that nothing disturbs ends with the run stopped and its session dead,
      and the session stays dead whatever comes later. */
  lemma UndisturbedStop(env: Env, s: System, id: RunId, t: nat, now: Instant, later: seq<Step>)
    requires IsActive(s.reg, id) && s.reg.runs[id].tmuxSession.Some? && t !in s.pcs && !SpawnPends(s)
    requires CanRun(env, Stopped3(env, s, id, t, now), id, later)
    ensures var s' := Stopped3(env, s, id, t, now);
      && id in s'.reg.runs && s'.reg.runs[id].status == Stopped && !s'.live && s'.pcs == s.pcs
      && !RunSteps(env, s', id, later).live
  {
    KillEffect(env, s, id, t);
    var s2 := Next(env, Next(env, s, id, AskStop(t)), id, Kill(t));
    StopEffect(env, s2, id, t, now);
    var s3 := Stopped3(env, s, id, t, now);
    assert s3.pcs == s.pcs;
    assert !SpawnPends(s3) by {
      forall u ensures !At(s3, u, Recovering) && !At(s3, u, Launching) {
        assert !At(s, u, Recovering) && !At(s, u, Launching);
      }
    }
    SessionStaysGone(env, s3, id, later);
  }

  /** After asking, killing and finishing. */
  ghost function Stopped3(env: Env, s: System, id: RunId, t: nat, now: Instant): System {
    Next(env, Next(env, Next(env, s, id, AskStop(t)), id, Kill(t)), id, FinishStop(t, now))
  }
}

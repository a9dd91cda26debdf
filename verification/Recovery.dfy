/** Recovering, launching and stopping one run, as tasks that interleave between
    their registry steps. Modelled on src/daemon/heartbeat.rs and
    src/daemon/executor.rs. */
module Recovery {
  import opened Prelude
  import opened RunModel
  import opened RegistrySpec
  import opened RegistrySystem
  import opened RunLifecycle

  /** Where a task is between two of its steps. */
  datatype Pc =
    | Recovering        // saw a live entry; no new session yet
    | Resuming          // session created, status not staged
    | Launching         // entry registered or promoted; no session yet
    | Starting          // session created, status not staged
    | StoppingSession   // saw an active entry that records its session
    | StoppingBare      // saw an active entry without a session
    | Killed            // session gone, status not staged

  /** `live`: the run's tmux session exists. */
  datatype System = System(reg: Registry, live: bool, pcs: map<nat, Pc>)

  datatype Step =
    | Gate(task: nat)
    | FindAlive(task: nat, now: Instant)
    | GiveUp(task: nat, outcome: RunStatus, reason: Option<string>, now: Instant)
    | KillDead(task: nat)
    | SpawnRecovery(task: nat)
    | Resume(task: nat, pid: nat, now: Instant)
    | ResumeFailed(task: nat, now: Instant)
    | BeginLaunch(task: nat)
    | LaunchFailed(task: nat, now: Instant)
    | SpawnLaunch(task: nat, pid: nat, now: Instant)
    | Start(task: nat, now: Instant)
    | StartFailed(task: nat, now: Instant)
    | AskStop(task: nat)
    | Kill(task: nat)
    | FinishStop(task: nat, now: Instant)
    | UpdatePhase(phase: string, now: Instant)
    | SessionDies
    | Elsewhere(action: Action)

  /** An in-place edit of the entry, if there is one. */
  function EditOf(s: Registry, id: RunId, change: EditedFields -> EditedFields): seq<Action> {
    if id in s.runs then [Edit(id, change(Fields(s.runs[id])))] else []
  }

  function StageOf(id: RunId, status: RunStatus, phase: Option<string>, error: Option<string>, now: Instant): seq<Action> {
    [Action.Stage(id, status, phase, error, now)]
  }

  /** The registry actions of one step, all under one hold of the mutex. */
  function Actions(s: Registry, id: RunId, step: Step): seq<Action> {
    match step
    case FindAlive(_, now) =>
      EditOf(s, id, (f: EditedFields) => f.(currentPhase := Some("running"))) + StageOf(id, Running, Some("running"), None, now)
    case GiveUp(_, outcome, reason, now) =>
      StageOf(id, outcome, if outcome == Succeeded then Some("complete") else None, reason, now)
    case Resume(_, pid, now) =>
      EditOf(s, id, (f: EditedFields) => f.(tmuxSession := Some(SessionFor(id)), currentPhase := Some("resuming"),
                            crashRestarts := f.crashRestarts + 1, claudePid := Some(pid), lastRecoveryAt := Some(now)))
      + StageOf(id, Running, Some("resuming"), None, now)
    case ResumeFailed(_, now) => StageOf(id, Failed, None, Some("crash recovery failed"), now)
    case LaunchFailed(_, now) => StageOf(id, Failed, None, Some("tmux spawn failed"), now)
    case SpawnLaunch(_, pid, now) => EditOf(s, id, (f: EditedFields) => f.(claudePid := Some(pid), lastRecoveryAt := Some(now)))
    case Start(_, now) =>
      EditOf(s, id, (f: EditedFields) => f.(tmuxSession := Some(SessionFor(id)))) + StageOf(id, Running, Some("starting"), None, now)
    case StartFailed(_, now) => StageOf(id, Failed, None, Some("failed to send arc command"), now)
    case FinishStop(_, now) => StageOf(id, Stopped, None, Some("stopped by user"), now)
    case UpdatePhase(phase, now) =>
      if id in s.runs && s.runs[id].currentPhase != Some(phase) then
        EditOf(s, id, (f: EditedFields) => f.(currentPhase := Some(phase))) + StageOf(id, Running, Some(phase), None, now)
      else []
    case Elsewhere(a) => [a]
    case _ => []
  }

  function SessionAfter(live: bool, step: Step): bool {
    match step
    case KillDead(_) => false
    case SpawnRecovery(_) => true
    case SpawnLaunch(_, _, _) => true
    case StartFailed(_, _) => false
    case Kill(_) => false
    case SessionDies => false
    case _ => live
  }

  function PcsAfter(s: System, id: RunId, step: Step): map<nat, Pc> {
    match step
    case Gate(t) => if IsActive(s.reg, id) then s.pcs[t := Recovering] else s.pcs
    case SpawnRecovery(t) => s.pcs[t := Resuming]
    case BeginLaunch(t) => s.pcs[t := Launching]
    case SpawnLaunch(t, _, _) => s.pcs[t := Starting]
    case AskStop(t) =>
      if !IsActive(s.reg, id) then s.pcs
      else s.pcs[t := if s.reg.runs[id].tmuxSession.Some? then StoppingSession else StoppingBare]
    case Kill(t) => s.pcs[t := Killed]
    case KillDead(_) => s.pcs
    case UpdatePhase(_, _) => s.pcs
    case SessionDies => s.pcs
    case Elsewhere(_) => s.pcs
    case FindAlive(t, _) => s.pcs - {t}
    case GiveUp(t, _, _, _) => s.pcs - {t}
    case Resume(t, _, _) => s.pcs - {t}
    case ResumeFailed(t, _) => s.pcs - {t}
    case LaunchFailed(t, _) => s.pcs - {t}
    case Start(t, _) => s.pcs - {t}
    case StartFailed(t, _) => s.pcs - {t}
    case FinishStop(t, _) => s.pcs - {t}
  }

  predicate IsActive(s: Registry, id: RunId) {
    id in s.runs && !s.runs[id].status.IsTerminal()
  }

  predicate At(s: System, t: nat, pc: Pc) {
    t in s.pcs && s.pcs[t] == pc
  }

  ghost predicate CanStep(env: Env, s: System, id: RunId, step: Step) {
    match step
    case Gate(t) => t !in s.pcs
    case FindAlive(t, _) => At(s, t, Recovering) && s.live
    case GiveUp(t, outcome, _, _) => At(s, t, Recovering) && (outcome == Failed || outcome == Succeeded)
    case KillDead(t) => At(s, t, Recovering)
    case SpawnRecovery(t) => At(s, t, Recovering)
    case Resume(t, _, _) => At(s, t, Resuming)
    case ResumeFailed(t, _) => At(s, t, Resuming)
    case BeginLaunch(t) => t !in s.pcs && id in s.reg.runs && s.reg.runs[id].status == Queued
    case LaunchFailed(t, _) => At(s, t, Launching)
    case SpawnLaunch(t, _, _) => At(s, t, Launching)
    case Start(t, _) => At(s, t, Starting)
    case StartFailed(t, _) => At(s, t, Starting)
    case AskStop(t) => t !in s.pcs
    case Kill(t) => At(s, t, StoppingSession)
    case FinishStop(t, _) => At(s, t, StoppingBare) || At(s, t, Killed)
    case UpdatePhase(_, _) => true
    case SessionDies => true
    case Elsewhere(a) => Enabled(env, s.reg, a)
  }

  ghost function ApplyEach(env: Env, s: Registry, actions: seq<Action>): Registry
    decreases |actions|
  {
    if actions == [] then s else ApplyEach(env, Apply(env, s, actions[0]), actions[1..])
  }

  ghost function Next(env: Env, s: System, id: RunId, step: Step): System {
    System(ApplyEach(env, s.reg, Actions(s.reg, id, step)), SessionAfter(s.live, step), PcsAfter(s, id, step))
  }

  ghost predicate CanRun(env: Env, s: System, id: RunId, steps: seq<Step>)
    decreases |steps|
  {
    steps == [] || (CanStep(env, s, id, steps[0]) && CanRun(env, Next(env, s, id, steps[0]), id, steps[1..]))
  }

  ghost function RunSteps(env: Env, s: System, id: RunId, steps: seq<Step>): System
    decreases |steps|
  {
    if steps == [] then s else RunSteps(env, Next(env, s, id, steps[0]), id, steps[1..])
  }

  // ── Terminal is final ──────────────────────────────────────────────

  /** Every step changes the registry through enabled registry actions only. */
  lemma ActionsEnabled(env: Env, s: System, id: RunId, step: Step)
    requires CanStep(env, s, id, step)
    ensures forall i :: 0 <= i < |Actions(s.reg, id, step)| ==>
      step.Elsewhere? || Actions(s.reg, id, step)[i].Edit? || Actions(s.reg, id, step)[i].Stage?
    ensures |Actions(s.reg, id, step)| <= 2
    ensures step.Elsewhere? ==> Actions(s.reg, id, step) == [step.action]
  {
  }

  lemma {:induction false} EachAdvances(env: Env, s: Registry, actions: seq<Action>, x: RunId)
    requires x in s.runs
    requires forall i :: 0 <= i < |actions| ==> actions[i].Edit? || actions[i].Stage?
    ensures x in ApplyEach(env, s, actions).runs && Advances(s.runs[x], ApplyEach(env, s, actions).runs[x])
    decreases |actions|
  {
    if actions != [] {
      StepAdvances(env, s, actions[0], x);
      EachAdvances(env, Apply(env, s, actions[0]), actions[1..], x);
    }
  }

  lemma ProtocolStepAdvances(env: Env, s: System, id: RunId, step: Step, x: RunId)
    requires CanStep(env, s, id, step) && x in s.reg.runs
    ensures x in Next(env, s, id, step).reg.runs
    ensures Advances(s.reg.runs[x], Next(env, s, id, step).reg.runs[x])
  {
    ActionsEnabled(env, s, id, step);
    if step.Elsewhere? {
      StepAdvances(env, s.reg, step.action, x);
      assert ApplyEach(env, s.reg, [step.action]) == Apply(env, s.reg, step.action);
    } else {
      EachAdvances(env, s.reg, Actions(s.reg, id, step), x);
    }
  }

  /** Whatever recoveries, launches, stops, phase updates and other actions
      interleave, in whatever order: a run that has ended has ended. */
  lemma {:induction false} EndedRunStaysEnded(env: Env, s: System, id: RunId, steps: seq<Step>, x: RunId)
    requires CanRun(env, s, id, steps) && x in s.reg.runs
    ensures var s' := RunSteps(env, s, id, steps);
      && x in s'.reg.runs && Advances(s.reg.runs[x], s'.reg.runs[x])
      && (s.reg.runs[x].status.IsTerminal() ==> s'.reg.runs[x].status.IsTerminal())
      && (s.reg.runs[x].status == Running ==> s'.reg.runs[x].status != Queued)
    decreases |steps|
  {
    if steps != [] {
      ProtocolStepAdvances(env, s, id, steps[0], x);
      EndedRunStaysEnded(env, Next(env, s, id, steps[0]), id, steps[1..], x);
    }
  }

  // ── When the session of an ended run comes back ────────────────────

  /** Some task has passed its check and has yet to create the session. */
  ghost predicate SpawnPends(s: System) {
    exists t :: At(s, t, Recovering) || At(s, t, Launching)
  }

  lemma NoNewSpawner(env: Env, s: System, id: RunId, step: Step)
    requires CanStep(env, s, id, step)
    requires id in s.reg.runs && s.reg.runs[id].status.IsTerminal()
    requires !s.live && !SpawnPends(s)
    ensures !Next(env, s, id, step).live && !SpawnPends(Next(env, s, id, step))
  {
    var s' := Next(env, s, id, step);
    forall t ensures !At(s', t, Recovering) && !At(s', t, Launching) {
      assert !At(s, t, Recovering) && !At(s, t, Launching);
    }
    assert !step.SpawnRecovery? && !step.SpawnLaunch?;
  }

  lemma {:induction false} SessionStaysGone(env: Env, s: System, id: RunId, steps: seq<Step>)
    requires CanRun(env, s, id, steps)
    requires id in s.reg.runs && s.reg.runs[id].status.IsTerminal()
    requires !s.live && !SpawnPends(s)
    ensures !RunSteps(env, s, id, steps).live
    decreases |steps|
  {
    if steps != [] {
      NoNewSpawner(env, s, id, steps[0]);
      ProtocolStepAdvances(env, s, id, steps[0], id);
      SessionStaysGone(env, Next(env, s, id, steps[0]), id, steps[1..]);
    }
  }

  lemma OneStep(env: Env, s: System, id: RunId, step: Step)
    requires CanStep(env, s, id, step)
    ensures CanRun(env, s, id, [step]) && RunSteps(env, s, id, [step]) == Next(env, s, id, step)
  {
  }

  ghost predicate ComesAlive(env: Env, s: System, id: RunId, steps: seq<Step>) {
    CanRun(env, s, id, steps) && RunSteps(env, s, id, steps).live
  }

  /** The session of an ended run can be alive now or later exactly when it is
      alive already, or a task stands between its check and its spawn. */
  lemma EndedRunComesAliveIff(env: Env, s: System, id: RunId)
    requires id in s.reg.runs && s.reg.runs[id].status.IsTerminal()
    ensures (exists steps :: ComesAlive(env, s, id, steps)) <==> s.live || SpawnPends(s)
  {
    if s.live {
      assert ComesAlive(env, s, id, []);
    } else if SpawnPends(s) {
      var t :| At(s, t, Recovering) || At(s, t, Launching);
      var step := if At(s, t, Recovering) then SpawnRecovery(t) else SpawnLaunch(t, 0, 0);
      OneStep(env, s, id, step);
      assert ComesAlive(env, s, id, [step]);
    } else {
      forall steps | CanRun(env, s, id, steps) ensures !ComesAlive(env, s, id, steps) {
        SessionStaysGone(env, s, id, steps);
      }
    }
  }

  // ── Runs in which a stop loses the race ────────────────────────────

  lemma Prepend(env: Env, s: System, id: RunId, step: Step, rest: seq<Step>)
    requires CanStep(env, s, id, step) && CanRun(env, Next(env, s, id, step), id, rest)
    ensures CanRun(env, s, id, [step] + rest)
    ensures RunSteps(env, s, id, [step] + rest) == RunSteps(env, Next(env, s, id, step), id, rest)
  {
  }

  lemma ApplyTwo(env: Env, s: Registry, a: Action, b: Action)
    ensures ApplyEach(env, s, [a]) == Apply(env, s, a)
    ensures ApplyEach(env, s, [a, b]) == Apply(env, Apply(env, s, a), b)
  {
    assert [a, b][1..] == [b];
    assert [a][1..] == [] && [b][1..] == [];
    assert ApplyEach(env, Apply(env, s, a), [b]) == Apply(env, Apply(env, s, a), b);
  }

  lemma StopEffect(env: Env, s: System, id: RunId, t: nat, now: Instant)
    requires At(s, t, StoppingBare) || At(s, t, Killed)
    requires id in s.reg.runs
    ensures CanStep(env, s, id, FinishStop(t, now))
    ensures var s' := Next(env, s, id, FinishStop(t, now));
      && s'.reg.runs == s.reg.runs[id := StagedEntry(s.reg.runs[id], Stopped, None, Some("stopped by user"), now)]
      && s'.live == s.live && s'.pcs == s.pcs - {t}
  {
    var stage := Action.Stage(id, Stopped, None, Some("stopped by user"), now);
    assert Actions(s.reg, id, FinishStop(t, now)) == [stage];
    ApplyTwo(env, s.reg, stage, stage);
  }

  /** On an ended run, editing and then staging `Running` amounts to the edit. */
  lemma StagingRefused(env: Env, s: Registry, id: RunId, f: EditedFields, phase: string, now: Instant)
    requires id in s.runs && s.runs[id].status.IsTerminal()
    ensures ApplyEach(env, s, [Edit(id, f), Action.Stage(id, Running, Some(phase), None, now)]) ==
      s.(runs := s.runs[id := EditedEntry(s.runs[id], f)])
  {
    ApplyTwo(env, s, Edit(id, f), Action.Stage(id, Running, Some(phase), None, now));
  }

  lemma LateResumeEffect(env: Env, s: System, id: RunId, t: nat, pid: nat, now: Instant)
    requires id in s.reg.runs && s.reg.runs[id].status.IsTerminal() && At(s, t, Resuming)
    ensures CanStep(env, s, id, Resume(t, pid, now))
    ensures var s' := Next(env, s, id, Resume(t, pid, now)); var e := s.reg.runs[id];
      && s'.reg.runs == s.reg.runs[id := e.(tmuxSession := Some(SessionFor(id)), currentPhase := Some("resuming"),
                                           crashRestarts := e.crashRestarts + 1, claudePid := Some(pid), lastRecoveryAt := Some(now))]
      && s'.live == s.live && s'.pcs == s.pcs - {t}
  {
    var e := s.reg.runs[id];
    var f := Fields(e).(tmuxSession := Some(SessionFor(id)), currentPhase := Some("resuming"),
                        crashRestarts := e.crashRestarts + 1, claudePid := Some(pid), lastRecoveryAt := Some(now));
    assert Actions(s.reg, id, Resume(t, pid, now)) == [Edit(id, f), Action.Stage(id, Running, Some("resuming"), None, now)];
    StagingRefused(env, s.reg, id, f, "resuming", now);
  }

  lemma GateEffect(env: Env, s: System, id: RunId, r: nat)
    requires IsActive(s.reg, id) && r !in s.pcs
    ensures CanStep(env, s, id, Gate(r)) && Next(env, s, id, Gate(r)) == s.(pcs := s.pcs[r := Recovering])
  {
  }

  lemma KillEffect(env: Env, s: System, id: RunId, t: nat)
    requires IsActive(s.reg, id) && s.reg.runs[id].tmuxSession.Some? && t !in s.pcs
    ensures CanStep(env, s, id, AskStop(t))
    ensures var s1 := Next(env, s, id, AskStop(t)); CanStep(env, s1, id, Kill(t))
    ensures Next(env, Next(env, s, id, AskStop(t)), id, Kill(t)) == s.(live := false, pcs := s.pcs[t := Killed])
  {
  }

  lemma SpawnEffect(env: Env, s: System, id: RunId, r: nat)
    requires At(s, r, Recovering)
    ensures CanStep(env, s, id, SpawnRecovery(r)) && Next(env, s, id, SpawnRecovery(r)) == s.(live := true, pcs := s.pcs[r := Resuming])
  {
  }

  function LateRecovery(r: nat, pid: nat, now: Instant): seq<Step> {
    [SpawnRecovery(r)] + ([Resume(r, pid, now)] + [])
  }

  lemma LateRecoveryEffect(env: Env, s: System, id: RunId, r: nat, pid: nat, now: Instant)
    requires id in s.reg.runs && s.reg.runs[id].status.IsTerminal() && At(s, r, Recovering)
    ensures CanRun(env, s, id, LateRecovery(r, pid, now))
    ensures var s' := RunSteps(env, s, id, LateRecovery(r, pid, now)); var e := s.reg.runs[id];
      && s'.live && s'.pcs == s.pcs - {r} && id in s'.reg.runs
      && s'.reg.runs[id].status == e.status && s'.reg.runs[id].writeEpoch == e.writeEpoch
      && s'.reg.runs[id].crashRestarts == e.crashRestarts + 1
  {
    SpawnEffect(env, s, id, r);
    var s1 := Next(env, s, id, SpawnRecovery(r));
    LateResumeEffect(env, s1, id, r, pid, now);
    assert s1.pcs - {r} == s.pcs - {r};
    Prepend(env, s1, id, Resume(r, pid, now), []);
    Prepend(env, s, id, SpawnRecovery(r), [Resume(r, pid, now)] + []);
  }

  /** A recovery that passes its check, then a whole stop, then the rest of the recovery. */
  function RacingStop(r: nat, t: nat, pid: nat, now: Instant): seq<Step> {
    [Gate(r)] + ([AskStop(t)] + ([Kill(t)] + ([FinishStop(t, now)] + LateRecovery(r, pid, now))))
  }

  /** From any state with an active run, that interleaving leaves the run stopped
      and no task at work, yet its session alive, and its entry counting a restart
      that no write epoch and so no meta.json shows. */
  lemma StopDuringRecoveryLeaksSession(env: Env, s: System, id: RunId, r: nat, t: nat, pid: nat, now: Instant)
    requires IsActive(s.reg, id) && s.reg.runs[id].tmuxSession.Some?
    requires r !in s.pcs && t !in s.pcs && r != t
    ensures CanRun(env, s, id, RacingStop(r, t, pid, now))
    ensures var s' := RunSteps(env, s, id, RacingStop(r, t, pid, now)); var e := s.reg.runs[id];
      && s'.pcs == s.pcs && s'.live
      && id in s'.reg.runs && s'.reg.runs[id].status == Stopped
      && s'.reg.runs[id].crashRestarts == e.crashRestarts + 1
      && s'.reg.runs[id].writeEpoch == e.writeEpoch + 1
  {
    GateEffect(env, s, id, r);
    var s1 := Next(env, s, id, Gate(r));
    KillEffect(env, s1, id, t);
    var s2 := Next(env, s1, id, AskStop(t));
    var s3 := Next(env, s2, id, Kill(t));
    StopEffect(env, s3, id, t, now);
    var s4 := Next(env, s3, id, FinishStop(t, now));
    LateRecoveryEffect(env, s4, id, r, pid, now);
    assert s4.pcs - {r} == s.pcs;
    var rest := LateRecovery(r, pid, now);
    Prepend(env, s3, id, FinishStop(t, now), rest);
    rest := [FinishStop(t, now)] + rest;
    Prepend(env, s2, id, Kill(t), rest);
    rest := [Kill(t)] + rest;
    Prepend(env, s1, id, AskStop(t), rest);
    Prepend(env, s, id, Gate(r), [AskStop(t)] + rest);
  }

  lemma LateLaunchEffect(env: Env, s: System, id: RunId, l: nat, pid: nat, now: Instant)
    requires id in s.reg.runs && At(s, l, Launching)
    ensures CanStep(env, s, id, SpawnLaunch(l, pid, now))
    ensures var s' := Next(env, s, id, SpawnLaunch(l, pid, now));
      s'.live && id in s'.reg.runs && s'.reg.runs[id].status == s.reg.runs[id].status
  {
    var edit := Edit(id, Fields(s.reg.runs[id]).(claudePid := Some(pid), lastRecoveryAt := Some(now)));
    assert Actions(s.reg, id, SpawnLaunch(l, pid, now)) == [edit];
    ApplyTwo(env, s.reg, edit, edit);
  }

  /** Stopping a run that is being launched kills nothing, because its entry does
      not name a session yet; its session then starts, and the run stays stopped. */
  lemma StopDuringLaunchLeaksSession(env: Env, s: System, id: RunId, l: nat, t: nat, pid: nat, now: Instant)
    requires id in s.reg.runs && s.reg.runs[id].tmuxSession.None? && s.reg.runs[id].status == Queued
    requires At(s, l, Launching) && t !in s.pcs
    ensures CanRun(env, s, id, [AskStop(t)] + ([FinishStop(t, now)] + ([SpawnLaunch(l, pid, now)] + [])))
    ensures var s' := RunSteps(env, s, id, [AskStop(t)] + ([FinishStop(t, now)] + ([SpawnLaunch(l, pid, now)] + [])));
      s'.live && id in s'.reg.runs && s'.reg.runs[id].status == Stopped
  {
    var s1 := Next(env, s, id, AskStop(t));
    assert s1.reg == s.reg && s1.pcs == s.pcs[t := StoppingBare];
    StopEffect(env, s1, id, t, now);
    var s2 := Next(env, s1, id, FinishStop(t, now));
    LateLaunchEffect(env, s2, id, l, pid, now);
    Prepend(env, s2, id, SpawnLaunch(l, pid, now), []);
    Prepend(env, s1, id, FinishStop(t, now), [SpawnLaunch(l, pid, now)] + []);
    Prepend(env, s, id, AskStop(t), [FinishStop(t, now)] + ([SpawnLaunch(l, pid, now)] + []));
  }

  /** A phase seen in the pane of an ended run still overwrites its phase in
      memory, and nothing else: the status is refused and no epoch is spent. */
  lemma LatePhaseUpdateStaysInMemory(env: Env, s: System, id: RunId, phase: string, now: Instant)
    requires id in s.reg.runs && s.reg.runs[id].status.IsTerminal()
    ensures Next(env, s, id, UpdatePhase(phase, now)) == s.(reg := s.reg.(runs := s.reg.runs[id := s.reg.runs[id].(currentPhase := Some(phase))]))
  {
    var e := s.reg.runs[id];
    var f := Fields(e).(currentPhase := Some(phase));
    assert EditedEntry(e, f) == e.(currentPhase := Some(phase));
    if e.currentPhase != Some(phase) {
      assert Actions(s.reg, id, UpdatePhase(phase, now)) == [Edit(id, f), Action.Stage(id, Running, Some(phase), None, now)];
      StagingRefused(env, s.reg, id, f, phase, now);
    } else {
      assert EditedEntry(e, f) == e;
    }
  }
}

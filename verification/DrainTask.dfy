/** The life of a drained run: popped when another run completes, checked,
    promoted and launched by a task of its own, with one retry for the next run of
    the same repository when that fails. Any number of tasks interleave with each
    other and with everything else the daemon does. Modelled on
    src/daemon/executor.rs. */
module DrainTasks {
  import opened Prelude
  import opened RunModel
  import opened RegistrySpec
  import opened RegistrySystem
  import opened RunLifecycle

  /** How a task ended: its run was launched; it failed before the run was
      promoted; it failed after; or, for a first task, its failure was recovered. */
  datatype Ending = Launched | NotPromoted | LaunchFailed | Recovered

  datatype Pc = Preflighting | Promoting | Launching | Recovering | Done(ending: Ending)

  /** `retry`: started by the recovery of another task, and itself not recovered. */
  datatype Task = Task(run: PendingRun, retry: bool, pc: Pc)

  datatype System = System(reg: Registry, tasks: map<nat, Task>)

  datatype Step =
    | Complete(task: nat, repo: Path, failed: bool, now: Instant)
    | Preflight(task: nat, ok: bool)
    | TryPromote(task: nat, osFree: bool, writeOk: bool, now: Instant)
    | FailLaunch(task: nat, reason: string, now: Instant)
    | FinishLaunch(task: nat, flushOk: bool, now: Instant)
    | Recover(task: nat, next: nat, reason: string, now: Instant)
    | Elsewhere(action: Action)

  // ── The registry in each step ──────────────────────────────────────

  /** A launch that worked names its session, then stages `Running`. */
  function Launch(env: Env, s: Registry, id: RunId, now: Instant): (Registry, bool) {
    var named := if id in s.runs then EditRun(s, id, Fields(s.runs[id]).(tmuxSession := Some(SessionFor(id)))) else s;
    var (s', outcome) := StageStatus(env, named, id, Running, Some("starting"), None, now);
    (s', outcome.Staged?)
  }

  function FailedPc(retry: bool, ending: Ending): Pc {
    if retry then Done(ending) else Recovering
  }

  function Started(tasks: map<nat, Task>, t: nat, popped: Option<PendingRun>, retry: bool): map<nat, Task> {
    if popped.Some? then tasks[t := Task(popped.value, retry, Preflighting)] else tasks
  }

  predicate At(s: System, t: nat, pc: Pc) {
    t in s.tasks && s.tasks[t].pc == pc
  }

  ghost predicate CanStep(env: Env, s: System, step: Step) {
    match step
    case Complete(t, _, _, _) => t !in s.tasks
    case Preflight(t, _) => At(s, t, Preflighting)
    case TryPromote(t, _, _, _) => At(s, t, Promoting)
    case FailLaunch(t, _, _) => At(s, t, Launching)
    case FinishLaunch(t, _, _) => At(s, t, Launching)
    case Recover(t, next, _, _) => At(s, t, Recovering) && next !in s.tasks
    case Elsewhere(a) => Enabled(env, s.reg, a)
  }

  function MoveTo(s: System, t: nat, pc: Pc): map<nat, Task>
    requires t in s.tasks
  {
    s.tasks[t := s.tasks[t].(pc := pc)]
  }

  ghost function Next(env: Env, s: System, step: Step): System
    requires CanStep(env, s, step)
  {
    match step
    case Complete(t, repo, failed, now) =>
      var (reg', popped) := Completed(env, s.reg, repo, failed, now);
      System(reg', Started(s.tasks, t, popped, false))
    case Preflight(t, ok) =>
      s.(tasks := MoveTo(s, t, if ok then Promoting else FailedPc(s.tasks[t].retry, NotPromoted)))
    case TryPromote(t, osFree, writeOk, now) =>
      var (reg', ok) := Promote(env, s.reg, s.tasks[t].run.runId, osFree, writeOk, now);
      System(reg', MoveTo(s, t, if ok then Launching else FailedPc(s.tasks[t].retry, NotPromoted)))
    case FailLaunch(t, reason, now) =>
      System(StageStatus(env, s.reg, s.tasks[t].run.runId, Failed, None, Some(reason), now).0,
             MoveTo(s, t, FailedPc(s.tasks[t].retry, LaunchFailed)))
    case FinishLaunch(t, flushOk, now) =>
      var (reg', staged) := Launch(env, s.reg, s.tasks[t].run.runId, now);
      System(reg', MoveTo(s, t, if staged && flushOk then Done(Launched) else FailedPc(s.tasks[t].retry, LaunchFailed)))
    case Recover(t, next, reason, now) =>
      var (reg', popped) := Recovery(env, s.reg, s.tasks[t].run, reason, now);
      System(reg', Started(MoveTo(s, t, Done(Recovered)), next, popped, true))
    case Elsewhere(a) => s.(reg := Apply(env, s.reg, a))
  }

  ghost predicate Leads(env: Env, s: System, step: Step, s': System) {
    CanStep(env, s, step) && s' == Next(env, s, step)
  }

  /** Every queued run has an entry. */
  ghost predicate Registered(s: Registry) {
    forall k, id :: id in QueuedIds(s, k) ==> id in s.runs
  }

  ghost predicate Follows(env: Env, states: seq<System>, steps: seq<Step>) {
    && |states| == |steps| + 1
    && (forall i :: 0 <= i < |steps| ==> Leads(env, states[i], steps[i], states[i + 1]))
  }

  /** From any registry whose queued runs have entries, with no task at work. */
  ghost predicate Execution(env: Env, states: seq<System>, steps: seq<Step>) {
    Follows(env, states, steps) && states[0].tasks == map[] && Registered(states[0].reg)
  }

  // ── Queues and entries ─────────────────────────────────────────────

  /** Queues lose runs only, and no entry goes. */
  ghost predicate Shrinks(s: Registry, s': Registry) {
    && s.runs.Keys <= s'.runs.Keys
    && (forall k, id :: id in QueuedIds(s', k) ==> id in QueuedIds(s, k))
  }

  lemma PopShrinks(s: Registry, k: RepoKey)
    ensures var (s', popped) := PopFront(s, k);
      && Shrinks(s, s') && s'.runs == s.runs && s'.locks == s.locks
      && (popped.Some? ==> popped.value.runId in QueuedIds(s, k))
  {
    var (s', popped) := PopFront(s, k);
    if popped.Some? {
      assert QueuedIds(s, k) == [popped.value.runId] + QueuedIds(s', k);
      forall j | j != k ensures QueuedIds(s', j) == QueuedIds(s, j) {}
    }
  }

  lemma DrainShrinks(env: Env, s: Registry, repo: Path)
    ensures var (s', popped) := DrainOwnOrAny(env, s, repo);
      && Shrinks(s, s') && s'.runs == s.runs && s'.locks == s.locks
      && (popped.Some? ==> exists k :: popped.value.runId in QueuedIds(s, k))
  {
    PopShrinks(s, RepoHash(env, repo));
    var (s1, own) := DrainNext(env, s, repo);
    if own.None? && FirstReady(s1, 0).Some? {
      PopShrinks(s1, FirstReady(s1, 0).value);
    }
  }

  lemma FailureShrinks(env: Env, s: Registry, repo: Path, now: Instant)
    ensures var s' := RecordFailure(env, s, repo, now).0;
      && Shrinks(s, s') && s'.runs.Keys == s.runs.Keys
      && (forall x :: x in s.runs && !Pending(s, x) ==> s'.runs[x] == s.runs[x])
  {
    var k, s' := RepoHash(env, repo), RecordFailure(env, s, repo, now).0;
    TripFrame(env, s, k, now);
    forall j ensures QueuedIds(s', j) == QueuedIds(s, j) || QueuedIds(s', j) == [] {}
  }

  lemma CompletionShrinks(env: Env, s: Registry, repo: Path, failed: bool, now: Instant)
    ensures var s' := AfterCompletion(env, s, repo, failed, now).0;
      && Shrinks(s, s') && s'.runs.Keys == s.runs.Keys
      && (forall x :: x in s.runs && !Pending(s, x) ==> s'.runs[x] == s.runs[x])
  {
    FailureShrinks(env, s, repo, now);
    forall k ensures !failed ==> QueuedIds(AfterCompletion(env, s, repo, failed, now).0, k) == QueuedIds(s, k) {}
  }

  lemma ShrinksTwice(a: Registry, b: Registry, c: Registry)
    requires Shrinks(a, b) && Shrinks(b, c)
    ensures Shrinks(a, c)
  {
  }

  lemma SameQueuesShrink(s: Registry, s': Registry)
    requires s'.queues == s.queues && s.runs.Keys <= s'.runs.Keys
    ensures Shrinks(s, s')
  {
    forall k ensures QueuedIds(s', k) == QueuedIds(s, k) {}
  }

  lemma CompletedShrinks(env: Env, s: Registry, repo: Path, failed: bool, now: Instant)
    ensures var (s', popped) := Completed(env, s, repo, failed, now);
      && Shrinks(s, s')
      && (popped.Some? ==> Pending(s, popped.value.runId))
      && (forall x :: x in s.runs && !Pending(s, x) ==> s'.runs[x] == s.runs[x])
  {
    var s1 := AfterCompletion(env, s, repo, failed, now).0;
    var s2 := DrainOwnOrAny(env, s1, repo).0;
    CompletionShrinks(env, s, repo, failed, now);
    DrainShrinks(env, s1, repo);
    ShrinksTwice(s, s1, s2);
    SameQueuesShrink(s2, StageQueue(s2));
    ShrinksTwice(s, s2, StageQueue(s2));
  }

  lemma BlamedShrinks(env: Env, s: Registry, p: PendingRun, reason: string, now: Instant)
    ensures var s' := Blamed(env, s, p, reason, now);
      && Shrinks(s, s')
      && (forall x :: x in s.runs && !Pending(s, x) && x != p.runId ==> s'.runs[x] == s.runs[x])
  {
    var s1 := StageStatus(env, s, p.runId, Failed, None, Some(reason), now).0;
    SameQueuesShrink(s, s1);
    FailureShrinks(env, s1, p.repoDir, now);
    ShrinksTwice(s, s1, Blamed(env, s, p, reason, now));
    forall x ensures Pending(s1, x) == Pending(s, x) {
      forall k ensures QueuedIds(s1, k) == QueuedIds(s, k) {}
    }
  }

  lemma RecoveryShrinks(env: Env, s: Registry, p: PendingRun, reason: string, now: Instant)
    ensures var (s', popped) := Recovery(env, s, p, reason, now);
      && Shrinks(s, s')
      && (popped.Some? ==> Pending(s, popped.value.runId))
      && (forall x :: x in s.runs && !Pending(s, x) && x != p.runId ==> s'.runs[x] == s.runs[x])
  {
    var s2 := Blamed(env, s, p, reason, now);
    var s3 := DrainNext(env, s2, p.repoDir).0;
    BlamedShrinks(env, s, p, reason, now);
    PopShrinks(s2, RepoHash(env, p.repoDir));
    ShrinksTwice(s, s2, s3);
    SameQueuesShrink(s3, StageQueue(s3));
    ShrinksTwice(s, s3, StageQueue(s3));
  }

  lemma RetainShrinks(s: Registry, keep: PendingRun -> bool, s': Registry)
    requires s'.queues == RetainAll(s.queues, keep) && s.runs.Keys <= s'.runs.Keys
    ensures Shrinks(s, s')
  {
    forall k, id | id in QueuedIds(s', k) ensures id in QueuedIds(s, k) {
      var i :| 0 <= i < |QueueOf(s'.queues, k)| && QueueOf(s'.queues, k)[i].runId == id;
      RetainMembers(QueueOf(s.queues, k), keep);
      IdsMember(QueueOf(s.queues, k), QueueOf(s'.queues, k)[i]);
    }
  }

  lemma ActionShrinks(env: Env, s: Registry, a: Action)
    requires Enabled(env, s, a) && !a.Submit?
    ensures Shrinks(s, Apply(env, s, a))
  {
    var s' := Apply(env, s, a);
    if LeavesQueues(a) {
      LeavesQueuesFrame(env, s, a);
      forall x | x in s.runs ensures x in s'.runs { StepAdvances(env, s, a, x); }
      SameQueuesShrink(s, s');
    } else {
      match a
      case Drain(repo) => PopShrinks(s, RepoHash(env, repo));
      case DrainFirstReady => if FirstReady(s, 0).Some? { PopShrinks(s, FirstReady(s, 0).value); }
      case SpawnFailed(repo, now) => FailureShrinks(env, s, repo, now);
      case DropPending(id) => RetainShrinks(s, OtherThan(id), s');
      case DequeueRun(id, now) => if Pending(s, id) { RetainShrinks(s, OtherThan(id), s'); }
      case ClearQueue(filter, ids, now) =>
        StopEachShape(env, s.(queues := RetainAll(s.queues, KeptByClear(env, filter))), ids, "cleared by user", now);
        RetainShrinks(s, KeptByClear(env, filter), s');
      case _ =>
    }
  }

  /** Only a submission adds to a queue, and only its own, unknown run. */
  lemma ActionQueues(env: Env, s: Registry, a: Action)
    requires Enabled(env, s, a)
    ensures s.runs.Keys <= Apply(env, s, a).runs.Keys
    ensures forall k, id :: id in QueuedIds(Apply(env, s, a), k) ==>
      id in QueuedIds(s, k) || (id !in s.runs && id in Apply(env, s, a).runs)
  {
    if a.Submit? {
      var key := RepoHash(env, a.p.repoDir);
      assert Ids(QueueOf(s.queues, key) + [a.p]) == QueuedIds(s, key) + [a.p.runId];
    } else {
      ActionShrinks(env, s, a);
    }
  }

  // ── Every step ─────────────────────────────────────────────────────

  lemma AdvancesTwice(a: RunEntry, b: RunEntry, c: RunEntry)
    requires Advances(a, b) && Advances(b, c)
    ensures Advances(a, c)
  {
  }

  lemma CompletedAdvances(env: Env, s: Registry, repo: Path, failed: bool, now: Instant, x: RunId)
    requires x in s.runs
    ensures var s' := Completed(env, s, repo, failed, now).0; x in s'.runs && Advances(s.runs[x], s'.runs[x])
  {
    TripAdvances(env, s, repo, now, x);
    DrainShrinks(env, AfterCompletion(env, s, repo, failed, now).0, repo);
  }

  lemma LaunchAdvances(env: Env, s: Registry, id: RunId, now: Instant, x: RunId)
    requires x in s.runs
    ensures var (s', staged) := Launch(env, s, id, now);
      && x in s'.runs && Advances(s.runs[x], s'.runs[x])
      && (x == id ==> s'.runs[x].status != Queued)
      && s'.queues == s.queues && s'.runs.Keys == s.runs.Keys
      && (x != id ==> s'.runs[x] == s.runs[x])
  {
    if id in s.runs {
      var f := Fields(s.runs[id]).(tmuxSession := Some(SessionFor(id)));
      var named := EditRun(s, id, f);
      EditAdvances(s, id, f, x);
      StageAdvances(env, named, id, Running, Some("starting"), None, now, x);
      AdvancesTwice(s.runs[x], named.runs[x], Launch(env, s, id, now).0.runs[x]);
    }
  }

  lemma BlamedAdvances(env: Env, s: Registry, p: PendingRun, reason: string, now: Instant, x: RunId)
    requires x in s.runs
    ensures var s' := Blamed(env, s, p, reason, now);
      && x in s'.runs && Advances(s.runs[x], s'.runs[x])
      && (x == p.runId ==> s'.runs[x].status.IsTerminal())
  {
    var s1 := StageStatus(env, s, p.runId, Failed, None, Some(reason), now).0;
    StageAdvances(env, s, p.runId, Failed, None, Some(reason), now, x);
    TripAdvances(env, s1, p.repoDir, now, x);
    AdvancesTwice(s.runs[x], s1.runs[x], Blamed(env, s, p, reason, now).runs[x]);
  }

  lemma RecoveryAdvances(env: Env, s: Registry, p: PendingRun, reason: string, now: Instant, x: RunId)
    requires x in s.runs
    ensures var s' := Recovery(env, s, p, reason, now).0;
      && x in s'.runs && Advances(s.runs[x], s'.runs[x])
      && (x == p.runId ==> s'.runs[x].status.IsTerminal())
  {
    BlamedAdvances(env, s, p, reason, now, x);
    PopShrinks(Blamed(env, s, p, reason, now), RepoHash(env, p.repoDir));
  }

  lemma TaskStepAdvances(env: Env, s: System, step: Step, x: RunId)
    requires CanStep(env, s, step) && x in s.reg.runs
    ensures var s' := Next(env, s, step); x in s'.reg.runs && Advances(s.reg.runs[x], s'.reg.runs[x])
  {
    match step
    case Complete(t, repo, failed, now) => CompletedAdvances(env, s.reg, repo, failed, now, x);
    case Preflight(_, _) =>
    case TryPromote(t, osFree, writeOk, now) => PromoteAdvances(env, s.reg, s.tasks[t].run.runId, osFree, writeOk, now, x);
    case FailLaunch(t, reason, now) => StageAdvances(env, s.reg, s.tasks[t].run.runId, Failed, None, Some(reason), now, x);
    case FinishLaunch(t, _, now) => LaunchAdvances(env, s.reg, s.tasks[t].run.runId, now, x);
    case Recover(t, _, reason, now) => RecoveryAdvances(env, s.reg, s.tasks[t].run, reason, now, x);
    case Elsewhere(a) => StepAdvances(env, s.reg, a, x);
  }

  lemma {:induction false} TasksAdvance(env: Env, states: seq<System>, steps: seq<Step>, i: nat, j: nat, x: RunId)
    requires Follows(env, states, steps) && i <= j < |states| && x in states[i].reg.runs
    ensures x in states[j].reg.runs && Advances(states[i].reg.runs[x], states[j].reg.runs[x])
    decreases j - i
  {
    if i < j {
      assert Leads(env, states[i], steps[i], states[i + 1]);
      TaskStepAdvances(env, states[i], steps[i], x);
      TasksAdvance(env, states, steps, i + 1, j, x);
    }
  }

  /** In the queues after a step: runs queued before it, and new entries. */
  ghost predicate QueuesStep(s: Registry, s': Registry) {
    && s.runs.Keys <= s'.runs.Keys
    && (forall k, id :: id in QueuedIds(s', k) ==> id in QueuedIds(s, k) || (id !in s.runs && id in s'.runs))
  }

  lemma TaskStepQueues(env: Env, s: System, step: Step)
    requires CanStep(env, s, step)
    ensures QueuesStep(s.reg, Next(env, s, step).reg)
  {
    match step
    case Complete(t, repo, failed, now) => CompletedShrinks(env, s.reg, repo, failed, now);
    case Recover(t, _, reason, now) => RecoveryShrinks(env, s.reg, s.tasks[t].run, reason, now);
    case Elsewhere(a) => ActionQueues(env, s.reg, a);
    case FinishLaunch(t, _, now) =>
      forall x | x in s.reg.runs ensures x in Next(env, s, step).reg.runs { TaskStepAdvances(env, s, step, x); }
      SameQueuesShrink(s.reg, Launch(env, s.reg, s.tasks[t].run.runId, now).0);
    case _ => SameQueuesShrink(s.reg, Next(env, s, step).reg);
  }

  // ── How a popped run can stay queued ───────────────────────────────

  ghost predicate TaskSound(s: Registry, t: Task) {
    && t.run.runId in s.runs
    && (t.pc == Recovering ==> !t.retry)
    && (t.pc.Done? ==> s.runs[t.run.runId].status != Queued || (t.retry && t.pc.ending == NotPromoted))
  }

  ghost predicate Sound(s: System) {
    Registered(s.reg) && forall t :: t in s.tasks ==> TaskSound(s.reg, s.tasks[t])
  }

  /** What the step's own task is afterwards, and the one it starts, if any. */
  lemma OwnTaskSound(env: Env, s: System, step: Step, t: nat)
    requires Sound(s) && CanStep(env, s, step) && Touches(step, t)
    requires t in Next(env, s, step).tasks
    ensures TaskSound(Next(env, s, step).reg, Next(env, s, step).tasks[t])
  {
    match step
    case Complete(_, repo, failed, now) =>
      CompletedShrinks(env, s.reg, repo, failed, now);
    case Recover(_, _, reason, now) =>
      RecoveryShrinks(env, s.reg, s.tasks[step.task].run, reason, now);
      RecoveryAdvances(env, s.reg, s.tasks[step.task].run, reason, now, s.tasks[step.task].run.runId);
    case FinishLaunch(_, _, now) => LaunchAdvances(env, s.reg, s.tasks[t].run.runId, now, s.tasks[t].run.runId);
    case FailLaunch(_, _, _) =>
    case TryPromote(_, _, _, _) =>
    case Preflight(_, _) =>
  }

  /** The step is about task `t`, or starts it. */
  predicate Touches(step: Step, t: nat) {
    !step.Elsewhere? && (t == step.task || (step.Recover? && t == step.next))
  }

  lemma OtherTaskSame(env: Env, s: System, step: Step, t: nat)
    requires CanStep(env, s, step) && t in Next(env, s, step).tasks && !Touches(step, t)
    ensures t in s.tasks && Next(env, s, step).tasks[t] == s.tasks[t]
  {
  }

  lemma TaskStepKeepsSound(env: Env, s: System, step: Step)
    requires Sound(s) && CanStep(env, s, step)
    ensures Sound(Next(env, s, step))
  {
    var s' := Next(env, s, step);
    TaskStepQueues(env, s, step);
    forall t | t in s'.tasks ensures TaskSound(s'.reg, s'.tasks[t]) {
      if Touches(step, t) {
        OwnTaskSound(env, s, step, t);
      } else {
        OtherTaskSame(env, s, step, t);
        TaskStepAdvances(env, s, step, s.tasks[t].run.runId);
      }
    }
  }

  lemma {:induction false} ExecutionSound(env: Env, states: seq<System>, steps: seq<Step>, i: nat)
    requires Execution(env, states, steps) && i < |states|
    ensures Sound(states[i])
  {
    if i > 0 {
      ExecutionSound(env, states, steps, i - 1);
      assert Leads(env, states[i - 1], steps[i - 1], states[i]);
      TaskStepKeepsSound(env, states[i - 1], steps[i - 1]);
    }
  }

  /** The step is one of task `t` itself. */
  predicate OwnStep(step: Step, t: nat) {
    match step
    case Complete(_, _, _, _) => false
    case Elsewhere(_) => false
    case _ => step.task == t
  }

  /** Step `m` is one of task `t`, or it does not change the status of `x`. */
  ghost predicate LeftAlone(states: seq<System>, steps: seq<Step>, m: nat, t: nat, x: RunId)
    requires |states| == |steps| + 1 && m < |steps|
  {
    OwnStep(steps[m], t) || (x in states[m].reg.runs && x in states[m + 1].reg.runs
                             && states[m + 1].reg.runs[x].status == states[m].reg.runs[x].status)
  }

  /** Between `i` and `j` only task `t` itself changed the status of `x`. */
  ghost predicate Undisturbed(states: seq<System>, steps: seq<Step>, i: nat, j: nat, t: nat, x: RunId)
    requires |states| == |steps| + 1 && j < |states|
  {
    forall m: nat :: i <= m < j ==> LeftAlone(states, steps, m, t, x)
  }

  predicate DoneWith(s: System, t: nat, ending: Ending) {
    At(s, t, Done(ending))
  }

  /** A task that has not been promoted has left its run's status alone. */
  predicate NotYetPromoted(task: Task) {
    task.pc == Preflighting || task.pc == Promoting || (task.retry && task.pc == Done(NotPromoted))
  }

  lemma TaskStepStays(env: Env, s: System, step: Step, t: nat)
    requires CanStep(env, s, step) && t in s.tasks
    ensures var s' := Next(env, s, step);
      && t in s'.tasks && s'.tasks[t].run == s.tasks[t].run && s'.tasks[t].retry == s.tasks[t].retry
      && (s.tasks[t].retry && NotYetPromoted(s'.tasks[t]) ==> NotYetPromoted(s.tasks[t]))
      && (!OwnStep(step, t) ==> s'.tasks[t] == s.tasks[t])
  {
  }

  lemma UnpromotedStep(env: Env, s: System, step: Step, t: nat)
    requires CanStep(env, s, step) && t in s.tasks && s.tasks[t].retry && OwnStep(step, t)
    requires s.tasks[t].run.runId in s.reg.runs && (s.tasks[t].pc == Recovering ==> !s.tasks[t].retry)
    requires t in Next(env, s, step).tasks && NotYetPromoted(Next(env, s, step).tasks[t])
    ensures var x := s.tasks[t].run.runId;
      x in Next(env, s, step).reg.runs && Next(env, s, step).reg.runs[x].status == s.reg.runs[x].status
  {
  }

  lemma UnpromotedAt(env: Env, states: seq<System>, steps: seq<Step>, m: nat, t: nat)
    requires Execution(env, states, steps) && m < |steps| && t in states[m].tasks && states[m].tasks[t].retry
    ensures t in states[m + 1].tasks && states[m + 1].tasks[t].run == states[m].tasks[t].run && states[m + 1].tasks[t].retry
    ensures NotYetPromoted(states[m + 1].tasks[t]) ==> NotYetPromoted(states[m].tasks[t])
    ensures var x := states[m].tasks[t].run.runId;
      && x in states[m].reg.runs && x in states[m + 1].reg.runs
      && (OwnStep(steps[m], t) && NotYetPromoted(states[m + 1].tasks[t]) ==> states[m + 1].reg.runs[x].status == states[m].reg.runs[x].status)
  {
    assert Leads(env, states[m], steps[m], states[m + 1]);
    ExecutionSound(env, states, steps, m);
    assert TaskSound(states[m].reg, states[m].tasks[t]);
    TaskStepStays(env, states[m], steps[m], t);
    TaskStepAdvances(env, states[m], steps[m], states[m].tasks[t].run.runId);
    if OwnStep(steps[m], t) && NotYetPromoted(states[m + 1].tasks[t]) {
      UnpromotedStep(env, states[m], steps[m], t);
    }
  }

  lemma {:induction false} UnpromotedKeepsStatus(env: Env, states: seq<System>, steps: seq<Step>, i: nat, j: nat, t: nat, x: RunId)
    requires Execution(env, states, steps) && i <= j < |states|
    requires t in states[i].tasks && states[i].tasks[t].retry && states[i].tasks[t].run.runId == x
    requires x in states[i].reg.runs && Undisturbed(states, steps, i, j, t, x)
    requires t in states[j].tasks && NotYetPromoted(states[j].tasks[t])
    ensures NotYetPromoted(states[i].tasks[t])
    ensures x in states[j].reg.runs && states[j].reg.runs[x].status == states[i].reg.runs[x].status
    decreases j - i
  {
    if i < j {
      assert LeftAlone(states, steps, i, t, x);
      UnpromotedAt(env, states, steps, i, t);
      UnpromotedKeepsStatus(env, states, steps, i + 1, j, t, x);
    }
  }

  lemma TaskStaysAt(env: Env, states: seq<System>, steps: seq<Step>, m: nat, t: nat)
    requires Follows(env, states, steps) && m < |steps| && t in states[m].tasks
    ensures t in states[m + 1].tasks && states[m + 1].tasks[t].run == states[m].tasks[t].run
    ensures states[m + 1].tasks[t].retry == states[m].tasks[t].retry
  {
    assert Leads(env, states[m], steps[m], states[m + 1]);
    TaskStepStays(env, states[m], steps[m], t);
  }

  lemma {:induction false} TaskStays(env: Env, states: seq<System>, steps: seq<Step>, i: nat, j: nat, t: nat)
    requires Follows(env, states, steps) && i <= j < |states| && t in states[i].tasks
    ensures t in states[j].tasks && states[j].tasks[t].run == states[i].tasks[t].run
    ensures states[j].tasks[t].retry == states[i].tasks[t].retry
    decreases j - i
  {
    if i < j {
      TaskStaysAt(env, states, steps, i, t);
      TaskStays(env, states, steps, i + 1, j, t);
    }
  }

  /** In every interleaving: a popped run whose task is done is no longer queued,
      unless it was a retry that failed before its promotion. */
  lemma LeftQueuedOnlyByRetry(env: Env, states: seq<System>, steps: seq<Step>, i: nat, t: nat)
    requires Execution(env, states, steps) && i < |states|
    requires t in states[i].tasks && states[i].tasks[t].pc.Done?
    ensures var x := states[i].tasks[t].run.runId;
      x in states[i].reg.runs && (states[i].reg.runs[x].status == Queued ==> states[i].tasks[t].retry && DoneWith(states[i], t, NotPromoted))
  {
    ExecutionSound(env, states, steps, i);
    assert TaskSound(states[i].reg, states[i].tasks[t]);
  }

  /** A run popped while queued, whose status nobody but its own task touches, is
      still queued when that task is done if and only if it was the retry and
      failed at its checks or at its promotion. */
  lemma LeftQueuedIff(env: Env, states: seq<System>, steps: seq<Step>, i: nat, j: nat, t: nat)
    requires Execution(env, states, steps) && i <= j < |states|
    requires t in states[i].tasks && states[i].tasks[t].pc == Preflighting
    requires var x := states[i].tasks[t].run.runId;
      x in states[i].reg.runs && states[i].reg.runs[x].status == Queued && Undisturbed(states, steps, i, j, t, x)
    requires t in states[j].tasks && states[j].tasks[t].pc.Done?
    ensures var x := states[i].tasks[t].run.runId;
      && states[j].tasks[t].run == states[i].tasks[t].run && x in states[j].reg.runs
      && (states[j].reg.runs[x].status == Queued <==> states[j].tasks[t].retry && DoneWith(states[j], t, NotPromoted))
  {
    TaskStays(env, states, steps, i, j, t);
    LeftQueuedOnlyByRetry(env, states, steps, j, t);
    if states[j].tasks[t].retry && DoneWith(states[j], t, NotPromoted) {
      UnpromotedKeepsStatus(env, states, steps, i, j, t, states[i].tasks[t].run.runId);
    }
  }

  // ── What becomes of it ─────────────────────────────────────────────

  /** No queue holds `x` and no unfinished task is at work on it. */
  ghost predicate Forgotten(s: System, x: RunId) {
    x in s.reg.runs && !Pending(s.reg, x) && forall t :: t in s.tasks && s.tasks[t].run.runId == x ==> s.tasks[t].pc.Done?
  }

  /** A step outside `Elsewhere` does not touch the entry of `x`. */
  lemma ForgottenEntry(env: Env, s: System, step: Step, x: RunId)
    requires Forgotten(s, x) && CanStep(env, s, step) && !step.Elsewhere?
    ensures x in Next(env, s, step).reg.runs && Next(env, s, step).reg.runs[x] == s.reg.runs[x]
  {
    match step
    case Complete(_, repo, failed, now) => CompletedShrinks(env, s.reg, repo, failed, now);
    case Recover(t, _, reason, now) => RecoveryShrinks(env, s.reg, s.tasks[t].run, reason, now);
    case FinishLaunch(t, _, now) => LaunchAdvances(env, s.reg, s.tasks[t].run.runId, now, x);
    case _ =>
  }

  /** Nor does any step start a task for it. */
  lemma ForgottenTask(env: Env, s: System, step: Step, x: RunId, t: nat)
    requires Forgotten(s, x) && CanStep(env, s, step)
    requires t in Next(env, s, step).tasks && Next(env, s, step).tasks[t].run.runId == x
    ensures Next(env, s, step).tasks[t].pc.Done?
  {
    if Touches(step, t) {
      match step
      case Complete(_, repo, failed, now) => CompletedShrinks(env, s.reg, repo, failed, now);
      case Recover(r, _, reason, now) => RecoveryShrinks(env, s.reg, s.tasks[r].run, reason, now);
      case _ =>
    } else {
      OtherTaskSame(env, s, step, t);
    }
  }

  lemma ForgottenStep(env: Env, s: System, step: Step, x: RunId)
    requires Forgotten(s, x) && CanStep(env, s, step)
    ensures Forgotten(Next(env, s, step), x)
    ensures !step.Elsewhere? ==> Next(env, s, step).reg.runs[x] == s.reg.runs[x]
  {
    TaskStepQueues(env, s, step);
    forall k ensures x !in QueuedIds(Next(env, s, step).reg, k) {
      assert x !in QueuedIds(s.reg, k);
    }
    forall t | t in Next(env, s, step).tasks && Next(env, s, step).tasks[t].run.runId == x
      ensures Next(env, s, step).tasks[t].pc.Done?
    {
      ForgottenTask(env, s, step, x, t);
    }
    if !step.Elsewhere? {
      ForgottenEntry(env, s, step, x);
    }
  }

  /** A forgotten run is never popped again: no completion, task or recovery ever
      changes its entry, so a queued one stays queued until an action elsewhere,
      such as a user's stop, changes its status. */
  lemma {:induction false} ForgottenStaysQueued(env: Env, states: seq<System>, steps: seq<Step>, i: nat, j: nat, x: RunId)
    requires Follows(env, states, steps) && i <= j < |states|
    requires Forgotten(states[i], x)
    requires forall m :: i <= m < j && steps[m].Elsewhere? ==>
      (x in states[m].reg.runs && x in states[m + 1].reg.runs ==> states[m + 1].reg.runs[x].status == states[m].reg.runs[x].status)
    ensures Forgotten(states[j], x) && states[j].reg.runs[x].status == states[i].reg.runs[x].status
    decreases j - i
  {
    if i < j {
      assert Leads(env, states[i], steps[i], states[i + 1]);
      ForgottenStep(env, states[i], steps[i], x);
      ForgottenStaysQueued(env, states, steps, i + 1, j, x);
    }
  }

  /** As long as an entry is active, wherever it came from and whatever happens in
      between, no run with a matching plan is accepted for its repository. */
  lemma ActiveEntryBlocksItsPlan(env: Env, states: seq<System>, steps: seq<Step>, i: nat, j: nat, x: RunId, q: PendingRun)
    requires Follows(env, states, steps) && i <= j < |steps| && x in states[i].reg.runs
    requires steps[j] == Elsewhere(Submit(q))
    requires x in states[j].reg.runs && !states[j].reg.runs[x].status.IsTerminal()
    requires RepoHash(env, q.repoDir) == RepoHash(env, states[i].reg.runs[x].repoDir)
    requires PlansMatch(env, states[i].reg.runs[x].planPath, q.planPath, q.repoDir)
    ensures !Enqueue(env, states[j].reg, q).1.Enqueued? && states[j + 1] == states[j]
  {
    TasksAdvance(env, states, steps, i, j, x);
    assert HasActiveDuplicate(env, states[j].reg, q);
    assert Leads(env, states[j], steps[j], states[j + 1]);
  }

  // ── Executions that get there ──────────────────────────────────────

  /** The queue of `k` starts with two runs of that repository, both queued. */
  ghost predicate TwoWait(env: Env, s: Registry, k: RepoKey, p: PendingRun, q: PendingRun) {
    && |QueueOf(s.queues, k)| >= 2 && QueueOf(s.queues, k)[0] == p && QueueOf(s.queues, k)[1] == q
    && p.runId in s.runs && s.runs[p.runId].status == Queued && RepoHash(env, s.runs[p.runId].repoDir) == k
    && q.runId in s.runs && s.runs[q.runId].status == Queued && RepoHash(env, s.runs[q.runId].repoDir) == k
  }

  lemma FirstTwoDiffer(env: Env, s: Registry, k: RepoKey, p: PendingRun, q: PendingRun)
    requires WellFormed(env, s) && TwoWait(env, s, k, p, q)
    ensures p.runId != q.runId && RepoHash(env, p.repoDir) == k && RepoHash(env, q.repoDir) == k
  {
    assert NoDup(QueuedIds(s, k));
    assert QueuedIds(s, k)[0] == p.runId && QueuedIds(s, k)[1] == q.runId;
  }

  /** After `p` has been popped: `q` is next, and nothing else is known to have changed. */
  ghost predicate PoppedFirst(s: Registry, s': Registry, k: RepoKey) {
    && s' == s.(queues := s'.queues, failures := s'.failures, queueEpoch := s'.queueEpoch)
    && k in s.queues && s.queues[k] != [] && s'.queues == s.queues[k := s.queues[k][1..]]
    && FailuresOf(s', k) <= FailuresOf(s, k)
  }

  lemma CompletedPops(env: Env, s: Registry, k: RepoKey, p: PendingRun, repo: Path, now: Instant)
    requires DrainOwnOrAny(env, RecordSuccess(env, s, repo), repo).1 == Some(p)
    requires WellFormed(env, s) && RepoHash(env, p.repoDir) == k
    ensures var (s', popped) := Completed(env, s, repo, false, now); popped == Some(p) && PoppedFirst(s, s', k)
  {
    var s1 := RecordSuccess(env, s, repo);
    var own := DrainNext(env, s1, repo).1;
    var j := if own.Some? then RepoHash(env, repo) else FirstReady(s1, 0).value;
    assert QueueOf(s.queues, j) != [] && QueueOf(s.queues, j)[0] == p;
    assert j in s.queues && RepoHash(env, s.queues[j][0].repoDir) == j;
  }

  /** One failure below the limit: the run fails, its lock goes, and the next run
      of its repository is popped. */
  lemma RecoveryPops(env: Env, s: Registry, k: RepoKey, p: PendingRun, q: PendingRun, reason: string, now: Instant)
    requires p.runId in s.runs && RepoHash(env, s.runs[p.runId].repoDir) == k && RepoHash(env, p.repoDir) == k
    requires k in s.queues && s.queues[k] != [] && s.queues[k][0] == q
    requires FailuresOf(s, k) + 1 < MAX_CONSECUTIVE_FAILURES
    ensures var (s', popped) := Recovery(env, s, p, reason, now);
      && popped == Some(q)
      && s'.locks == s.locks - {k}
      && s'.runs == s.runs[p.runId := StagedEntry(s.runs[p.runId], Failed, None, Some(reason), now)]
      && s'.queues == s.queues[k := s.queues[k][1..]]
  {
  }

  lemma CompleteStep(env: Env, s: System, k: RepoKey, p: PendingRun, repo: Path, t: nat, now: Instant) returns (s': System)
    requires DrainOwnOrAny(env, RecordSuccess(env, s.reg, repo), repo).1 == Some(p)
    requires WellFormed(env, s.reg) && RepoHash(env, p.repoDir) == k && t !in s.tasks
    ensures Leads(env, s, Complete(t, repo, false, now), s')
    ensures s'.tasks == s.tasks[t := Task(p, false, Preflighting)] && PoppedFirst(s.reg, s'.reg, k)
    ensures RepoHash(env, repo) == k ==> FailuresOf(s'.reg, k) == 0
  {
    s' := Next(env, s, Complete(t, repo, false, now));
    CompletedPops(env, s.reg, k, p, repo, now);
  }

  lemma RecoverStep(env: Env, s: System, k: RepoKey, q: PendingRun, t: nat, u: nat, reason: string, now: Instant) returns (s': System)
    requires At(s, t, Recovering) && u !in s.tasks
    requires var p := s.tasks[t].run;
      p.runId in s.reg.runs && RepoHash(env, s.reg.runs[p.runId].repoDir) == k && RepoHash(env, p.repoDir) == k
    requires k in s.reg.queues && s.reg.queues[k] != [] && s.reg.queues[k][0] == q
    requires FailuresOf(s.reg, k) + 1 < MAX_CONSECUTIVE_FAILURES
    ensures Leads(env, s, Recover(t, u, reason, now), s')
    ensures s'.tasks == s.tasks[t := s.tasks[t].(pc := Done(Recovered))][u := Task(q, true, Preflighting)]
    ensures var p := s.tasks[t].run;
      s'.reg.runs == s.reg.runs[p.runId := StagedEntry(s.reg.runs[p.runId], Failed, None, Some(reason), now)]
    ensures s'.reg.locks == s.reg.locks - {k} && s'.reg.queues == s.reg.queues[k := s.reg.queues[k][1..]]
  {
    s' := Next(env, s, Recover(t, u, reason, now));
    RecoveryPops(env, s.reg, k, s.tasks[t].run, q, reason, now);
  }

  lemma GiveUpRetry(env: Env, s: System, u: nat, q: PendingRun) returns (s': System)
    requires u in s.tasks && s.tasks[u] == Task(q, true, Preflighting)
    requires q.runId in s.reg.runs && !Pending(s.reg, q.runId)
    requires forall v :: v in s.tasks && v != u && s.tasks[v].run.runId == q.runId ==> s.tasks[v].pc.Done?
    ensures Leads(env, s, Preflight(u, false), s')
    ensures s' == s.(tasks := s.tasks[u := Task(q, true, Done(NotPromoted))]) && Forgotten(s', q.runId)
  {
    s' := Next(env, s, Preflight(u, false));
  }

  /** The two waiting runs of a repository are popped one after the other, and both
      fail their checks: the first ends as failed, the second stays queued, in no
      queue and with no task at work. */
  lemma RetryLeavesRunQueued(env: Env, s: System, repo: Path, p: PendingRun, q: PendingRun, t: nat, u: nat, reason: string, now: Instant)
    returns (s1: System, s2: System, s3: System, s4: System)
    requires WellFormed(env, s.reg) && TwoWait(env, s.reg, RepoHash(env, repo), p, q)
    requires t !in s.tasks && u !in s.tasks && t != u
    requires forall v :: v in s.tasks && s.tasks[v].run.runId == q.runId ==> s.tasks[v].pc.Done?
    ensures Leads(env, s, Complete(t, repo, false, now), s1) && Leads(env, s1, Preflight(t, false), s2)
    ensures Leads(env, s2, Recover(t, u, reason, now), s3) && Leads(env, s3, Preflight(u, false), s4)
    ensures Forgotten(s4, q.runId) && s4.reg.runs[q.runId].status == Queued
    ensures DoneWith(s4, t, Recovered) && DoneWith(s4, u, NotPromoted)
    ensures p.runId in s4.reg.runs && s4.reg.runs[p.runId].status == Failed
  {
    var k := RepoHash(env, repo);
    FirstTwoDiffer(env, s.reg, k, p, q);
    assert DrainNext(env, RecordSuccess(env, s.reg, repo), repo).1 == Some(p);
    s1 := CompleteStep(env, s, k, p, repo, t, now);
    s2 := Next(env, s1, Preflight(t, false));
    s3 := RecoverStep(env, s2, k, q, t, u, reason, now);
    PoppedIsNotPending(env, s.reg, k, q, s3.reg);
    s4 := GiveUpRetry(env, s3, u, q);
  }

  lemma PoppedIsNotPending(env: Env, s: Registry, k: RepoKey, q: PendingRun, s': Registry)
    requires WellFormed(env, s) && k in s.queues && |s.queues[k]| >= 2 && s.queues[k][1] == q
    requires s'.queues == s.queues[k := s.queues[k][1..][1..]]
    ensures !Pending(s', q.runId)
  {
    assert NoDup(QueuedIds(s, k)) && QueuedIds(s, k)[1] == q.runId;
    forall j ensures q.runId !in QueuedIds(s', j) {
      if j == k {
        forall i | 0 <= i < |QueuedIds(s', k)| ensures QueuedIds(s', k)[i] != q.runId {
          assert QueuedIds(s', k)[i] == QueuedIds(s, k)[i + 2];
        }
      } else {
        assert Disjoint(QueuedIds(s, k), QueuedIds(s, j));
      }
    }
  }

  // ── Draining into a busy repository ────────────────────────────────

  /** The drain does not look at locks. A drained run that is still queued can be
      promoted if and only if its repository is unlocked; and once its failure is
      staged, a lock held before is still held if and only if it is another
      repository's. So whoever works in the same repository loses its lock. */
  lemma DrainedRunAgainstLock(env: Env, s: Registry, p: PendingRun, reason: string, now: Instant, k: RepoKey)
    requires p.runId in s.runs && s.runs[p.runId].status == Queued && k in s.locks
    ensures Promote(env, s, p.runId, true, true, now).1 <==> RepoHash(env, s.runs[p.runId].repoDir) !in s.locks
    ensures k in StageStatus(env, s, p.runId, Failed, None, Some(reason), now).0.locks <==> RepoHash(env, s.runs[p.runId].repoDir) != k
  {
  }

  lemma RetryPromoted(env: Env, s: System, k: RepoKey, p: PendingRun, q: PendingRun, t: nat, u: nat, reason: string, now: Instant)
    returns (s1: System, s2: System, s3: System)
    requires At(s, t, Recovering) && s.tasks[t].run == p && u !in s.tasks
    requires p.runId in s.reg.runs && RepoHash(env, s.reg.runs[p.runId].repoDir) == k && RepoHash(env, p.repoDir) == k
    requires k in s.reg.queues && s.reg.queues[k] != [] && s.reg.queues[k][0] == q && q.runId != p.runId
    requires q.runId in s.reg.runs && s.reg.runs[q.runId].status == Queued && RepoHash(env, s.reg.runs[q.runId].repoDir) == k
    requires FailuresOf(s.reg, k) + 1 < MAX_CONSECUTIVE_FAILURES
    ensures Leads(env, s, Recover(t, u, reason, now), s1) && Leads(env, s1, Preflight(u, true), s2)
    ensures Leads(env, s2, TryPromote(u, true, true, now), s3) && At(s3, u, Launching)
    ensures forall x :: x in s.reg.runs && x != p.runId && x != q.runId ==> x in s3.reg.runs && s3.reg.runs[x] == s.reg.runs[x]
    ensures q.runId in s3.reg.runs && s3.reg.runs[q.runId] == PromotedEntry(s.reg.runs[q.runId], now)
  {
    s1 := RecoverStep(env, s, k, q, t, u, reason, now);
    s2 := Next(env, s1, Preflight(u, true));
    s3 := Next(env, s2, TryPromote(u, true, true, now));
  }

  /** Run `a` is at work and holds its repository's lock; a completion elsewhere
      drains the first of two runs that wait there. It cannot be promoted, its
      failure frees the lock of `a`, and its retry is promoted beside `a`. */
  lemma DrainLetsSecondRunIn(env: Env, s: System, repo: Path, a: RunId, p: PendingRun, q: PendingRun, t: nat, u: nat, reason: string, now: Instant)
    returns (s1: System, s2: System, s3: System, s4: System, s5: System, s6: System)
    requires WellFormed(env, s.reg) && t !in s.tasks && u !in s.tasks && t != u
    requires a in s.reg.runs && s.reg.runs[a].status == Running
    requires var k := RepoHash(env, s.reg.runs[a].repoDir);
      k in s.reg.locks && TwoWait(env, s.reg, k, p, q) && FailuresOf(s.reg, k) + 1 < MAX_CONSECUTIVE_FAILURES
    requires DrainOwnOrAny(env, RecordSuccess(env, s.reg, repo), repo).1 == Some(p)
    ensures Leads(env, s, Complete(t, repo, false, now), s1) && Leads(env, s1, Preflight(t, true), s2)
    ensures Leads(env, s2, TryPromote(t, true, true, now), s3) && At(s3, t, Recovering)
    ensures Leads(env, s3, Recover(t, u, reason, now), s4) && Leads(env, s4, Preflight(u, true), s5)
    ensures Leads(env, s5, TryPromote(u, true, true, now), s6) && At(s6, u, Launching)
    ensures a in s6.reg.runs && s6.reg.runs[a] == s.reg.runs[a]
    ensures q.runId in s6.reg.runs && q.runId != a && !s6.reg.runs[q.runId].status.IsTerminal()
    ensures RepoHash(env, s6.reg.runs[q.runId].repoDir) == RepoHash(env, s6.reg.runs[a].repoDir)
  {
    var k := RepoHash(env, s.reg.runs[a].repoDir);
    FirstTwoDiffer(env, s.reg, k, p, q);
    s1 := CompleteStep(env, s, k, p, repo, t, now);
    s2 := Next(env, s1, Preflight(t, true));
    DrainedRunAgainstLock(env, s2.reg, p, reason, now, k);
    s3 := Next(env, s2, TryPromote(t, true, true, now));
    s4, s5, s6 := RetryPromoted(env, s3, k, p, q, t, u, reason, now);
  }
}

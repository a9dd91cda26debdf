/** The life of one run under every interleaving of registry actions: terminal
    statuses are final, and two active queued runs of a repository never carry
    the same plan. Modelled on src/daemon/registry.rs. */
module RunLifecycle {
  import opened Prelude
  import opened RunModel
  import opened RegistrySpec
  import opened RegistrySystem

  /** How an entry may change over time: identity, plan and repository are fixed;
      the status only moves forward; any move raises the write epoch. */
  ghost predicate Advances(e: RunEntry, e': RunEntry) {
    && e'.runId == e.runId && e'.planPath == e.planPath && e'.repoDir == e.repoDir
    && TransitionAllowed(e.status, e'.status)
    && e'.writeEpoch >= e.writeEpoch
    && (e'.status != e.status ==> e'.writeEpoch > e.writeEpoch)
  }

  lemma StopEachAdvances(env: Env, s: Registry, ids: seq<RunId>, reason: string, now: Instant, id: RunId)
    requires id in s.runs
    ensures var s' := StopEach(env, s, ids, reason, now).0;
      id in s'.runs && Advances(s.runs[id], s'.runs[id])
  {
  }

  lemma StagedEntryAdvances(e: RunEntry, status: RunStatus, phase: Option<string>, error: Option<string>, now: Instant)
    requires TransitionAllowed(e.status, status)
    ensures Advances(e, StagedEntry(e, status, phase, error, now))
  {
  }

  lemma StageAdvances(env: Env, s: Registry, id: RunId, status: RunStatus, phase: Option<string>, error: Option<string>, now: Instant, x: RunId)
    requires x in s.runs
    ensures var s' := StageStatus(env, s, id, status, phase, error, now).0;
      x in s'.runs && Advances(s.runs[x], s'.runs[x])
  {
    if id == x && TransitionAllowed(s.runs[x].status, status) {
      StagedEntryAdvances(s.runs[x], status, phase, error, now);
    }
  }

  lemma RegisterAdvances(env: Env, s: Registry, entry: RunEntry, osFree: bool, writeOk: bool, x: RunId)
    requires x in s.runs && entry.runId !in s.runs
    ensures var s' := Register(env, s, entry, osFree, writeOk).0;
      x in s'.runs && s'.runs[x] == s.runs[x]
  {
  }

  lemma PromoteAdvances(env: Env, s: Registry, id: RunId, osFree: bool, writeOk: bool, now: Instant, x: RunId)
    requires x in s.runs
    ensures var s' := Promote(env, s, id, osFree, writeOk, now).0;
      x in s'.runs && Advances(s.runs[x], s'.runs[x]) && s'.runs[x].writeEpoch == s.runs[x].writeEpoch
  {
  }

  lemma EditAdvances(s: Registry, id: RunId, f: EditedFields, x: RunId)
    requires x in s.runs
    ensures var s' := EditRun(s, id, f);
      x in s'.runs && Advances(s.runs[x], s'.runs[x]) && s'.runs[x].writeEpoch == s.runs[x].writeEpoch
  {
  }

  lemma DequeueAdvances(env: Env, s: Registry, id: RunId, now: Instant, x: RunId)
    requires x in s.runs
    ensures var s' := Dequeue(env, s, id, now).0;
      x in s'.runs && Advances(s.runs[x], s'.runs[x])
  {
    StageAdvances(env, RemovePending(s, id), id, Stopped, None, Some("removed from queue"), now, x);
  }

  lemma TripAdvances(env: Env, s: Registry, repo: Path, now: Instant, x: RunId)
    requires x in s.runs
    ensures var s' := RecordFailure(env, s, repo, now).0;
      x in s'.runs && Advances(s.runs[x], s'.runs[x])
  {
    var k := RepoHash(env, repo);
    var emptied := if k in s.queues then s.queues[k := []] else s.queues;
    StopEachAdvances(env, s.(queues := emptied), QueuedIds(s, k), "circuit breaker tripped", now, x);
  }

  lemma StepAdvances(env: Env, s: Registry, a: Action, id: RunId)
    requires Enabled(env, s, a) && id in s.runs
    ensures id in Apply(env, s, a).runs
    ensures Advances(s.runs[id], Apply(env, s, a).runs[id])
  {
    match a
    case Stage(x, status, phase, error, now) => StageAdvances(env, s, x, status, phase, error, now, id);
    case RegisterRun(entry, osFree, writeOk) => RegisterAdvances(env, s, entry, osFree, writeOk, id);
    case PromoteRun(x, osFree, writeOk, now) => PromoteAdvances(env, s, x, osFree, writeOk, now, id);
    case Edit(x, fields) => EditAdvances(s, x, fields, id);
    case DequeueRun(x, now) => DequeueAdvances(env, s, x, now, id);
    case SpawnFailed(repo, now) => TripAdvances(env, s, repo, now, id);
    case ClearQueue(filter, ids, now) =>
      StopEachAdvances(env, s.(queues := RetainAll(s.queues, KeptByClear(env, filter))), ids, "cleared by user", now, id);
    case Submit(_) =>
    case Drain(_) =>
    case DrainFirstReady =>
    case DropPending(_) =>
    case SpawnSucceeded(_) =>
    case Snapshot =>
  }

  /** A run never leaves the registry, and between any two moments its entry has
      only advanced: once terminal it stays terminal, once running it is never
      queued again, and an unchanged write epoch means an unchanged status. */
  lemma {:induction false} TerminalIsFinal(env: Env, states: seq<Registry>, actions: seq<Action>, i: nat, j: nat, id: RunId)
    requires Execution(env, states, actions)
    requires i <= j < |states| && id in states[i].runs
    ensures id in states[j].runs
    ensures states[i].runs[id].status.IsTerminal() ==> states[j].runs[id].status.IsTerminal()
    ensures states[i].runs[id].status == Running ==> states[j].runs[id].status != Queued
    ensures states[i].runs[id].writeEpoch == states[j].runs[id].writeEpoch ==> states[i].runs[id].status == states[j].runs[id].status
    ensures Advances(states[i].runs[id], states[j].runs[id])
    decreases j - i
  {
    if i < j {
      StepAdvances(env, states[i], actions[i], id);
      TerminalIsFinal(env, states, actions, i + 1, j, id);
    }
  }

  /** Successful stagings of `id` among actions `i` to `j`. */
  ghost function StagingsOf(env: Env, states: seq<Registry>, actions: seq<Action>, id: RunId, i: nat, j: nat): nat
    requires Execution(env, states, actions) && i <= j < |states|
    decreases j - i
  {
    if i == j then 0
    else
      var a := actions[i];
      var staged := a.Stage? && a.id == id && StageStatus(env, states[i], id, a.status, a.phase, a.error, a.now).1.Staged?;
      (if staged then 1 else 0) + StagingsOf(env, states, actions, id, i + 1, j)
  }

  /** The write epoch grows at least by one with each staging, so two snapshots of
      a run taken by different stagings never share an epoch. */
  lemma {:induction false} EpochCountsStagings(env: Env, states: seq<Registry>, actions: seq<Action>, id: RunId, i: nat, j: nat)
    requires Execution(env, states, actions) && i <= j < |states|
    requires id in states[i].runs
    ensures id in states[j].runs
    ensures states[j].runs[id].writeEpoch >= states[i].runs[id].writeEpoch + StagingsOf(env, states, actions, id, i, j)
    decreases j - i
  {
    if i < j {
      StepAdvances(env, states[i], actions[i], id);
      assert states[i + 1] == Apply(env, states[i], actions[i]);
      EpochCountsStagings(env, states, actions, id, i + 1, j);
    }
  }

  // ── No duplicate active plans ──────────────────────────────────────

  /** Step `j` put run `p` in a queue. */
  ghost predicate EnqueuedAt(env: Env, states: seq<Registry>, actions: seq<Action>, j: nat, p: PendingRun)
    requires Execution(env, states, actions)
  {
    j < |actions| && actions[j] == Submit(p) && Enqueue(env, states[j], p).1.Enqueued?
  }

  ghost predicate ActiveOn(env: Env, s: Registry, id: RunId, k: RepoKey) {
    id in s.runs && !s.runs[id].status.IsTerminal() && RepoHash(env, s.runs[id].repoDir) == k
  }

  /** A run that was known when `y` was enqueued, and is still active together
      with `y` on one repository, has another plan than `y`. */
  lemma NoActiveDuplicates(env: Env, states: seq<Registry>, actions: seq<Action>, j: nat, y: PendingRun, x: RunId, i: nat)
    requires Execution(env, states, actions)
    requires EnqueuedAt(env, states, actions, j, y) && j < i < |states|
    requires x in states[j].runs
    requires ActiveOn(env, states[i], x, RepoHash(env, y.repoDir)) && ActiveOn(env, states[i], y.runId, RepoHash(env, y.repoDir))
    ensures x != y.runId
    ensures states[i].runs[y.runId].planPath == y.planPath
    ensures !PlansMatch(env, states[i].runs[x].planPath, states[i].runs[y.runId].planPath, y.repoDir)
  {
    TerminalIsFinal(env, states, actions, j, i, x);
    assert states[j + 1] == Apply(env, states[j], Submit(y));
    TerminalIsFinal(env, states, actions, j + 1, i, y.runId);
    assert !HasActiveDuplicate(env, states[j], y);
  }

  /** Two runs enqueued for one repository directory that are both active never
      match, in either order. */
  lemma ActiveQueuedPlansDiffer(env: Env, states: seq<Registry>, actions: seq<Action>, j1: nat, x: PendingRun, j2: nat, y: PendingRun, i: nat)
    requires Execution(env, states, actions)
    requires EnqueuedAt(env, states, actions, j1, x) && EnqueuedAt(env, states, actions, j2, y)
    requires j1 < i < |states| && j2 < i && j1 != j2
    requires x.repoDir == y.repoDir
    requires ActiveOn(env, states[i], x.runId, RepoHash(env, y.repoDir)) && ActiveOn(env, states[i], y.runId, RepoHash(env, y.repoDir))
    ensures !PlansMatch(env, x.planPath, y.planPath, y.repoDir) && !PlansMatch(env, y.planPath, x.planPath, y.repoDir)
  {
    PlansMatchEquivalence(env, y.repoDir, x.planPath, y.planPath, y.planPath);
    if j1 < j2 {
      OtherStillHasItsPlan(env, states, actions, j1, x, j2, i);
      NoActiveDuplicates(env, states, actions, j2, y, x.runId, i);
    } else {
      OtherStillHasItsPlan(env, states, actions, j2, y, j1, i);
      NoActiveDuplicates(env, states, actions, j1, x, y.runId, i);
    }
  }

  lemma OtherStillHasItsPlan(env: Env, states: seq<Registry>, actions: seq<Action>, j: nat, p: PendingRun, later: nat, i: nat)
    requires Execution(env, states, actions)
    requires EnqueuedAt(env, states, actions, j, p) && j < later < i < |states|
    ensures p.runId in states[later].runs && p.runId in states[i].runs
    ensures states[i].runs[p.runId].planPath == p.planPath
  {
    assert states[j + 1] == Apply(env, states[j], Submit(p));
    TerminalIsFinal(env, states, actions, j + 1, later, p.runId);
    TerminalIsFinal(env, states, actions, later, i, p.runId);
  }
}

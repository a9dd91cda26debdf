/** Bringing the registry in line with the tmux sessions found at startup.
    Modelled on src/daemon/reconciler.rs. */
module Reconciler {
  import opened Prelude
  import opened RunModel
  import opened RegistrySpec
  import opened RegistrySystem
  import opened RunRegistryClass
  import opened SessionCollisions

  /** What the reconciler finds outside the registry: live `gw-*` sessions, the
      readable meta.json files by directory name, the plan each repository's loop
      state is working on, and which locks, checkpoints and paths exist. */
  datatype World = World(
    sessions: seq<string>,
    meta: map<string, RunEntry>,
    livePlan: Path -> Option<Path>,
    skipPlanMatch: bool,
    lockFree: Path -> bool,
    hasCheckpoint: Path -> bool,
    pathExists: Path -> bool)

  datatype Report = Report(
    recovered: nat, adopted: nat, cleanedUp: nat, autoResumed: nat,
    markedFailed: nat, respawned: nat, sessionsScanned: nat, collisionsResolved: nat)

  predicate Named(e: RunEntry, session: string) {
    e.sessionName == session || session == SessionFor(e.runId)
  }

  predicate NamedByLive(w: World, e: RunEntry) {
    SessionFor(e.runId) in w.sessions || e.sessionName in w.sessions
  }

  /** What every run still active after reconciliation can show for itself. */
  ghost predicate Accounted(w: World, s: Registry, id: RunId)
    requires id in s.runs
  {
    var e := s.runs[id];
    || (e.status == Queued && Pending(s, id))
    || NamedByLive(w, e)
    || (e.status == Running && e.tmuxSession == Some(SessionFor(id)))
  }

  ghost predicate AllAccounted(w: World, s: Registry) {
    forall id :: id in s.runs && Active(s.runs[id]) ==> Accounted(w, s, id)
  }

  /** Every meta.json lies in the directory of its own run. */
  ghost predicate MetaFiled(w: World) {
    forall id :: id in w.meta ==> w.meta[id].runId == id
  }

  // ── Live sessions ──────────────────────────────────────────────────

  datatype Fate = Recovered | AdoptedAs(id: RunId) | CleanedUp

  predicate SamePlan(env: Env, w: World, e: RunEntry) {
    w.skipPlanMatch || w.livePlan(e.repoDir).None? || PlansMatch(env, w.livePlan(e.repoDir).value, e.planPath, e.repoDir)
  }

  function AdoptedEntry(e: RunEntry, session: string): RunEntry {
    e.(tmuxSession := Some(session), status := Running, currentPhase := Some("adopted"), errorMessage := None, finishedAt := None)
  }

  /** The entry of `x` is that of the meta.json in directory `id`, alive under the
      session name of that directory, taken in as running with its lock held. */
  ghost predicate TakenBy(env: Env, w: World, s: Registry, x: RunId, id: RunId) {
    && SessionFor(id) in w.sessions && id in w.meta && w.meta[id].runId == x
    && x in s.runs && s.runs[x] == AdoptedEntry(w.meta[id], SessionFor(id))
    && SamePlan(env, w, w.meta[id])
    && RepoHash(env, w.meta[id].repoDir) in s.locks
  }

  /** `s'` is `s` with some runs taken in from disk. A registered run is replaced
      only by a meta.json that lies in another run's directory. */
  ghost predicate AdoptedFrom(env: Env, w: World, s: Registry, s': Registry) {
    && s' == s.(runs := s'.runs, locks := s'.locks)
    && s.locks <= s'.locks
    && (forall x :: x in s.runs ==> x in s'.runs && (s'.runs[x] == s.runs[x] || exists id :: id != x && TakenBy(env, w, s', x, id)))
    && (forall x :: x in s'.runs && x !in s.runs ==> exists id :: TakenBy(env, w, s', x, id))
  }

  /** So when every meta.json lies in its own directory, no registered run changes. */
  lemma FiledAdoption(env: Env, w: World, s: Registry, s': Registry)
    requires MetaFiled(w) && AdoptedFrom(env, w, s, s')
    ensures forall x :: x in s.runs ==> s'.runs[x] == s.runs[x]
  {
  }

  /** Unknown, but on disk with the plan at work there and a lock to be had. */
  ghost predicate CanAdopt(env: Env, w: World, s: Registry, id: RunId) {
    && id !in s.runs && id in w.meta && SamePlan(env, w, w.meta[id])
    && AdoptLock(env, s, w.meta[id].repoDir, w.lockFree(w.meta[id].repoDir)).1
  }

  ghost predicate Adoptable(env: Env, w: World, s: Registry, id: RunId) {
    id in s.runs || CanAdopt(env, w, s, id)
  }

  /** The entry goes under the run id it holds, whichever directory it lay in, and
      its repository is locked. */
  ghost predicate EntersAs(env: Env, w: World, s: Registry, s': Registry, id: RunId) {
    && id in w.meta
    && s' == s.(runs := s.runs[w.meta[id].runId := AdoptedEntry(w.meta[id], SessionFor(id))],
                locks := s.locks + {RepoHash(env, w.meta[id].repoDir)})
  }

  method AdoptFromDisk(reg: RunRegistry, w: World, id: RunId) returns (ok: bool)
    requires SessionFor(id) in w.sessions && id in w.meta && id !in reg.runs
    modifies reg
    ensures AdoptedFrom(reg.env, w, old(reg.View()), reg.View())
    ensures ok <==> CanAdopt(reg.env, w, old(reg.View()), id)
    ensures var e := w.meta[id];
      ok <==> && (w.skipPlanMatch || w.livePlan(e.repoDir).None? || PlansMatch(reg.env, w.livePlan(e.repoDir).value, e.planPath, e.repoDir))
              && (RepoHash(reg.env, e.repoDir) in old(reg.repoLocks) || w.lockFree(e.repoDir))
    ensures var e := w.meta[id];
      ok ==> reg.runs == old(reg.runs)[e.runId := e.(tmuxSession := Some("gw-" + id), status := Running, currentPhase := Some("adopted"),
                                                     errorMessage := None, finishedAt := None)]
    ensures if ok then EntersAs(reg.env, w, old(reg.View()), reg.View(), id) else reg.View() == old(reg.View())
  {
    var entry := w.meta[id];
    if !w.skipPlanMatch {
      var live := w.livePlan(entry.repoDir);
      if live.Some? && !PlansMatch(reg.env, live.value, entry.planPath, entry.repoDir) {
        return false;
      }
    }
    entry := entry.(tmuxSession := Some("gw-" + id), status := Running, currentPhase := Some("adopted"), errorMessage := None, finishedAt := None);
    var locked := reg.AcquireRepoLockForAdopt(entry.repoDir, w.lockFree(entry.repoDir));
    if !locked {
      return false;
    }
    reg.runs := reg.runs[entry.runId := entry];
    ok := true;
    assert TakenBy(reg.env, w, reg.View(), entry.runId, id);
  }

  method TryAdoptOrphan(reg: RunRegistry, w: World, name: string) returns (adopted: Option<RunId>)
    requires name in w.sessions
    modifies reg
    ensures AdoptedFrom(reg.env, w, old(reg.View()), reg.View())
    ensures adopted.Some? ==> name == SessionFor(adopted.value)
    ensures adopted.Some? && adopted.value !in old(reg.runs) ==>
      CanAdopt(reg.env, w, old(reg.View()), adopted.value) && EntersAs(reg.env, w, old(reg.View()), reg.View(), adopted.value)
    ensures adopted.None? || adopted.value in old(reg.runs) ==> reg.View() == old(reg.View())
    ensures adopted.Some? <==> exists id :: name == SessionFor(id) && Adoptable(reg.env, w, old(reg.View()), id)
  {
    var stripped := StripPrefix(name);
    forall id | name == SessionFor(id) ensures stripped == Some(id) {
      StripPrefixInverse(name, id);
    }
    if stripped.None? {
      return None;
    }
    var id := stripped.value;
    StripPrefixInverse(name, id);
    if id in reg.runs {
      return stripped;
    }
    if id !in w.meta {
      return None;
    }
    var ok := AdoptFromDisk(reg, w, id);
    adopted := if ok then stripped else None;
  }

  /** The registry is searched in no fixed order, so any run so named may be found. */
  method FindRunByTmuxSession(reg: RunRegistry, name: string) returns (found: Option<RunId>)
    ensures found.Some? ==> found.value in reg.runs && Named(reg.runs[found.value], name)
    ensures found.None? ==> forall id :: id in reg.runs ==> !Named(reg.runs[id], name)
  {
    var rest := reg.runs.Keys;
    while rest != {}
      invariant rest <= reg.runs.Keys
      invariant forall id :: id in reg.runs && id !in rest ==> !Named(reg.runs[id], name)
      decreases rest
    {
      var id :| id in rest;
      if reg.runs[id].sessionName == name || name == SessionFor(reg.runs[id].runId) {
        return Some(id);
      }
      rest := rest - {id};
    }
    found := None;
  }

  ghost predicate NobodyNamed(s: Registry, name: string) {
    forall id :: id in s.runs ==> !Named(s.runs[id], name)
  }

  ghost predicate OrphanAdoptable(env: Env, w: World, s: Registry, name: string) {
    exists id :: name == SessionFor(id) && CanAdopt(env, w, s, id)
  }

  /** Kept for an active run of that name; adopted if no run has the name and it
      can be adopted; cleaned up for an ended run of that name, or if no run has
      the name and it cannot be adopted. */
  ghost predicate FateFits(env: Env, w: World, s: Registry, s': Registry, name: string, fate: Fate) {
    match fate
    case Recovered => s' == s && exists id :: id in s.runs && Named(s.runs[id], name) && Active(s.runs[id])
    case AdoptedAs(id) =>
      name == SessionFor(id) && NobodyNamed(s, name) && CanAdopt(env, w, s, id) && EntersAs(env, w, s, s', id)
    case CleanedUp =>
      && s' == s
      && ((exists id :: id in s.runs && Named(s.runs[id], name) && s.runs[id].status.IsTerminal())
          || (NobodyNamed(s, name) && !OrphanAdoptable(env, w, s, name)))
  }

  predicate Carries(e: RunEntry, session: string) {
    e.sessionName == session || "gw-" + e.runId == session
  }

  /** What becomes of a session, from the runs that carry its name. */
  lemma FateByName(env: Env, w: World, s: Registry, s': Registry, name: string, fate: Fate)
    requires FateFits(env, w, s, s', name, fate)
    ensures fate.Recovered? ==> exists id :: id in s.runs && Carries(s.runs[id], name) && (s.runs[id].status == Queued || s.runs[id].status == Running)
    ensures fate.AdoptedAs? <==> (forall id :: id in s.runs ==> !Carries(s.runs[id], name)) && exists id :: name == "gw-" + id && CanAdopt(env, w, s, id)
    ensures (exists id :: id in s.runs && Carries(s.runs[id], name)) && fate.CleanedUp? ==>
      exists id :: id in s.runs && Carries(s.runs[id], name) && s.runs[id].status != Queued && s.runs[id].status != Running
    ensures !fate.AdoptedAs? ==> s' == s
  {
    forall id | id in s.runs ensures Carries(s.runs[id], name) <==> Named(s.runs[id], name) {}
    if fate.AdoptedAs? {
      assert name == "gw-" + fate.id && CanAdopt(env, w, s, fate.id);
    } else if fate.CleanedUp? && NobodyNamed(s, name) {
      assert !OrphanAdoptable(env, w, s, name);
      forall id | name == "gw-" + id ensures !CanAdopt(env, w, s, id) {
        assert name == SessionFor(id);
      }
    }
  }

  /** No run has the session's name, and the meta.json in the directory of that
      name can be adopted and holds the id of run `x`. */
  ghost predicate ComesBack(env: Env, w: World, s: Registry, name: string, x: RunId) {
    NobodyNamed(s, name) && exists id :: name == SessionFor(id) && CanAdopt(env, w, s, id) && w.meta[id].runId == x
  }

  /** Adoption guards on the directory's name only, so it makes an ended run active
      exactly when the meta.json it takes in holds that run's id. */
  lemma EndedRunAdoptedIff(env: Env, w: World, s: Registry, s': Registry, name: string, fate: Fate, x: RunId)
    requires FateFits(env, w, s, s', name, fate) && x in s.runs && s.runs[x].status.IsTerminal()
    ensures x in s'.runs && (Active(s'.runs[x]) <==> ComesBack(env, w, s, name, x))
  {
    if fate.AdoptedAs? {
      forall id | name == SessionFor(id) ensures id == fate.id {
        SessionForInjective(id, fate.id);
      }
    } else if fate.CleanedUp? && NobodyNamed(s, name) {
      assert !OrphanAdoptable(env, w, s, name);
    }
  }

  method ProcessSession(reg: RunRegistry, w: World, name: string) returns (fate: Fate)
    requires Keyed(reg.View()) && name in w.sessions
    modifies reg
    ensures AdoptedFrom(reg.env, w, old(reg.View()), reg.View())
    ensures FateFits(reg.env, w, old(reg.View()), reg.View(), name, fate)
    ensures forall x :: x in old(reg.runs) && old(reg.runs)[x].status.IsTerminal() ==>
      x in reg.runs && (Active(reg.runs[x]) <==> ComesBack(reg.env, w, old(reg.View()), name, x))
  {
    ghost var s := reg.View();
    var found := FindRunByTmuxSession(reg, name);
    match found {
      case Some(id) =>
        fate := if Active(reg.runs[id]) then Recovered else CleanedUp;
      case None =>
        var adopted := TryAdoptOrphan(reg, w, name);
        fate := if adopted.Some? then AdoptedAs(adopted.value) else CleanedUp;
    }
    forall x | x in s.runs && s.runs[x].status.IsTerminal()
      ensures x in reg.runs && (Active(reg.runs[x]) <==> ComesBack(reg.env, w, s, name, x))
    {
      EndedRunAdoptedIff(reg.env, w, s, reg.View(), name, fate, x);
    }
  }

  lemma AdoptedTwice(env: Env, w: World, a: Registry, b: Registry, c: Registry)
    requires AdoptedFrom(env, w, a, b) && AdoptedFrom(env, w, b, c)
    ensures AdoptedFrom(env, w, a, c)
  {
    forall x | x in b.runs && c.runs[x] == b.runs[x]
      ensures forall id :: TakenBy(env, w, b, x, id) ==> TakenBy(env, w, c, x, id)
    {
    }
    forall x | x in a.runs ensures x in c.runs && (c.runs[x] == a.runs[x] || exists id :: id != x && TakenBy(env, w, c, x, id)) {
      if c.runs[x] == b.runs[x] && b.runs[x] != a.runs[x] {
        var id :| id != x && TakenBy(env, w, b, x, id);
        assert TakenBy(env, w, c, x, id);
      }
    }
    forall x | x in c.runs && x !in a.runs ensures exists id :: TakenBy(env, w, c, x, id) {
      if x in b.runs && c.runs[x] == b.runs[x] {
        var id :| TakenBy(env, w, b, x, id);
        assert TakenBy(env, w, c, x, id);
      }
    }
  }

  /** The registry before the first session, after each, and what became of each. */
  ghost predicate Scans(env: Env, w: World, s: Registry, s': Registry, between: seq<Registry>, fates: seq<Fate>) {
    && |between| == |fates| + 1 && between[0] == s && between[|fates|] == s'
    && |fates| <= |w.sessions|
    && (forall i: nat :: i < |fates| ==> FateFits(env, w, between[i], between[i + 1], w.sessions[i], fates[i]))
  }

  ghost function RecoveredAt(fates: seq<Fate>): set<nat> {
    set i: nat | i < |fates| && fates[i].Recovered?
  }

  ghost function AdoptedAt(fates: seq<Fate>): set<nat> {
    set i: nat | i < |fates| && fates[i].AdoptedAs?
  }

  ghost function CleanedAt(fates: seq<Fate>): set<nat> {
    set i: nat | i < |fates| && fates[i].CleanedUp?
  }

  ghost predicate Tallies(fates: seq<Fate>, recovered: nat, adopted: nat, cleaned: nat) {
    && recovered == |RecoveredAt(fates)| && adopted == |AdoptedAt(fates)| && cleaned == |CleanedAt(fates)|
    && recovered + adopted + cleaned == |fates|
  }

  lemma OneMoreFate(fates: seq<Fate>, fate: Fate)
    ensures RecoveredAt(fates + [fate]) == RecoveredAt(fates) + if fate.Recovered? then {|fates|} else {}
    ensures AdoptedAt(fates + [fate]) == AdoptedAt(fates) + if fate.AdoptedAs? then {|fates|} else {}
    ensures CleanedAt(fates + [fate]) == CleanedAt(fates) + if fate.CleanedUp? then {|fates|} else {}
  {
  }

  lemma OneMoreTallied(fates: seq<Fate>, fate: Fate, recovered: nat, adopted: nat, cleaned: nat)
    requires Tallies(fates, recovered, adopted, cleaned)
    ensures Tallies(fates + [fate], recovered + if fate.Recovered? then 1 else 0,
                    adopted + if fate.AdoptedAs? then 1 else 0, cleaned + if fate.CleanedUp? then 1 else 0)
  {
    OneMoreFate(fates, fate);
  }

  method ProcessSessions(reg: RunRegistry, w: World)
    returns (recovered: nat, adopted: nat, cleaned: nat, ghost between: seq<Registry>, ghost fates: seq<Fate>)
    requires Keyed(reg.View())
    modifies reg
    ensures Keyed(reg.View()) && (MetaFiled(w) ==> |reg.runs| == |old(reg.runs)| + adopted)
    ensures AdoptedFrom(reg.env, w, old(reg.View()), reg.View())
    ensures Scans(reg.env, w, old(reg.View()), reg.View(), between, fates) && |fates| == |w.sessions|
    ensures Tallies(fates, recovered, adopted, cleaned)
  {
    recovered, adopted, cleaned := 0, 0, 0;
    ghost var s := reg.View();
    between, fates := [s], [];
    for i := 0 to |w.sessions|
      invariant s == reg.View() && AdoptedFrom(reg.env, w, old(reg.View()), s)
      invariant Scans(reg.env, w, old(reg.View()), s, between, fates) && |fates| == i
      invariant Tallies(fates, recovered, adopted, cleaned)
      invariant Keyed(s) && (MetaFiled(w) ==> |s.runs.Keys| == |old(reg.runs).Keys| + adopted)
    {
      var fate := ProcessSession(reg, w, w.sessions[i]);
      AdoptedTwice(reg.env, w, old(reg.View()), s, reg.View());
      OneMoreScanned(reg.env, w, old(reg.View()), s, reg.View(), between, fates, fate);
      OneMoreTallied(fates, fate, recovered, adopted, cleaned);
      s := reg.View();
      between, fates := between + [s], fates + [fate];
      match fate
      case Recovered => recovered := recovered + 1;
      case AdoptedAs(_) => adopted := adopted + 1;
      case CleanedUp => cleaned := cleaned + 1;
    }
  }

  lemma OneMoreScanned(env: Env, w: World, s: Registry, s1: Registry, s2: Registry, between: seq<Registry>, fates: seq<Fate>, fate: Fate)
    requires Scans(env, w, s, s1, between, fates) && |fates| < |w.sessions|
    requires FateFits(env, w, s1, s2, w.sessions[|fates|], fate)
    ensures Scans(env, w, s, s2, between + [s2], fates + [fate])
  {
    forall i: nat | i < |fates| + 1
      ensures FateFits(env, w, (between + [s2])[i], (between + [s2])[i + 1], w.sessions[i], (fates + [fate])[i])
    {
      if i < |fates| {
        assert FateFits(env, w, between[i], between[i + 1], w.sessions[i], fates[i]);
      }
    }
  }

  // ── Stale runs ─────────────────────────────────────────────────────

  /** An active run that neither waits in a queue nor has a live session. */
  ghost predicate Stale(w: World, s: Registry, id: RunId) {
    && id in s.runs && Active(s.runs[id])
    && !(s.runs[id].status == Queued && Pending(s, id))
    && !NamedByLive(w, s.runs[id])
  }

  method IsInPendingQueue(reg: RunRegistry, id: RunId) returns (waits: bool)
    ensures waits <==> Pending(reg.View(), id)
  {
    var rest := reg.pendingQueues.Keys;
    while rest != {}
      invariant rest <= reg.pendingQueues.Keys
      invariant forall k :: k in reg.pendingQueues && k !in rest ==> id !in Ids(reg.pendingQueues[k])
      decreases rest
    {
      var k :| k in rest;
      if id in Ids(reg.pendingQueues[k]) {
        assert id in QueuedIds(reg.View(), k);
        return true;
      }
      rest := rest - {k};
    }
    assert forall k :: id !in QueuedIds(reg.View(), k);
    waits := false;
  }

  method FindStaleRuns(reg: RunRegistry, w: World) returns (stale: seq<RunId>)
    ensures NoDup(stale) && forall id :: id in stale <==> Stale(w, reg.View(), id)
  {
    stale := [];
    ghost var s := reg.View();
    var rest := reg.runs.Keys;
    while rest != {}
      invariant rest <= reg.runs.Keys
      invariant NoDup(stale) && forall id :: id in stale <==> id !in rest && Stale(w, s, id)
      decreases rest
    {
      var id :| id in rest;
      var e := reg.runs[id];
      var waits := IsInPendingQueue(reg, id);
      if Active(e) && !(e.status == Queued && waits) && SessionFor(e.runId) !in w.sessions && e.sessionName !in w.sessions {
        NoDupConcat(stale, [id]);
        stale := stale + [id];
      }
      rest := rest - {id};
    }
  }

  datatype StaleFate = ToResume | ToRespawn | ToFail

  function FateOf(w: World, e: RunEntry): StaleFate {
    if w.hasCheckpoint(e.repoDir) then ToResume else if e.restartable then ToRespawn else ToFail
  }

  /** The synthetic session name is what makes the monitor find the run dead and
      recover it. */
  function RevivedEntry(w: World, e: RunEntry, now: Instant): RunEntry {
    match FateOf(w, e)
    case ToResume => StagedEntry(e.(tmuxSession := Some(SessionFor(e.runId))), Running, Some("pending-recovery"), None, now)
    case ToRespawn =>
      StagedEntry(e.(tmuxSession := Some(SessionFor(e.runId)), crashRestarts := 0), Running, Some("pending-respawn"), None, now)
    case ToFail => StagedEntry(e, Failed, None, Some("tmux session lost with no checkpoint"), now)
  }

  function Revive(env: Env, w: World, s: Registry, id: RunId, now: Instant): Registry {
    if id !in s.runs || !Active(s.runs[id]) then s
    else
      var e := s.runs[id];
      s.(runs := s.runs[id := RevivedEntry(w, e, now)],
         locks := if FateOf(w, e) == ToFail then s.locks - {RepoHash(env, e.repoDir)} else s.locks)
  }

  function ReviveEach(env: Env, w: World, s: Registry, ids: seq<RunId>, now: Instant): Registry {
    if ids == [] then s else Revive(env, w, ReviveEach(env, w, s, ids[..|ids| - 1], now), ids[|ids| - 1], now)
  }

  lemma {:induction false} ReviveEachShape(env: Env, w: World, s: Registry, ids: seq<RunId>, now: Instant)
    ensures var s' := ReviveEach(env, w, s, ids, now);
      s' == s.(runs := s'.runs, locks := s'.locks) && s'.runs.Keys == s.runs.Keys
  {
    if ids != [] {
      ReviveEachShape(env, w, s, ids[..|ids| - 1], now);
    }
  }

  lemma {:induction false} ReviveEachRun(env: Env, w: World, s: Registry, ids: seq<RunId>, now: Instant, id: RunId)
    requires NoDup(ids) && forall x :: x in ids ==> x in s.runs && Active(s.runs[x])
    requires id in s.runs
    ensures var s' := ReviveEach(env, w, s, ids, now);
      id in s'.runs && s'.runs[id] == if id in ids then RevivedEntry(w, s.runs[id], now) else s.runs[id]
  {
    if ids != [] {
      var front, last := ids[..|ids| - 1], ids[|ids| - 1];
      assert ids == front + [last];
      NoDupConcat(front, [last]);
      ReviveEachRun(env, w, s, front, now, id);
      ReviveEachRun(env, w, s, front, now, last);
    }
  }

  method ReviveRun(reg: RunRegistry, w: World, id: RunId, now: Instant) returns (fate: StaleFate)
    requires id in reg.runs && reg.runs[id].runId == id && Active(reg.runs[id])
    modifies reg
    ensures reg.View() == Revive(reg.env, w, old(reg.View()), id, now)
    ensures fate == FateOf(w, old(reg.runs[id]))
  {
    if w.hasCheckpoint(reg.runs[id].repoDir) {
      fate := ToResume;
      reg.runs := reg.runs[id := reg.runs[id].(tmuxSession := Some("gw-" + id))];
      var ok := reg.UpdateStatus(id, Running, Some("pending-recovery"), None, true, now);
    } else if reg.runs[id].restartable {
      fate := ToRespawn;
      reg.runs := reg.runs[id := reg.runs[id].(tmuxSession := Some("gw-" + id), crashRestarts := 0)];
      var ok := reg.UpdateStatus(id, Running, Some("pending-respawn"), None, true, now);
    } else {
      fate := ToFail;
      var ok := reg.UpdateStatus(id, Failed, None, Some("tmux session lost with no checkpoint"), true, now);
    }
  }

  /** Active, but in no queue if queued, and without a live session of its name. */
  ghost predicate LeftBehind(w: World, s: Registry, id: RunId) {
    && id in s.runs
    && (s.runs[id].status == Running || (s.runs[id].status == Queued && forall k :: id !in QueuedIds(s, k)))
    && ("gw-" + s.runs[id].runId) !in w.sessions && s.runs[id].sessionName !in w.sessions
  }

  lemma StaleIsLeftBehind(w: World, s: Registry, id: RunId)
    ensures Stale(w, s, id) <==> LeftBehind(w, s, id)
  {
  }

  /** What a run left behind becomes: resumed with a checkpoint, started afresh if
      it may restart, failed with neither. */
  ghost predicate TakenUp(w: World, e: RunEntry, e': RunEntry) {
    && (w.hasCheckpoint(e.repoDir) ==> e'.status == Running && e'.currentPhase == Some("pending-recovery") && e'.crashRestarts == e.crashRestarts)
    && (!w.hasCheckpoint(e.repoDir) && e.restartable ==> e'.status == Running && e'.currentPhase == Some("pending-respawn") && e'.crashRestarts == 0)
    && (e'.status == Failed <==> !w.hasCheckpoint(e.repoDir) && !e.restartable)
    && (e'.status == Running ==> e'.tmuxSession == Some("gw-" + e.runId))
    && e'.runId == e.runId && e'.planPath == e.planPath && e'.repoDir == e.repoDir && e'.sessionName == e.sessionName
  }

  lemma RevivedIsTakenUp(w: World, e: RunEntry, now: Instant)
    ensures TakenUp(w, e, RevivedEntry(w, e, now))
  {
  }

  ghost function WithCheckpoint(w: World, s: Registry, ids: seq<RunId>): set<RunId> {
    set id | id in ids && id in s.runs && w.hasCheckpoint(s.runs[id].repoDir)
  }

  ghost function OnlyRestartable(w: World, s: Registry, ids: seq<RunId>): set<RunId> {
    set id | id in ids && id in s.runs && !w.hasCheckpoint(s.runs[id].repoDir) && s.runs[id].restartable
  }

  /** The runs with neither a checkpoint nor leave to restart. */
  ghost function Failing(w: World, s: Registry, ids: seq<RunId>): set<RunId> {
    set id | id in ids && id in s.runs && !w.hasCheckpoint(s.runs[id].repoDir) && !s.runs[id].restartable
  }

  ghost function Due(w: World, s: Registry, ids: seq<RunId>, fate: StaleFate): set<RunId> {
    set id | id in ids && id in s.runs && FateOf(w, s.runs[id]) == fate
  }

  lemma DueSets(w: World, s: Registry, ids: seq<RunId>)
    ensures Due(w, s, ids, ToResume) == WithCheckpoint(w, s, ids)
    ensures Due(w, s, ids, ToRespawn) == OnlyRestartable(w, s, ids)
    ensures Due(w, s, ids, ToFail) == Failing(w, s, ids)
  {
  }

  lemma DueOneMore(w: World, s: Registry, front: seq<RunId>, last: RunId, fate: StaleFate)
    ensures Due(w, s, front + [last], fate) ==
      Due(w, s, front, fate) + if last in s.runs && FateOf(w, s.runs[last]) == fate then {last} else {}
  {
  }

  lemma {:induction false} DueIsCardinality(w: World, s: Registry, ids: seq<RunId>, fate: StaleFate)
    requires NoDup(ids)
    ensures DueFor(w, s, ids, fate) == |Due(w, s, ids, fate)|
  {
    if ids != [] {
      var front, last := ids[..|ids| - 1], ids[|ids| - 1];
      assert ids == front + [last];
      DueIsCardinality(w, s, front, fate);
      DueOneMore(w, s, front, last, fate);
      assert last !in Due(w, s, front, fate);
    }
  }

  /** The registry after the stale runs `ids` have been taken up, and no other. */
  ghost predicate TakesUp(w: World, s: Registry, s': Registry, ids: seq<RunId>) {
    && NoDup(ids) && (forall id :: id in ids <==> LeftBehind(w, s, id))
    && s'.runs.Keys == s.runs.Keys
    && (forall id :: id in s.runs ==> if id in ids then TakenUp(w, s.runs[id], s'.runs[id]) else s'.runs[id] == s.runs[id])
  }

  lemma ReviveTakesUp(env: Env, w: World, s: Registry, ids: seq<RunId>, now: Instant)
    requires NoDup(ids) && forall id :: id in ids <==> Stale(w, s, id)
    ensures TakesUp(w, s, ReviveEach(env, w, s, ids, now), ids)
  {
    ReviveEachShape(env, w, s, ids, now);
    forall id ensures id in ids <==> LeftBehind(w, s, id) {
      StaleIsLeftBehind(w, s, id);
    }
    var s' := ReviveEach(env, w, s, ids, now);
    forall id | id in s.runs ensures if id in ids then TakenUp(w, s.runs[id], s'.runs[id]) else s'.runs[id] == s.runs[id] {
      ReviveEachRun(env, w, s, ids, now, id);
      RevivedIsTakenUp(w, s.runs[id], now);
    }
  }

  /** How many of `ids` are due for this fate. */
  ghost function DueFor(w: World, s: Registry, ids: seq<RunId>, fate: StaleFate): nat {
    if ids == [] then 0
    else
      var last := ids[|ids| - 1];
      DueFor(w, s, ids[..|ids| - 1], fate) + if last in s.runs && FateOf(w, s.runs[last]) == fate then 1 else 0
  }

  method ReviveStaleRuns(reg: RunRegistry, w: World, now: Instant)
    returns (resumed: nat, respawned: nat, failed: nat, ghost stale: seq<RunId>)
    requires Keyed(reg.View())
    modifies reg
    ensures NoDup(stale) && forall id :: id in stale <==> Stale(w, old(reg.View()), id)
    ensures reg.View() == ReviveEach(reg.env, w, old(reg.View()), stale, now)
    ensures TakesUp(w, old(reg.View()), reg.View(), stale)
    ensures resumed == |WithCheckpoint(w, old(reg.View()), stale)| && respawned == |OnlyRestartable(w, old(reg.View()), stale)|
    ensures failed == |Failing(w, old(reg.View()), stale)|
  {
    var ids := FindStaleRuns(reg, w);
    stale := ids;
    resumed, respawned, failed := 0, 0, 0;
    ghost var before := reg.View();
    assert ids[..0] == [];
    for i := 0 to |ids|
      invariant reg.View() == ReviveEach(reg.env, w, before, ids[..i], now)
      invariant resumed == DueFor(w, before, ids[..i], ToResume) && respawned == DueFor(w, before, ids[..i], ToRespawn)
      invariant failed == DueFor(w, before, ids[..i], ToFail)
    {
      assert ids[..i + 1][..i] == ids[..i];
      NotYetRevived(reg.env, w, before, ids, i, now);
      var fate := ReviveRun(reg, w, ids[i], now);
      match fate
      case ToResume => resumed := resumed + 1;
      case ToRespawn => respawned := respawned + 1;
      case ToFail => failed := failed + 1;
    }
    assert ids[..|ids|] == ids;
    ReviveTakesUp(reg.env, w, before, ids, now);
    DueSets(w, before, ids);
    DueIsCardinality(w, before, ids, ToResume);
    DueIsCardinality(w, before, ids, ToRespawn);
    DueIsCardinality(w, before, ids, ToFail);
  }

  lemma NotYetRevived(env: Env, w: World, s: Registry, ids: seq<RunId>, i: nat, now: Instant)
    requires NoDup(ids) && forall x :: x in ids ==> x in s.runs && Active(s.runs[x])
    requires i < |ids| && Keyed(s)
    ensures var s' := ReviveEach(env, w, s, ids[..i], now);
      ids[i] in s'.runs && s'.runs[ids[i]] == s.runs[ids[i]]
  {
    ReviveEachRun(env, w, s, ids[..i], now, ids[i]);
  }

  // ── Locks of running runs ──────────────────────────────────────────

  /** The running runs whose repository no other process has locked. */
  ghost function Holders(w: World, s: Registry): set<RunId> {
    set id | id in s.runs && s.runs[id].status == Running && w.lockFree(s.runs[id].repoDir)
  }

  /** Every running run's repository is locked, unless another process has it. */
  ghost predicate RunningLocked(env: Env, w: World, s: Registry, done: set<RunId>) {
    forall id :: id in done && id in s.runs && s.runs[id].status == Running && w.lockFree(s.runs[id].repoDir) ==>
      RepoHash(env, s.runs[id].repoDir) in s.locks
  }

  lemma OneMoreHolder(env: Env, w: World, s: Registry, rest: set<RunId>, id: RunId)
    requires id in rest && id in s.runs
    ensures KeysOf(env, s.runs, Holders(w, s) - (rest - {id})) ==
      KeysOf(env, s.runs, Holders(w, s) - rest) + if id in Holders(w, s) then {RepoHash(env, s.runs[id].repoDir)} else {}
  {
  }

  lemma HoldersLocked(env: Env, w: World, s: Registry)
    requires KeysOf(env, s.runs, Holders(w, s)) <= s.locks
    ensures RunningLocked(env, w, s, s.runs.Keys)
  {
    forall id | id in Holders(w, s) ensures RepoHash(env, s.runs[id].repoDir) in s.locks {
      assert RepoHash(env, s.runs[id].repoDir) in KeysOf(env, s.runs, Holders(w, s));
    }
  }

  method ReacquireLocks(reg: RunRegistry, w: World)
    modifies reg
    ensures reg.View() == old(reg.View()).(locks := old(reg.repoLocks) + KeysOf(reg.env, old(reg.runs), Holders(w, old(reg.View()))))
    ensures RunningLocked(reg.env, w, reg.View(), reg.runs.Keys)
  {
    var rest := reg.runs.Keys;
    ghost var before := reg.View();
    while rest != {}
      invariant rest <= reg.runs.Keys
      invariant reg.View() == before.(locks := before.locks + KeysOf(reg.env, before.runs, Holders(w, before) - rest))
      decreases rest
    {
      var id :| id in rest;
      OneMoreHolder(reg.env, w, before, rest, id);
      if reg.runs[id].status == Running {
        var ok := reg.AcquireRepoLockForAdopt(reg.runs[id].repoDir, w.lockFree(reg.runs[id].repoDir));
      }
      rest := rest - {id};
    }
    assert Holders(w, before) - {} == Holders(w, before);
    HoldersLocked(reg.env, w, reg.View());
  }

  // ── Pending queue entries ──────────────────────────────────────────

  predicate Startable(w: World, p: PendingRun) {
    w.pathExists(p.planPath) && w.pathExists(p.repoDir)
  }

  const VANISHED := "removed from queue by reconciler"

  function DropVanished(env: Env, w: World, s: Registry, p: PendingRun, now: Instant): Registry {
    if Startable(w, p) then s
    else StageStatus(env, StageQueue(RemovePending(s, p.runId)), p.runId, Failed, None, Some(VANISHED), now).0
  }

  function DropAllVanished(env: Env, w: World, s: Registry, ps: seq<PendingRun>, now: Instant): Registry {
    if ps == [] then s else DropVanished(env, w, DropAllVanished(env, w, s, ps[..|ps| - 1], now), ps[|ps| - 1], now)
  }

  method PendingEntries(reg: RunRegistry) returns (ps: seq<PendingRun>)
    ensures forall p :: p in ps <==> exists k :: k in reg.pendingQueues && p in reg.pendingQueues[k]
  {
    ps := [];
    var rest := reg.pendingQueues.Keys;
    while rest != {}
      invariant rest <= reg.pendingQueues.Keys
      invariant forall p :: p in ps <==> exists k :: k in reg.pendingQueues && k !in rest && p in reg.pendingQueues[k]
      decreases rest
    {
      var k :| k in rest;
      ps := ps + reg.pendingQueues[k];
      rest := rest - {k};
    }
  }

  method ValidatePending(reg: RunRegistry, w: World, now: Instant) returns (ghost seen: seq<PendingRun>)
    modifies reg
    ensures forall p :: p in seen <==> exists k :: k in old(reg.pendingQueues) && p in old(reg.pendingQueues)[k]
    ensures reg.View() == DropAllVanished(reg.env, w, old(reg.View()), seen, now)
  {
    var ps := PendingEntries(reg);
    seen := ps;
    ghost var before := reg.View();
    for i := 0 to |ps|
      invariant reg.View() == DropAllVanished(reg.env, w, before, ps[..i], now)
    {
      assert ps[..i + 1][..i] == ps[..i];
      if !w.pathExists(ps[i].planPath) || !w.pathExists(ps[i].repoDir) {
        reg.RemovePendingWithoutSnapshot(ps[i].runId);
        var snapshot := reg.StageQueueLocked();
        var ok := reg.UpdateStatus(ps[i].runId, Failed, None, Some(VANISHED), true, now);
      }
    }
    assert ps[..|ps|] == ps;
  }

  // ── What reconciliation establishes ────────────────────────────────

  /** Nothing left in a queue lacks its plan or its repository. */
  ghost predicate OnlyStartable(w: World, s: Registry) {
    forall k, p :: k in s.queues && p in s.queues[k] ==> w.pathExists(p.planPath) && w.pathExists(p.repoDir)
  }

  lemma DropKeepsAccounted(env: Env, w: World, s: Registry, p: PendingRun, now: Instant)
    requires AllAccounted(w, s)
    ensures AllAccounted(w, DropVanished(env, w, s, p, now))
  {
    var s' := DropVanished(env, w, s, p, now);
    forall id | id in s'.runs && Active(s'.runs[id]) ensures Accounted(w, s', id) {
      assert id in s.runs && s'.runs[id] == s.runs[id] && Accounted(w, s, id);
      if !Startable(w, p) && Pending(s, id) {
        RemovalKeepsOthers(s, p.runId, id);
        assert forall k :: QueuedIds(s', k) == QueuedIds(RemovePending(s, p.runId), k);
      }
    }
  }

  lemma RemovalKeepsOthers(s: Registry, gone: RunId, id: RunId)
    requires Pending(s, id) && id != gone
    ensures Pending(RemovePending(s, gone), id)
  {
    var k :| id in QueuedIds(s, k);
    var q := QueueOf(s.queues, k);
    var i :| 0 <= i < |q| && q[i].runId == id;
    RetainMembers(q, OtherThan(gone));
    assert q[i] in QueueOf(RemovePending(s, gone).queues, k);
    IdsMember(QueueOf(RemovePending(s, gone).queues, k), q[i]);
    assert id in QueuedIds(RemovePending(s, gone), k);
  }

  lemma {:induction false} DropAllKeepsAccounted(env: Env, w: World, s: Registry, ps: seq<PendingRun>, now: Instant)
    requires AllAccounted(w, s)
    ensures AllAccounted(w, DropAllVanished(env, w, s, ps, now))
  {
    if ps != [] {
      DropAllKeepsAccounted(env, w, s, ps[..|ps| - 1], now);
      DropKeepsAccounted(env, w, DropAllVanished(env, w, s, ps[..|ps| - 1], now), ps[|ps| - 1], now);
    }
  }

  /** Validation only shrinks queues, and drops whatever it saw vanished. */
  lemma {:induction false} DropAllFrame(env: Env, w: World, s: Registry, ps: seq<PendingRun>, now: Instant, k: RepoKey, p: PendingRun)
    ensures var s' := DropAllVanished(env, w, s, ps, now);
      k in s'.queues && p in s'.queues[k] ==> k in s.queues && p in s.queues[k] && (p in ps ==> Startable(w, p))
  {
    if ps != [] {
      var front, last := ps[..|ps| - 1], ps[|ps| - 1];
      assert ps == front + [last];
      DropAllFrame(env, w, s, front, now, k, p);
      var s1 := DropAllVanished(env, w, s, front, now);
      if k in s1.queues {
        RetainMembers(s1.queues[k], OtherThan(last.runId));
      }
    }
  }

  /** An active run afterwards was active before, as it is. */
  lemma {:induction false} DropAllRun(env: Env, w: World, s: Registry, ps: seq<PendingRun>, now: Instant, id: RunId)
    ensures var s' := DropAllVanished(env, w, s, ps, now);
      && s'.runs.Keys == s.runs.Keys
      && (id in s.runs ==> s'.runs[id] == s.runs[id] || s'.runs[id].status == Failed)
  {
    if ps != [] {
      DropAllRun(env, w, s, ps[..|ps| - 1], now, id);
    }
  }

  lemma DropAllKeepsResolved(env: Env, w: World, s: Registry, ps: seq<PendingRun>, now: Instant)
    requires Losers(s.runs) == {}
    ensures Losers(DropAllVanished(env, w, s, ps, now).runs) == {}
  {
  }

  lemma ReviveAccounts(env: Env, w: World, s: Registry, stale: seq<RunId>, now: Instant)
    requires Keyed(s) && NoDup(stale) && forall id :: id in stale <==> Stale(w, s, id)
    ensures AllAccounted(w, ReviveEach(env, w, s, stale, now))
    ensures ReviveEach(env, w, s, stale, now).runs.Keys == s.runs.Keys
  {
    var s' := ReviveEach(env, w, s, stale, now);
    ReviveEachShape(env, w, s, stale, now);
    forall id | id in s'.runs && Active(s'.runs[id]) ensures Accounted(w, s', id) {
      ReviveEachRun(env, w, s, stale, now, id);
      assert Pending(s', id) <==> Pending(s, id) by {
        assert forall k :: QueuedIds(s', k) == QueuedIds(s, k);
      }
    }
  }

  lemma StoppingKeepsAccounted(env: Env, w: World, s: Registry, s': Registry, stopped: set<RunId>)
    requires AllAccounted(w, s) && StoppedFrom(env, s, s', stopped)
    ensures AllAccounted(w, s')
  {
    forall id | id in s'.runs && Active(s'.runs[id]) ensures Accounted(w, s', id) {
      assert StoppedIfListed(s.runs[id], s'.runs[id], id in stopped);
      assert Accounted(w, s, id);
      assert forall k :: QueuedIds(s', k) == QueuedIds(s, k);
    }
  }

  /** The stages of one reconciliation: after the locks, session by session, after
      the sessions, the stale runs, the collision losers, the queue entries seen. */
  datatype Stages = Stages(
    locked: Registry, between: seq<Registry>, fates: seq<Fate>, adopted: Registry,
    stale: seq<RunId>, lost: seq<RunId>, seen: seq<PendingRun>)

  ghost function Revived(env: Env, w: World, t: Stages, now: Instant): Registry {
    ReviveEach(env, w, t.adopted, t.stale, now)
  }

  ghost function Resolved(env: Env, w: World, t: Stages, now: Instant): Registry {
    StopEach(env, Revived(env, w, t, now), t.lost, COLLISION, now).0
  }

  /** Each stage follows from the one before: nothing is skipped, nothing added. */
  ghost predicate Proceeds(env: Env, w: World, s: Registry, t: Stages, s': Registry, now: Instant) {
    && t.locked == s.(locks := s.locks + KeysOf(env, s.runs, Holders(w, s)))
    && Scans(env, w, t.locked, t.adopted, t.between, t.fates) && |t.fates| == |w.sessions|
    && AdoptedFrom(env, w, t.locked, t.adopted)
    && NoDup(t.stale) && (forall id :: id in t.stale <==> Stale(w, t.adopted, id))
    && NoDup(t.lost) && Listed(t.lost) == Losers(Revived(env, w, t, now).runs)
    && (forall p :: p in t.seen <==> exists k :: k in t.adopted.queues && p in t.adopted.queues[k])
    && s' == DropAllVanished(env, w, Resolved(env, w, t, now), t.seen, now)
  }

  ghost predicate Reports(w: World, t: Stages, r: Report) {
    && Tallies(t.fates, r.recovered, r.adopted, r.cleanedUp) && |t.fates| == r.sessionsScanned == |w.sessions|
    && (MetaFiled(w) ==> |t.adopted.runs| == |t.locked.runs| + r.adopted)
    && r.autoResumed == |WithCheckpoint(w, t.adopted, t.stale)|
    && r.respawned == |OnlyRestartable(w, t.adopted, t.stale)|
    && r.markedFailed == |Failing(w, t.adopted, t.stale)|
    && r.collisionsResolved == |t.lost|
  }

  /** With successful writes, after startup every active run waits in a queue, is
      named by a live session, or is marked for the monitor to recover; no active
      run shares the session name of a canonical one; nothing queued lacks its
      plan or repository; and every scanned session was counted once. */
  method Reconcile(reg: RunRegistry, w: World, now: Instant) returns (report: Report, ghost t: Stages)
    requires Keyed(reg.View())
    modifies reg
    ensures WellFormed(reg.env, old(reg.View())) ==> WellFormed(reg.env, reg.View())
    ensures AllAccounted(w, reg.View())
    ensures Losers(reg.runs) == {}
    ensures OnlyStartable(w, reg.View())
    ensures Reports(w, t, report) && Proceeds(reg.env, w, old(reg.View()), t, reg.View(), now)
  {
    ReacquireLocks(reg, w);
    ghost var locked := reg.View();
    var recovered, adopted, cleaned, between, fates := ProcessSessions(reg, w);
    ghost var taken := reg.View();
    var resumed, respawned, failed, stale := ReviveStaleRuns(reg, w, now);
    ghost var revived := reg.View();
    var resolved, lost := ResolveSessionNameCollisions(reg, now);
    ghost var settled := reg.View();
    var seen := ValidatePending(reg, w, now);
    report := Report(recovered, adopted, cleaned, resumed, failed, respawned, |w.sessions|, resolved);
    t := Stages(locked, between, fates, taken, stale, lost, seen);
    QueuesUntouched(reg.env, w, t, now);
    SettledAccounts(reg.env, w, t, now);
    ValidatedAccounts(reg.env, w, settled, seen, now);
    if WellFormed(reg.env, old(reg.View())) {
      StagesKeepWellFormed(reg.env, w, old(reg.View()), t, now);
    }
  }

  lemma DropKeepsWellFormed(env: Env, w: World, s: Registry, p: PendingRun, now: Instant)
    requires WellFormed(env, s)
    ensures WellFormed(env, DropVanished(env, w, s, p, now))
  {
    if !Startable(w, p) {
      RetainKeepsWellFormed(env, s, OtherThan(p.runId));
      SameQueuesWellFormed(env, RemovePending(s, p.runId), DropVanished(env, w, s, p, now));
    }
  }

  lemma {:induction false} DropAllKeepsWellFormed(env: Env, w: World, s: Registry, ps: seq<PendingRun>, now: Instant)
    requires WellFormed(env, s)
    ensures WellFormed(env, DropAllVanished(env, w, s, ps, now))
  {
    if ps != [] {
      DropAllKeepsWellFormed(env, w, s, ps[..|ps| - 1], now);
      DropKeepsWellFormed(env, w, DropAllVanished(env, w, s, ps[..|ps| - 1], now), ps[|ps| - 1], now);
    }
  }

  lemma {:induction false} ReviveKeepsKeyed(env: Env, w: World, s: Registry, ids: seq<RunId>, now: Instant)
    requires Keyed(s)
    ensures Keyed(ReviveEach(env, w, s, ids, now))
  {
    if ids != [] {
      ReviveKeepsKeyed(env, w, s, ids[..|ids| - 1], now);
    }
  }

  lemma StagesKeepWellFormed(env: Env, w: World, s: Registry, t: Stages, now: Instant)
    requires WellFormed(env, s) && t.locked == s.(locks := t.locked.locks)
    requires AdoptedFrom(env, w, t.locked, t.adopted) && Keyed(t.adopted)
    ensures WellFormed(env, DropAllVanished(env, w, Resolved(env, w, t, now), t.seen, now))
  {
    var revived := Revived(env, w, t, now);
    ReviveEachShape(env, w, t.adopted, t.stale, now);
    ReviveKeepsKeyed(env, w, t.adopted, t.stale, now);
    SameQueuesWellFormed(env, s, revived);
    StopEachKeepsWellFormed(env, revived, t.lost, COLLISION, now);
    DropAllKeepsWellFormed(env, w, Resolved(env, w, t, now), t.seen, now);
  }

  lemma QueuesUntouched(env: Env, w: World, t: Stages, now: Instant)
    ensures Resolved(env, w, t, now).queues == t.adopted.queues
  {
    ReviveEachShape(env, w, t.adopted, t.stale, now);
    StopEachShape(env, Revived(env, w, t, now), t.lost, COLLISION, now);
  }

  lemma SettledAccounts(env: Env, w: World, t: Stages, now: Instant)
    requires Keyed(t.adopted) && NoDup(t.stale) && forall id :: id in t.stale <==> Stale(w, t.adopted, id)
    requires Listed(t.lost) == Losers(Revived(env, w, t, now).runs)
    ensures AllAccounted(w, Resolved(env, w, t, now)) && Losers(Resolved(env, w, t, now).runs) == {}
  {
    var s2, s3 := Revived(env, w, t, now), Resolved(env, w, t, now);
    ReviveAccounts(env, w, t.adopted, t.stale, now);
    StopEachStops(env, s2, t.lost, now);
    StoppingKeepsAccounted(env, w, s2, s3, Losers(s2.runs));
    ResolvedOnce(env, s2, s3);
  }

  lemma ValidatedAccounts(env: Env, w: World, s: Registry, seen: seq<PendingRun>, now: Instant)
    requires AllAccounted(w, s) && Losers(s.runs) == {}
    requires forall p :: p in seen <==> exists k :: k in s.queues && p in s.queues[k]
    ensures var s' := DropAllVanished(env, w, s, seen, now); AllAccounted(w, s') && Losers(s'.runs) == {} && OnlyStartable(w, s')
  {
    DropAllKeepsAccounted(env, w, s, seen, now);
    DropAllKeepsResolved(env, w, s, seen, now);
    var s' := DropAllVanished(env, w, s, seen, now);
    forall k, p | k in s'.queues && p in s'.queues[k] ensures w.pathExists(p.planPath) && w.pathExists(p.repoDir) {
      DropAllFrame(env, w, s, seen, now, k, p);
    }
  }
}

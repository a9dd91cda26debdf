/** Who holds a repository's lock. The registry keeps a set of held locks and no
    owners; this module tracks, for the proof, the active runs that a
    registration or a promotion gave a lock to. Modelled on
    src/daemon/registry.rs. */
module RepoLocks {
  import opened Prelude
  import opened RunModel
  import opened RegistrySpec
  import opened RegistrySystem
  import opened RunLifecycle

  ghost function KeyOf(env: Env, runs: map<RunId, RunEntry>, id: RunId): RepoKey
    requires id in runs
  {
    RepoHash(env, runs[id].repoDir)
  }

  /** The run, if any, that the action gives its repository's lock to. */
  ghost function Granted(env: Env, s: Registry, a: Action): set<RunId> {
    match a
    case RegisterRun(entry, osFree, writeOk) => if Register(env, s, entry, osFree, writeOk).1 then {entry.runId} else {}
    case PromoteRun(id, osFree, writeOk, now) => if Promote(env, s, id, osFree, writeOk, now).1 then {id} else {}
    case _ => {}
  }

  /** The runs that the action gives a terminal status, known before it is taken. */
  ghost function Finished(env: Env, s: Registry, a: Action): set<RunId> {
    match a
    case Stage(id, status, _, _, _) => if status.IsTerminal() then {id} * s.runs.Keys else {}
    case DequeueRun(id, _) => if Pending(s, id) then {id} * s.runs.Keys else {}
    case ClearQueue(_, ids, _) => Listed(ids) * s.runs.Keys
    case SpawnFailed(repo, _) =>
      var k := RepoHash(env, repo);
      if FailuresOf(s, k) + 1 >= MAX_CONSECUTIVE_FAILURES then Listed(QueuedIds(s, k)) * s.runs.Keys else {}
    case _ => {}
  }

  ghost function OwnersAfter(env: Env, s: Registry, owners: set<RunId>, a: Action): set<RunId> {
    owners - Finished(env, s, a) + Granted(env, s, a)
  }

  /** Every owner is an active run, owners of one repository are one run, and a
      lock is held exactly when its repository has an owner. */
  ghost predicate Exclusive(env: Env, s: Registry, owners: set<RunId>) {
    && (forall o :: o in owners ==> o in s.runs && !s.runs[o].status.IsTerminal())
    && (forall o, o' :: o in owners && o' in owners && KeyOf(env, s.runs, o) == KeyOf(env, s.runs, o') ==> o == o')
    && (forall o :: o in owners ==> KeyOf(env, s.runs, o) in s.locks)
    && (forall k :: k in s.locks ==> exists o :: o in owners && KeyOf(env, s.runs, o) == k)
  }

  /** Whoever owns the repository of a run that finishes, finishes too. */
  ghost predicate OwnersFinish(env: Env, s: Registry, owners: set<RunId>, finished: set<RunId>) {
    forall id, o :: id in finished && id in s.runs && o in owners && o in s.runs && KeyOf(env, s.runs, o) == KeyOf(env, s.runs, id) ==> o in finished
  }

  ghost predicate FinishesOwners(env: Env, s: Registry, owners: set<RunId>, a: Action) {
    OwnersFinish(env, s, owners, Finished(env, s, a))
  }

  // ── Granting and releasing, whatever the step ──────────────────────

  ghost predicate StaysOrEnds(e: RunEntry, e': RunEntry, ends: bool) {
    e'.repoDir == e.repoDir && (e'.status.IsTerminal() <==> e.status.IsTerminal() || ends)
  }

  /** Exactly the active runs in `finished` end, and the locks freed are those of
      the repositories of `finished`. */
  ghost predicate Releases(env: Env, s: Registry, s': Registry, finished: set<RunId>) {
    && s'.locks == s.locks - KeysOf(env, s.runs, finished)
    && (forall x :: x in s.runs ==> x in s'.runs && StaysOrEnds(s.runs[x], s'.runs[x], x in finished))
  }

  /** Run `id` is active and got the lock of its repository, which was free. */
  ghost predicate Grants(env: Env, s: Registry, s': Registry, id: RunId) {
    && id in s'.runs && !s'.runs[id].status.IsTerminal()
    && KeyOf(env, s'.runs, id) !in s.locks
    && s'.locks == s.locks + {KeyOf(env, s'.runs, id)}
    && (forall x :: x in s.runs ==> x in s'.runs && StaysOrEnds(s.runs[x], s'.runs[x], false))
  }

  lemma GrantKeepsExclusive(env: Env, s: Registry, s': Registry, owners: set<RunId>, id: RunId)
    requires Exclusive(env, s, owners) && Grants(env, s, s', id)
    ensures Exclusive(env, s', owners + {id})
  {
    forall o | o in owners
      ensures o in s'.runs && !s'.runs[o].status.IsTerminal() && KeyOf(env, s'.runs, o) == KeyOf(env, s.runs, o)
      ensures KeyOf(env, s.runs, o) != KeyOf(env, s'.runs, id)
    {
      assert StaysOrEnds(s.runs[o], s'.runs[o], false);
    }
  }

  lemma KeyOfFinished(env: Env, s: Registry, finished: set<RunId>, id: RunId)
    requires id in s.runs
    ensures id in finished ==> KeyOf(env, s.runs, id) in KeysOf(env, s.runs, finished)
    ensures KeyOf(env, s.runs, id) in KeysOf(env, s.runs, finished) ==>
      exists x :: x in finished && x in s.runs && KeyOf(env, s.runs, x) == KeyOf(env, s.runs, id)
  {
  }

  lemma ReleaseKeepsExclusive(env: Env, s: Registry, s': Registry, owners: set<RunId>, finished: set<RunId>)
    requires Exclusive(env, s, owners) && Releases(env, s, s', finished) && OwnersFinish(env, s, owners, finished)
    ensures Exclusive(env, s', owners - finished)
  {
    forall o | o in owners - finished
      ensures o in s'.runs && !s'.runs[o].status.IsTerminal() && KeyOf(env, s'.runs, o) == KeyOf(env, s.runs, o) && KeyOf(env, s'.runs, o) in s'.locks
    {
      assert StaysOrEnds(s.runs[o], s'.runs[o], o in finished);
      KeyOfFinished(env, s, finished, o);
    }
    forall k | k in s'.locks ensures exists o :: o in owners - finished && KeyOf(env, s'.runs, o) == k {
      var o :| o in owners && KeyOf(env, s.runs, o) == k;
      KeyOfFinished(env, s, finished, o);
    }
  }

  /** Whatever ends runs and frees locks keeps them exclusive if and only if
      whoever owns the repository of a run that ends, ends too. */
  lemma ReleaseIff(env: Env, s: Registry, s': Registry, owners: set<RunId>, finished: set<RunId>)
    requires Exclusive(env, s, owners) && Releases(env, s, s', finished)
    ensures Exclusive(env, s', owners - finished) <==> OwnersFinish(env, s, owners, finished)
  {
    if OwnersFinish(env, s, owners, finished) {
      ReleaseKeepsExclusive(env, s, s', owners, finished);
    } else {
      var id, o :| id in finished && id in s.runs && o in owners && o in s.runs
                   && KeyOf(env, s.runs, o) == KeyOf(env, s.runs, id) && o !in finished;
      KeyOfFinished(env, s, finished, id);
      assert StaysOrEnds(s.runs[o], s'.runs[o], false);
      assert o in owners - finished && KeyOf(env, s'.runs, o) !in s'.locks;
    }
  }

  /** From `s` to `s'` one run is granted a lock, or some runs release theirs. */
  ghost predicate Moves(env: Env, s: Registry, s': Registry, finished: set<RunId>, granted: set<RunId>) {
    || (granted == {} && Releases(env, s, s', finished))
    || (finished == {} && exists id :: granted == {id} && Grants(env, s, s', id))
  }

  lemma MoveIff(env: Env, s: Registry, s': Registry, owners: set<RunId>, finished: set<RunId>, granted: set<RunId>)
    requires Exclusive(env, s, owners) && Moves(env, s, s', finished, granted)
    ensures Exclusive(env, s', owners - finished + granted) <==> OwnersFinish(env, s, owners, finished)
  {
    if granted == {} {
      ReleaseIff(env, s, s', owners, finished);
      assert owners - finished + granted == owners - finished;
    } else {
      var id :| granted == {id} && Grants(env, s, s', id);
      GrantKeepsExclusive(env, s, s', owners, id);
      assert owners - finished + granted == owners + {id};
    }
  }

  // ── What an action does to locks and statuses ──────────────────────

  lemma KnownKeys(env: Env, runs: map<RunId, RunEntry>, ids: set<RunId>)
    ensures KeysOf(env, runs, ids * runs.Keys) == KeysOf(env, runs, ids)
  {
  }

  lemma OneLockFreed(env: Env, s: Registry, id: RunId, status: RunStatus, phase: Option<string>, error: Option<string>, now: Instant)
    ensures StageStatus(env, s, id, status, phase, error, now).0.locks ==
      s.locks - KeysOf(env, s.runs, if status.IsTerminal() then {id} * s.runs.Keys else {})
  {
    if id in s.runs && status.IsTerminal() {
      assert {id} * s.runs.Keys == {id};
      assert KeysOf(env, s.runs, {id}) == {KeyOf(env, s.runs, id)};
    }
  }

  /** An action that grants no lock frees exactly those of the finishing runs. */
  lemma LocksFreed(env: Env, s: Registry, a: Action)
    requires Granted(env, s, a) == {}
    ensures Apply(env, s, a).locks == s.locks - KeysOf(env, s.runs, Finished(env, s, a))
  {
    match a
    case ClearQueue(filter, ids, now) =>
      StopEachLocks(env, s.(queues := RetainAll(s.queues, KeptByClear(env, filter))), ids, "cleared by user", now);
      KnownKeys(env, s.runs, Listed(ids));
    case SpawnFailed(repo, now) =>
      var k := RepoHash(env, repo);
      StopEachLocks(env, s.(queues := if k in s.queues then s.queues[k := []] else s.queues), QueuedIds(s, k), "circuit breaker tripped", now);
      KnownKeys(env, s.runs, Listed(QueuedIds(s, k)));
    case Stage(id, status, phase, error, now) => OneLockFreed(env, s, id, status, phase, error, now);
    case DequeueRun(id, now) => OneLockFreed(env, RemovePending(s, id), id, Stopped, None, Some("removed from queue"), now);
    case RegisterRun(_, _, _) =>
    case PromoteRun(_, _, _, _) =>
    case _ =>
  }

  /** An active run becomes terminal exactly when the action finishes it. */
  lemma FinishedIsTerminal(env: Env, s: Registry, a: Action, id: RunId)
    requires Enabled(env, s, a) && id in s.runs && !s.runs[id].status.IsTerminal()
    ensures id in Apply(env, s, a).runs
    ensures Apply(env, s, a).runs[id].status.IsTerminal() <==> id in Finished(env, s, a)
  {
    match a
    case ClearQueue(filter, ids, now) =>
      StopEachRun(env, s.(queues := RetainAll(s.queues, KeptByClear(env, filter))), ids, "cleared by user", now, id);
    case SpawnFailed(repo, now) =>
      var k := RepoHash(env, repo);
      StopEachRun(env, s.(queues := if k in s.queues then s.queues[k := []] else s.queues), QueuedIds(s, k), "circuit breaker tripped", now, id);
    case RegisterRun(entry, osFree, writeOk) => RegisterAdvances(env, s, entry, osFree, writeOk, id);
    case PromoteRun(x, osFree, writeOk, now) => PromoteAdvances(env, s, x, osFree, writeOk, now, id);
    case Edit(x, fields) => EditAdvances(s, x, fields, id);
    case _ =>
  }

  lemma ActionReleases(env: Env, s: Registry, a: Action)
    requires Enabled(env, s, a) && Granted(env, s, a) == {}
    ensures Releases(env, s, Apply(env, s, a), Finished(env, s, a))
  {
    LocksFreed(env, s, a);
    forall x | x in s.runs
      ensures x in Apply(env, s, a).runs && StaysOrEnds(s.runs[x], Apply(env, s, a).runs[x], x in Finished(env, s, a))
    {
      StepAdvances(env, s, a, x);
      if !s.runs[x].status.IsTerminal() {
        FinishedIsTerminal(env, s, a, x);
      }
    }
  }

  lemma ActionGrants(env: Env, s: Registry, a: Action, id: RunId)
    requires Enabled(env, s, a) && id in Granted(env, s, a)
    ensures Granted(env, s, a) == {id} && Finished(env, s, a) == {}
    ensures Grants(env, s, Apply(env, s, a), id)
  {
  }

  lemma ActionMoves(env: Env, s: Registry, a: Action)
    requires Enabled(env, s, a)
    ensures Moves(env, s, Apply(env, s, a), Finished(env, s, a), Granted(env, s, a))
  {
    if id :| id in Granted(env, s, a) {
      ActionGrants(env, s, a, id);
    } else {
      ActionReleases(env, s, a);
    }
  }

  // ── Exclusion ──────────────────────────────────────────────────────

  /** One action keeps locks exclusive if and only if, for each run it finishes,
      whoever owns the lock of that run's repository is finished by it too. */
  lemma StepKeepsExclusive(env: Env, s: Registry, owners: set<RunId>, a: Action)
    requires Exclusive(env, s, owners) && Enabled(env, s, a)
    ensures Exclusive(env, Apply(env, s, a), OwnersAfter(env, s, owners, a)) <==> FinishesOwners(env, s, owners, a)
  {
    ActionMoves(env, s, a);
    MoveIff(env, s, Apply(env, s, a), owners, Finished(env, s, a), Granted(env, s, a));
  }

  ghost predicate Leads(env: Env, s: Registry, own: set<RunId>, a: Action, s': Registry, own': set<RunId>) {
    Enabled(env, s, a) && s' == Apply(env, s, a) && own' == OwnersAfter(env, s, own, a)
  }

  ghost predicate OwnedExecution(env: Env, states: seq<Registry>, owners: seq<set<RunId>>, actions: seq<Action>) {
    && |owners| == |states| == |actions| + 1
    && states[0] == EMPTY && owners[0] == {}
    && (forall i :: 0 <= i < |actions| ==> Leads(env, states[i], owners[i], actions[i], states[i + 1], owners[i + 1]))
  }

  lemma {:induction false} LocksStayExclusive(env: Env, states: seq<Registry>, owners: seq<set<RunId>>, actions: seq<Action>, i: nat)
    requires OwnedExecution(env, states, owners, actions) && i < |states|
    requires forall j :: 0 <= j < |actions| ==> FinishesOwners(env, states[j], owners[j], actions[j])
    ensures Exclusive(env, states[i], owners[i])
  {
    if i > 0 {
      LocksStayExclusive(env, states, owners, actions, i - 1);
      assert Leads(env, states[i - 1], owners[i - 1], actions[i - 1], states[i], owners[i]);
      StepKeepsExclusive(env, states[i - 1], owners[i - 1], actions[i - 1]);
    }
  }

  /** Over a whole execution each repository has at most one owner, and its lock
      is held exactly while it has one, if and only if no action ever finishes a
      run under another owner's lock. */
  lemma ExclusiveExactlyWhen(env: Env, states: seq<Registry>, owners: seq<set<RunId>>, actions: seq<Action>)
    requires OwnedExecution(env, states, owners, actions)
    ensures (forall i :: 0 <= i < |states| ==> Exclusive(env, states[i], owners[i]))
      <==> (forall j :: 0 <= j < |actions| ==> FinishesOwners(env, states[j], owners[j], actions[j]))
  {
    if forall j :: 0 <= j < |actions| ==> FinishesOwners(env, states[j], owners[j], actions[j]) {
      forall i | 0 <= i < |states| ensures Exclusive(env, states[i], owners[i]) {
        LocksStayExclusive(env, states, owners, actions, i);
      }
    }
    if forall i :: 0 <= i < |states| ==> Exclusive(env, states[i], owners[i]) {
      forall j | 0 <= j < |actions| ensures FinishesOwners(env, states[j], owners[j], actions[j]) {
        assert Leads(env, states[j], owners[j], actions[j], states[j + 1], owners[j + 1]);
        assert Exclusive(env, states[j], owners[j]) && Exclusive(env, states[j + 1], owners[j + 1]);
        StepKeepsExclusive(env, states[j], owners[j], actions[j]);
      }
    }
  }

  /** A failed registration or promotion leaves every lock as it was; in
      particular a failed write leaves the lock it had just taken free. */
  lemma FailedGrantFreesLock(env: Env, s: Registry, a: Action)
    requires a.RegisterRun? || (a.PromoteRun? && a.id in s.runs)
    requires Granted(env, s, a) == {}
    ensures Apply(env, s, a).locks == s.locks
    ensures var repo := if a.RegisterRun? then a.entry.repoDir else s.runs[a.id].repoDir;
      CanAcquire(env, s, repo, true) ==> CanAcquire(env, Apply(env, s, a), repo, true)
  {
  }

  // ── The hypothesis is needed ───────────────────────────────────────

  const FIRST := FreshEntry("a", "p", "repo", Some("gw-a"), None, None, 0)
  const WAITING := PendingRun("b", "q", "repo", None, None, 0, 0)
  const SECOND := FreshEntry("c", "r", "repo", Some("gw-c"), None, None, 0)

  const ONE_AT_WORK := EMPTY.(runs := map["a" := FIRST], locks := {"repo"})
  const ONE_WAITS := ONE_AT_WORK.(runs := map["a" := FIRST, "b" := QueuedEntry(WAITING)], order := ["repo"], queues := map["repo" := [WAITING]])

  lemma FirstRegisters()
    ensures Enabled(PLAIN, EMPTY, RegisterRun(FIRST, true, true))
    ensures Apply(PLAIN, EMPTY, RegisterRun(FIRST, true, true)) == ONE_AT_WORK
    ensures OwnersAfter(PLAIN, EMPTY, {}, RegisterRun(FIRST, true, true)) == {"a"}
  {
  }

  lemma SecondWaits()
    ensures Enabled(PLAIN, ONE_AT_WORK, Submit(WAITING))
    ensures Apply(PLAIN, ONE_AT_WORK, Submit(WAITING)) == ONE_WAITS
    ensures OwnersAfter(PLAIN, ONE_AT_WORK, {"a"}, Submit(WAITING)) == {"a"}
  {
    assert !HasActiveDuplicate(PLAIN, ONE_AT_WORK, WAITING);
    assert [] + [WAITING] == [WAITING];
    assert ONE_AT_WORK.runs["b" := QueuedEntry(WAITING)] == ONE_WAITS.runs;
  }

  lemma WaitingRunLeaves(s: Registry)
    requires s == Apply(PLAIN, ONE_WAITS, DequeueRun("b", 0))
    ensures s.runs.Keys == {"a", "b"} && s.runs["a"] == FIRST && s.locks == {} && !Pending(s, "c")
    ensures OwnersAfter(PLAIN, ONE_WAITS, {"a"}, DequeueRun("b", 0)) == {"a"}
  {
    assert QueuedIds(ONE_WAITS, "repo")[0] == "b";
    assert Pending(ONE_WAITS, "b");
    RetainMembers([WAITING], OtherThan("b"));
    forall k ensures "c" !in QueuedIds(s, k) {
      assert k == "repo" ==> QueueOf(s.queues, k) == Retain([WAITING], OtherThan("b"));
      assert forall p :: p !in QueueOf(s.queues, k);
    }
  }

  lemma ThirdRegisters(s: Registry)
    requires s.runs.Keys == {"a", "b"} && s.runs["a"] == FIRST && s.locks == {} && !Pending(s, "c")
    ensures Enabled(PLAIN, s, RegisterRun(SECOND, true, true))
    ensures var s' := Apply(PLAIN, s, RegisterRun(SECOND, true, true)); s'.runs == s.runs["c" := SECOND] && s'.locks == {"repo"}
    ensures OwnersAfter(PLAIN, s, {"a"}, RegisterRun(SECOND, true, true)) == {"a", "c"}
  {
  }

  /** Removing a queued run frees the lock of the run at work in the same
      repository, and a second run can then register beside it. */
  lemma DequeueLetsTwoRunsIn() returns (s3: Registry, s4: Registry)
    ensures Leads(PLAIN, EMPTY, {}, RegisterRun(FIRST, true, true), ONE_AT_WORK, {"a"})
    ensures Leads(PLAIN, ONE_AT_WORK, {"a"}, Submit(WAITING), ONE_WAITS, {"a"})
    ensures Leads(PLAIN, ONE_WAITS, {"a"}, DequeueRun("b", 0), s3, {"a"})
    ensures Leads(PLAIN, s3, {"a"}, RegisterRun(SECOND, true, true), s4, {"a", "c"})
    ensures "a" != "c" && "a" in s4.runs && "c" in s4.runs
    ensures !s4.runs["a"].status.IsTerminal() && !s4.runs["c"].status.IsTerminal()
    ensures KeyOf(PLAIN, s4.runs, "a") == KeyOf(PLAIN, s4.runs, "c")
  {
    s3 := Apply(PLAIN, ONE_WAITS, DequeueRun("b", 0));
    s4 := Apply(PLAIN, s3, RegisterRun(SECOND, true, true));
    FirstRegisters();
    SecondWaits();
    WaitingRunLeaves(s3);
    ThirdRegisters(s3);
  }
}

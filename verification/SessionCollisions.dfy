/** Active runs that claim one tmux session name, and which of them may keep it.
    Modelled on src/daemon/reconciler.rs. */
module SessionCollisions {
  import opened Prelude
  import opened RunModel
  import opened RegistrySpec
  import opened RegistrySystem
  import opened RunRegistryClass

  function StripPrefix(name: string): Option<string> {
    if |name| >= 3 && name[..3] == "gw-" then Some(name[3..]) else None
  }

  lemma StripPrefixInverse(name: string, id: RunId)
    ensures StripPrefix(name) == Some(id) <==> name == SessionFor(id)
  {
  }

  predicate Active(e: RunEntry) {
    e.status == Queued || e.status == Running
  }

  /** `c` is active and carries the session name made from its own id. */
  ghost predicate Canonical(runs: map<RunId, RunEntry>, c: RunId) {
    c in runs && Active(runs[c]) && runs[c].sessionName == SessionFor(c)
  }

  /** An active run that shares the session name of another, canonical run. */
  ghost predicate Loses(runs: map<RunId, RunEntry>, id: RunId) {
    && id in runs && Active(runs[id])
    && exists c :: c != id && Canonical(runs, c) && runs[id].sessionName == SessionFor(c)
  }

  ghost function Losers(runs: map<RunId, RunEntry>): set<RunId> {
    set id | id in runs && Loses(runs, id)
  }

  // ── The methods ────────────────────────────────────────────────────

  /** `ids` lists, once each, the active runs of `name`. */
  ghost predicate ListsGroup(runs: map<RunId, RunEntry>, scope: set<RunId>, name: string, ids: seq<RunId>) {
    NoDup(ids) && forall id :: id in ids <==> id in runs && id in scope && Active(runs[id]) && runs[id].sessionName == name
  }

  ghost predicate GroupsOf(runs: map<RunId, RunEntry>, scope: set<RunId>, groups: map<string, seq<RunId>>) {
    && (forall name :: name in groups ==> ListsGroup(runs, scope, name, groups[name]))
    && (forall id :: id in runs && id in scope && Active(runs[id]) ==> runs[id].sessionName in groups)
  }

  /** Groups of at least two active runs that share a session name. */
  ghost predicate Collisions(runs: map<RunId, RunEntry>, groups: map<string, seq<RunId>>) {
    && (forall name :: name in groups ==> |groups[name]| > 1 && ListsGroup(runs, runs.Keys, name, groups[name]))
    && (forall id, other :: id != other && Shares(runs, id, other) ==> runs[id].sessionName in groups)
  }

  ghost predicate Shares(runs: map<RunId, RunEntry>, id: RunId, other: RunId) {
    && id in runs && other in runs && Active(runs[id]) && Active(runs[other])
    && runs[id].sessionName == runs[other].sessionName
  }

  method FindSessionNameCollisions(reg: RunRegistry) returns (groups: map<string, seq<RunId>>)
    ensures Collisions(reg.runs, groups)
  {
    var all: map<string, seq<RunId>> := map[];
    var rest := reg.runs.Keys;
    ghost var done: set<RunId> := {};
    while rest != {}
      invariant done + rest == reg.runs.Keys && done !! rest
      invariant GroupsOf(reg.runs, done, all)
      decreases rest
    {
      var id :| id in rest;
      if Active(reg.runs[id]) {
        var name := reg.runs[id].sessionName;
        all := all[name := (if name in all then all[name] else []) + [id]];
      }
      rest, done := rest - {id}, done + {id};
    }
    assert done == reg.runs.Keys;
    groups := map name | name in all && |all[name]| > 1 :: all[name];
    forall id, other | id != other && Shares(reg.runs, id, other) ensures reg.runs[id].sessionName in groups {
      var name := reg.runs[id].sessionName;
      assert ListsGroup(reg.runs, done, name, all[name]);
      assert id in all[name] && other in all[name];
    }
  }

  /** `s` is `before` with exactly the runs of `stopped` stopped, and the locks of
      their repositories gone. */
  ghost predicate StoppedFrom(env: Env, before: Registry, s: Registry, stopped: set<RunId>) {
    && s == before.(runs := s.runs, locks := s.locks)
    && s.runs.Keys == before.runs.Keys
    && s.locks == before.locks - KeysOf(env, before.runs, stopped)
    && (forall id :: id in before.runs ==> StoppedIfListed(before.runs[id], s.runs[id], id in stopped))
  }

  /** After resolving, a canonical run is the only active one of its name, groups
      without one are as they were, and resolving again finds nothing to do. */
  lemma ResolvedOnce(env: Env, s: Registry, s': Registry)
    requires StoppedFrom(env, s, s', Losers(s.runs))
    ensures Losers(s'.runs) == {}
    ensures forall c, id :: Canonical(s'.runs, c) && id in s'.runs && Active(s'.runs[id]) && s'.runs[id].sessionName == SessionFor(c) ==> id == c
    ensures forall c :: Canonical(s'.runs, c) <==> Canonical(s.runs, c)
    ensures forall id :: id in s.runs && (forall c :: Canonical(s.runs, c) ==> s.runs[id].sessionName != SessionFor(c)) ==> s'.runs[id] == s.runs[id]
  {
    forall c ensures Canonical(s'.runs, c) <==> Canonical(s.runs, c) {
      if Canonical(s.runs, c) {
        forall d | s.runs[c].sessionName == SessionFor(d) ensures d == c {
          SessionForInjective(c, d);
        }
        assert c !in Losers(s.runs);
      }
    }
    forall id | id in s'.runs ensures !Loses(s'.runs, id) {
      if Active(s'.runs[id]) {
        assert id !in Losers(s.runs) && s'.runs[id] == s.runs[id];
      }
    }
  }

  const COLLISION := "session_name collision with the canonical owner"

  lemma StopEachStops(env: Env, s: Registry, ids: seq<RunId>, now: Instant)
    ensures StoppedFrom(env, s, StopEach(env, s, ids, COLLISION, now).0, Listed(ids))
  {
    StopEachFrame(env, s, ids, COLLISION, now);
    StopEachLocks(env, s, ids, COLLISION, now);
  }

  /** The members of a group that lose to its canonical run. */
  ghost function Others(members: seq<RunId>, canonical: RunId): seq<RunId> {
    Without(members, {canonical})
  }

  /** Stops every member of one collision group but the canonical one. */
  method StopOthers(reg: RunRegistry, members: seq<RunId>, canonical: RunId, now: Instant) returns (count: nat)
    requires forall id :: id in members ==> id in reg.runs
    modifies reg
    ensures reg.View() == StopEach(reg.env, old(reg.View()), Others(members, canonical), COLLISION, now).0
    ensures count == |Others(members, canonical)|
  {
    count := 0;
    ghost var before := reg.View();
    for i := 0 to |members|
      invariant reg.View() == StopEach(reg.env, before, Others(members[..i], canonical), COLLISION, now).0
      invariant count == |Others(members[..i], canonical)|
    {
      assert members[..i + 1][..i] == members[..i];
      if members[i] != canonical {
        StopEachShape(reg.env, before, Others(members[..i], canonical), COLLISION, now);
        assert Others(members[..i + 1], canonical)[..|Others(members[..i], canonical)|] == Others(members[..i], canonical);
        var ok := reg.UpdateStatus(members[i], Stopped, None, Some(COLLISION), true, now);
        if ok {
          count := count + 1;
        }
      }
    }
    assert members[..|members|] == members;
  }

  /** `ids` lists, once each, the losers among the runs of these session names. */
  ghost predicate ListsLosers(runs: map<RunId, RunEntry>, names: set<string>, ids: seq<RunId>) {
    NoDup(ids) && forall id :: id in ids <==> Loses(runs, id) && runs[id].sessionName in names
  }

  lemma GroupLosers(runs: map<RunId, RunEntry>, name: string, members: seq<RunId>, canonical: Option<RunId>, id: RunId)
    requires ListsGroup(runs, runs.Keys, name, members) && canonical == StripPrefix(name)
    requires id in runs && Active(runs[id]) && runs[id].sessionName == name
    ensures Loses(runs, id) <==> canonical.Some? && canonical.value in members && id != canonical.value
  {
    forall c | name == SessionFor(c) ensures canonical == Some(c) {
      StripPrefixInverse(name, c);
    }
    if canonical.Some? {
      StripPrefixInverse(name, canonical.value);
      assert canonical.value in members <==> Canonical(runs, canonical.value);
    }
  }

  /** Looking at one more group adds its losers and nothing else. */
  lemma OneMoreGroup(runs: map<RunId, RunEntry>, names: set<string>, name: string, members: seq<RunId>, ids: seq<RunId>)
    requires ListsLosers(runs, names, ids) && name !in names && ListsGroup(runs, runs.Keys, name, members)
    ensures var canonical := StripPrefix(name);
      ListsLosers(runs, names + {name}, if canonical.Some? && canonical.value in members then ids + Others(members, canonical.value) else ids)
  {
    var canonical := StripPrefix(name);
    forall id | id in runs && Active(runs[id]) && runs[id].sessionName == name
      ensures Loses(runs, id) <==> canonical.Some? && canonical.value in members && id != canonical.value
      ensures id in members
    {
      GroupLosers(runs, name, members, canonical, id);
    }
    if canonical.Some? && canonical.value in members {
      WithoutMembers(members, {canonical.value});
      WithoutNoDup(members, {canonical.value});
      NoDupConcat(ids, Others(members, canonical.value));
    }
  }

  lemma {:induction false} StopEachConcat(env: Env, s: Registry, a: seq<RunId>, b: seq<RunId>, now: Instant)
    ensures StopEach(env, s, a + b, COLLISION, now).0 == StopEach(env, StopEach(env, s, a, COLLISION, now).0, b, COLLISION, now).0
  {
    if b == [] {
      assert a + b == a;
    } else {
      StopEachConcat(env, s, a, b[..|b| - 1], now);
      assert (a + b)[..|a + b| - 1] == a + b[..|b| - 1];
    }
  }

  method ResolveSessionNameCollisions(reg: RunRegistry, now: Instant) returns (resolved: nat, ghost lost: seq<RunId>)
    modifies reg
    ensures reg.View() == StopEach(reg.env, old(reg.View()), lost, COLLISION, now).0
    ensures NoDup(lost) && Listed(lost) == Losers(old(reg.runs)) && resolved == |lost|
  {
    ghost var before := reg.View();
    var groups := FindSessionNameCollisions(reg);
    resolved, lost := 0, [];
    var rest := groups.Keys;
    ghost var done: set<string> := {};
    while rest != {}
      invariant done + rest == groups.Keys && done !! rest
      invariant ListsLosers(before.runs, done, lost)
      invariant reg.View() == StopEach(reg.env, before, lost, COLLISION, now).0
      invariant resolved == |lost|
      decreases rest
    {
      var name :| name in rest;
      var members, canonical := groups[name], StripPrefix(name);
      OneMoreGroup(before.runs, done, name, members, lost);
      if canonical.Some? && canonical.value in members {
        StopEachShape(reg.env, before, lost, COLLISION, now);
        var count := StopOthers(reg, members, canonical.value, now);
        StopEachConcat(reg.env, before, lost, Others(members, canonical.value), now);
        resolved, lost := resolved + count, lost + Others(members, canonical.value);
      }
      rest, done := rest - {name}, done + {name};
    }
    AllLosersGrouped(before.runs, groups, done, lost);
  }

  lemma AllLosersGrouped(runs: map<RunId, RunEntry>, groups: map<string, seq<RunId>>, names: set<string>, lost: seq<RunId>)
    requires Collisions(runs, groups) && names == groups.Keys && ListsLosers(runs, names, lost)
    ensures Listed(lost) == Losers(runs)
  {
    forall id | Loses(runs, id) ensures runs[id].sessionName in names {
      var c :| c != id && Canonical(runs, c) && runs[id].sessionName == SessionFor(c);
      assert Shares(runs, id, c);
    }
  }

  /** A canonical run stays as it is, but the lock of its repository, held before,
      is held afterwards if and only if no loser of any group belongs to the same
      repository; otherwise it can be taken while the canonical run is active. */
  lemma CanonicalKeepsItsLockIff(env: Env, s: Registry, lost: seq<RunId>, now: Instant, c: RunId)
    requires Listed(lost) == Losers(s.runs)
    requires Canonical(s.runs, c) && RepoHash(env, s.runs[c].repoDir) in s.locks
    ensures var s' := StopEach(env, s, lost, COLLISION, now).0;
      Canonical(s'.runs, c) && s'.runs[c] == s.runs[c]
    ensures var s' := StopEach(env, s, lost, COLLISION, now).0; var k := RepoHash(env, s.runs[c].repoDir);
      && (k in s'.locks <==> forall id :: Loses(s.runs, id) ==> RepoHash(env, s.runs[id].repoDir) != k)
      && (k !in s'.locks <==> CanAcquire(env, s', s.runs[c].repoDir, true))
  {
    var s' := StopEach(env, s, lost, COLLISION, now).0;
    StopEachStops(env, s, lost, now);
    ResolvedOnce(env, s, s');
    forall d | s.runs[c].sessionName == SessionFor(d) ensures d == c {
      SessionForInjective(c, d);
    }
    assert c !in Losers(s.runs);
    forall id ensures Loses(s.runs, id) <==> id in Losers(s.runs) {}
  }
}

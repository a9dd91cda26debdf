/** What becomes of submitted runs when the daemon restarts from a snapshot that
    is not the latest. Modelled on src/daemon/registry.rs. */
module StaleRestarts {
  import opened Prelude
  import opened RunModel
  import opened RegistrySpec
  import opened RegistrySystem
  import opened QueueAccounts
  import opened QueueHistory

  lemma RecordGrows(env: Env, s: Registry, h: History, e: Event, k: RepoKey, id: RunId)
    ensures var h' := Record(env, s, h, e);
      && (Submitted(h, k, id) ==> Submitted(h', k, id))
      && (HandedOut(h, k, id) ==> HandedOut(h', k, id))
      && (id in h.removed ==> id in h'.removed)
  {
    if e.Act? && e.a.Drain? {
    } else if e.Act? && e.a.DrainFirstReady? {
    }
  }

  lemma {:induction false} HistoryGrows(env: Env, states: seq<Registry>, pasts: seq<History>, events: seq<Event>, i: nat, j: nat, k: RepoKey, id: RunId)
    requires QueueHistory.Execution(env, states, pasts, events) && i <= j < |states|
    ensures Submitted(pasts[i], k, id) ==> Submitted(pasts[j], k, id)
    ensures HandedOut(pasts[i], k, id) ==> HandedOut(pasts[j], k, id)
    ensures id in pasts[i].removed ==> id in pasts[j].removed
    decreases j - i
  {
    if i < j {
      RecordGrows(env, states[i], pasts[i], events[i], k, id);
      HistoryGrows(env, states, pasts, events, i + 1, j, k, id);
    }
  }

  /** Where a submitted run is, if anywhere, and in one place only. */
  ghost predicate InOnePlace(s: Registry, h: History, k: RepoKey, id: RunId) {
    && (Waits(s, k, id) || HandedOut(h, k, id) || id in h.removed)
    && !(Waits(s, k, id) && HandedOut(h, k, id)) && !(Waits(s, k, id) && id in h.removed)
    && !(HandedOut(h, k, id) && id in h.removed)
  }

  /** A restart at `j` that finds the snapshot of an earlier state `i`, as after a
      flush that failed or was overtaken: a run is lost exactly when it was
      submitted since and still waited; it waits again although handed out or
      removed exactly when that happened since. */
  lemma StaleRestart(env: Env, states: seq<Registry>, pasts: seq<History>, events: seq<Event>, i: nat, j: nat, next: Registry, k: RepoKey, id: RunId)
    requires QueueHistory.Execution(env, states, pasts, events) && i <= j < |states|
    requires Restores(EMPTY.(runs := next.runs), WireOf(states[i]), next)
    requires Submitted(pasts[j], k, id)
    ensures var lost := !Waits(next, k, id) && !HandedOut(pasts[j], k, id) && id !in pasts[j].removed;
      lost <==> Waits(states[j], k, id) && !Submitted(pasts[i], k, id)
    ensures Waits(next, k, id) && HandedOut(pasts[j], k, id) <==> Waits(states[i], k, id) && HandedOut(pasts[j], k, id) && !HandedOut(pasts[i], k, id)
    ensures Waits(next, k, id) && id in pasts[j].removed <==> Waits(states[i], k, id) && id in pasts[j].removed && id !in pasts[i].removed
    ensures InOnePlace(next, pasts[j], k, id) <==> (Waits(states[i], k, id) <==> Waits(states[j], k, id))
    ensures FailuresOf(next, k) == FailuresOf(states[i], k)
  {
    assert next.queues == states[i].queues;
    assert QueuedIds(next, k) == QueuedIds(states[i], k);
    HistoryGrows(env, states, pasts, events, i, j, k, id);
    ExecutionAccounts(env, states, pasts, events, i);
    WaitingWasSubmitted(states[i], pasts[i], k);
    SubmittedRunIsInOnePlace(env, states, pasts, events, j, k, id);
    if Submitted(pasts[i], k, id) {
      SubmittedRunIsInOnePlace(env, states, pasts, events, i, k, id);
    }
  }
}

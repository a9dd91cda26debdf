/** Scheduled runs: the registry of schedules, and how often one schedule can fire
    while its owner pauses and resumes it. Modelled on src/daemon/schedule.rs and
    src/daemon/server.rs. */
module Schedules {
  import opened Prelude

  type Instant = int
  type ScheduleId = string

  datatype Kind = Cron(expression: string) | OneShot(at: Instant) | Delayed(delaySecs: nat)

  datatype Status = Active | Paused | Completed | Failed | Rejected

  datatype Entry = Entry(
    id: ScheduleId,
    kind: Kind,
    status: Status,
    createdAt: Instant,
    lastFired: Option<Instant>,
    nextFire: Option<Instant>,
    fireCount: nat,
    lastError: Option<string>)

  /** The cron library: the next instant of an expression after a given one. */
  type CronNext = (string, Instant) -> Option<Instant>

  ghost predicate StrictlyLater(cron: CronNext) {
    forall e, t :: cron(e, t).Some? ==> cron(e, t).value > t
  }

  function ComputeNextFire(cron: CronNext, kind: Kind, after: Instant): Option<Instant> {
    match kind
    case Cron(expression) => cron(expression, after)
    case OneShot(at) => if at > after then Some(at) else None
    case Delayed(_) => None
  }

  // ── One entry ──────────────────────────────────────────────────────

  function Created(cron: CronNext, id: ScheduleId, kind: Kind, now: Instant): Entry {
    Entry(id, kind, Active, now, None, if kind.Delayed? then Some(now + kind.delaySecs) else ComputeNextFire(cron, kind, now), 0, None)
  }

  function PausedEntry(e: Entry): Entry {
    e.(status := Paused, nextFire := None)
  }

  function ResumedEntry(cron: CronNext, e: Entry, now: Instant): Entry {
    e.(status := Active, nextFire := ComputeNextFire(cron, e.kind, now))
  }

  /** A rejected entry keeps its old fire time. */
  function RejectedEntry(e: Entry, reason: string): Entry {
    e.(status := Rejected, lastError := Some(reason))
  }

  predicate Ready(e: Entry, now: Instant) {
    e.status == Active && e.nextFire.Some? && e.nextFire.value <= now
  }

  ghost function ReadyIds(entries: map<ScheduleId, Entry>, now: Instant): set<ScheduleId> {
    set id | id in entries && Ready(entries[id], now)
  }

  /** A recurring entry that was paused while it fired gets a fire time again, but
      stays paused. */
  function FiredEntry(cron: CronNext, e: Entry, now: Instant): Entry {
    var counted := e.(lastFired := Some(now), fireCount := e.fireCount + 1);
    if e.kind.Cron? then counted.(nextFire := ComputeNextFire(cron, e.kind, now))
    else counted.(status := Completed, nextFire := None)
  }

  /** When a new schedule becomes due: a delayed one when its delay is over, a
      one-shot at its instant if that lies ahead, and a recurring one at the next
      instant the library gives. */
  lemma CreatedIsDue(cron: CronNext, id: ScheduleId, kind: Kind, now: Instant, t: Instant)
    ensures Ready(Created(cron, id, kind, now), t) <==>
      || (kind.Delayed? && now + kind.delaySecs <= t)
      || (kind.OneShot? && now < kind.at <= t)
      || (kind.Cron? && cron(kind.expression, now).Some? && cron(kind.expression, now).value <= t)
  {
  }

  /** A recurring schedule that is active after it fired, or after it was resumed,
      is due at the next instant the library gives, and not before. */
  lemma RecurringIsDue(cron: CronNext, e: Entry, now: Instant, t: Instant)
    requires e.kind.Cron?
    ensures Ready(ResumedEntry(cron, e, now), t) <==> cron(e.kind.expression, now).Some? && cron(e.kind.expression, now).value <= t
    ensures e.status == Active ==>
      (Ready(FiredEntry(cron, e, now), t) <==> cron(e.kind.expression, now).Some? && cron(e.kind.expression, now).value <= t)
    ensures FiredEntry(cron, e, now).status == e.status && FiredEntry(cron, e, now).lastFired == Some(now)
  {
  }

  /** `list` holds the entries of `ids`, one for each. */
  ghost predicate Gathered(entries: map<ScheduleId, Entry>, ids: set<ScheduleId>, list: seq<Entry>)
    requires ids <= entries.Keys
  {
    |list| == |ids| && forall e :: e in list <==> exists id :: id in ids && entries[id] == e
  }

  // ── The registry ───────────────────────────────────────────────────

  class ScheduleRegistry {
    const cron: CronNext
    var entries: map<ScheduleId, Entry>

    constructor (cron: CronNext)
      ensures this.cron == cron && entries == map[]
    {
      this.cron, entries := cron, map[];
    }

    /** In every method `saveOk` says whether the file could be written; the change
        in memory stays either way. */
    method Add(entry: Entry, saveOk: bool) returns (ok: bool)
      modifies this
      ensures entries == old(entries)[entry.id := entry] && ok == saveOk
    {
      entries := entries[entry.id := entry];
      ok := saveOk;
    }

    method Remove(id: ScheduleId, saveOk: bool) returns (ok: bool)
      modifies this
      ensures entries == old(entries) - {id} && ok == (id in old(entries) && saveOk)
    {
      if id !in entries {
        return false;
      }
      entries := entries - {id};
      ok := saveOk;
    }

    method Pause(id: ScheduleId, saveOk: bool) returns (ok: bool)
      modifies this
      ensures entries == if id in old(entries) then old(entries)[id := PausedEntry(old(entries)[id])] else old(entries)
      ensures id in entries ==> entries[id].status == Paused && entries[id].nextFire.None? && entries[id].kind == old(entries)[id].kind
      ensures ok == (id in entries && saveOk)
    {
      if id !in entries {
        return false;
      }
      var e := entries[id].(status := Paused);
      entries := entries[id := e.(nextFire := None)];
      ok := saveOk;
    }

    method Resume(id: ScheduleId, now: Instant, saveOk: bool) returns (ok: bool)
      modifies this
      ensures entries == if id in old(entries) then old(entries)[id := ResumedEntry(cron, old(entries)[id], now)] else old(entries)
      ensures id in entries ==> entries[id].status == Active && entries[id].kind == old(entries)[id].kind
      ensures ok == (id in entries && saveOk)
    {
      if id !in entries {
        return false;
      }
      var e := entries[id].(status := Active);
      entries := entries[id := e.(nextFire := ComputeNextFire(cron, e.kind, now))];
      ok := saveOk;
    }

    method GetReadySchedules(now: Instant) returns (ready: seq<Entry>)
      ensures Gathered(entries, ReadyIds(entries, now), ready)
      ensures forall e :: e in ready <==> exists id :: id in entries && entries[id] == e && e.status == Active && e.nextFire.Some? && e.nextFire.value <= now
    {
      ready := [];
      var rest := entries.Keys;
      ghost var found: set<ScheduleId> := {};
      while rest != {}
        invariant rest <= entries.Keys
        invariant forall id :: id in found <==> id in entries && id !in rest && Ready(entries[id], now)
        invariant Gathered(entries, found, ready)
        decreases rest
      {
        var id :| id in rest;
        if entries[id].status == Active && entries[id].nextFire.Some? && entries[id].nextFire.value <= now {
          ready, found := ready + [entries[id]], found + {id};
        }
        rest := rest - {id};
      }
      assert found == ReadyIds(entries, now);
    }

    method RecordFired(id: ScheduleId, now: Instant, saveOk: bool) returns (ok: bool)
      modifies this
      ensures entries == if id in old(entries) then old(entries)[id := FiredEntry(cron, old(entries)[id], now)] else old(entries)
      ensures id in entries ==> entries[id].fireCount == old(entries)[id].fireCount + 1 && entries[id].lastFired == Some(now)
      ensures id in entries && !entries[id].kind.Cron? ==> entries[id].status == Completed && entries[id].nextFire.None?
      ensures ok == (id in entries && saveOk)
    {
      if id !in entries {
        return false;
      }
      var e := entries[id];
      e := e.(lastFired := Some(now), fireCount := e.fireCount + 1);
      match e.kind {
        case OneShot(_) => e := e.(status := Completed, nextFire := None);
        case Delayed(_) => e := e.(status := Completed, nextFire := None);
        case Cron(_) => e := e.(nextFire := ComputeNextFire(cron, e.kind, now));
      }
      entries := entries[id := e];
      ok := saveOk;
    }

    /** Fire-time validation failed. */
    method Reject(id: ScheduleId, reason: string)
      modifies this
      ensures entries == if id in old(entries) then old(entries)[id := RejectedEntry(old(entries)[id], reason)] else old(entries)
      ensures id in entries ==> entries[id].status == Rejected && entries[id].lastError == Some(reason)
    {
      if id in entries {
        entries := entries[id := entries[id].(status := Rejected, lastError := Some(reason))];
      }
    }
  }

  // ── One schedule over time ─────────────────────────────────────────

  /** One schedule, the clock, and whether the fire loop, having found it ready,
      is still busy spawning its run. */
  datatype System = System(entry: Entry, clock: Instant, firing: bool)

  datatype Step =
    | Tick(to: Instant)
    | Pause
    | Resume
    | FindReady
    | Reject(reason: string)
    | SpawnFailed
    | RecordFired

  predicate CanStep(s: System, step: Step) {
    match step
    case Tick(to) => to >= s.clock
    case FindReady => !s.firing && Ready(s.entry, s.clock)
    case Reject(_) => s.firing
    case SpawnFailed => s.firing
    case RecordFired => s.firing
    case _ => true
  }

  function Next(cron: CronNext, s: System, step: Step): System {
    match step
    case Tick(to) => s.(clock := to)
    case Pause => s.(entry := PausedEntry(s.entry))
    case Resume => s.(entry := ResumedEntry(cron, s.entry, s.clock))
    case FindReady => s.(firing := true)
    case Reject(reason) => s.(entry := RejectedEntry(s.entry, reason), firing := false)
    case SpawnFailed => s.(firing := false)
    case RecordFired => s.(entry := FiredEntry(cron, s.entry, s.clock), firing := false)
  }

  ghost predicate CanRun(cron: CronNext, s: System, steps: seq<Step>)
    decreases |steps|
  {
    steps == [] || (CanStep(s, steps[0]) && CanRun(cron, Next(cron, s, steps[0]), steps[1..]))
  }

  ghost function RunSteps(cron: CronNext, s: System, steps: seq<Step>): System
    decreases |steps|
  {
    if steps == [] then s else RunSteps(cron, Next(cron, s, steps[0]), steps[1..])
  }

  /** What a schedule that is meant to fire once keeps: a fire is only ever under
      way while none has been recorded, and once one has been recorded no fire
      time is left and, for a one-shot, its instant is past. */
  ghost predicate FiresOnce(s: System) {
    && !s.entry.kind.Cron?
    && s.entry.fireCount <= 1
    && (s.firing ==> s.entry.fireCount == 0)
    && (s.entry.fireCount == 1 ==> s.entry.nextFire.None?)
    && (s.entry.kind.OneShot? && s.entry.nextFire.Some? ==> s.entry.nextFire == Some(s.entry.kind.at))
    && (s.entry.kind.OneShot? && (s.firing || s.entry.fireCount == 1) ==> s.entry.kind.at <= s.clock)
  }

  lemma {:induction false} FiresAtMostOnce(cron: CronNext, s: System, steps: seq<Step>)
    requires FiresOnce(s) && CanRun(cron, s, steps)
    ensures FiresOnce(RunSteps(cron, s, steps))
    decreases |steps|
  {
    if steps != [] {
      FiresAtMostOnce(cron, Next(cron, s, steps[0]), steps[1..]);
    }
  }

  /** A one-shot or delayed schedule, however often and whenever it is paused,
      resumed, rejected or retried, is recorded as fired at most once. */
  lemma CreatedFiresAtMostOnce(cron: CronNext, id: ScheduleId, kind: Kind, now: Instant, steps: seq<Step>)
    requires !kind.Cron? && CanRun(cron, System(Created(cron, id, kind, now), now, false), steps)
    ensures RunSteps(cron, System(Created(cron, id, kind, now), now, false), steps).entry.fireCount <= 1
  {
    FiresAtMostOnce(cron, System(Created(cron, id, kind, now), now, false), steps);
  }

  // ── Whether it can still fire ──────────────────────────────────────

  predicate CanStillFire(s: System) {
    || s.firing
    || (s.entry.status == Active && s.entry.nextFire.Some?)
    || (s.entry.kind.OneShot? && s.clock < s.entry.kind.at)
  }

  lemma {:induction false} DeadNeverFires(cron: CronNext, s: System, steps: seq<Step>)
    requires !s.entry.kind.Cron? && !CanStillFire(s) && CanRun(cron, s, steps)
    ensures RunSteps(cron, s, steps).entry.fireCount == s.entry.fireCount
    decreases |steps|
  {
    if steps != [] {
      DeadNeverFires(cron, Next(cron, s, steps[0]), steps[1..]);
    }
  }

  lemma Prepend(cron: CronNext, s: System, step: Step, rest: seq<Step>)
    requires CanStep(s, step) && CanRun(cron, Next(cron, s, step), rest)
    ensures CanRun(cron, s, [step] + rest) && RunSteps(cron, s, [step] + rest) == RunSteps(cron, Next(cron, s, step), rest)
  {
  }

  ghost predicate FiresBy(cron: CronNext, s: System, steps: seq<Step>) {
    CanRun(cron, s, steps) && RunSteps(cron, s, steps).entry.fireCount > s.entry.fireCount
  }

  lemma FiringFires(cron: CronNext, s: System) returns (steps: seq<Step>)
    requires s.firing
    ensures FiresBy(cron, s, steps)
  {
    Prepend(cron, s, RecordFired, []);
    steps := [RecordFired] + [];
  }

  lemma DueFires(cron: CronNext, s: System) returns (steps: seq<Step>)
    requires !s.firing && s.entry.status == Active && s.entry.nextFire.Some?
    ensures FiresBy(cron, s, steps)
  {
    var s1 := Next(cron, s, Tick(if s.entry.nextFire.value > s.clock then s.entry.nextFire.value else s.clock));
    var rest := FiringFires(cron, Next(cron, s1, FindReady));
    Prepend(cron, s1, FindReady, rest);
    Prepend(cron, s, Tick(s1.clock), [FindReady] + rest);
    steps := [Tick(s1.clock)] + ([FindReady] + rest);
  }

  /** A one-shot or delayed schedule can still fire exactly when it is firing, or
      is active with a fire time, or is a one-shot whose instant lies ahead. */
  lemma CanFireIff(cron: CronNext, s: System)
    requires !s.entry.kind.Cron?
    ensures (exists steps :: FiresBy(cron, s, steps)) <==> CanStillFire(s)
  {
    if s.firing {
      var steps := FiringFires(cron, s);
    } else if s.entry.status == Active && s.entry.nextFire.Some? {
      var steps := DueFires(cron, s);
    } else if s.entry.kind.OneShot? && s.clock < s.entry.kind.at {
      var rest := DueFires(cron, Next(cron, s, Resume));
      Prepend(cron, s, Resume, rest);
      assert FiresBy(cron, s, [Resume] + rest);
    } else {
      forall steps | CanRun(cron, s, steps) ensures !FiresBy(cron, s, steps) {
        DeadNeverFires(cron, s, steps);
      }
    }
  }

  /** Pausing a delayed schedule that is not just firing ends it: resumed or not,
      it shows as active and never fires. */
  lemma PausedDelayedNeverFires(cron: CronNext, s: System, steps: seq<Step>)
    requires s.entry.kind.Delayed? && !s.firing
    requires CanRun(cron, Next(cron, Next(cron, s, Pause), Resume), steps)
    ensures Next(cron, Next(cron, s, Pause), Resume).entry.status == Active
    ensures RunSteps(cron, Next(cron, Next(cron, s, Pause), Resume), steps).entry.fireCount == s.entry.fireCount
  {
    DeadNeverFires(cron, Next(cron, Next(cron, s, Pause), Resume), steps);
  }

  // ── Recurring schedules ────────────────────────────────────────────

  /** The library gives an instant after some present or future one. */
  ghost predicate LibraryGoesOn(cron: CronNext, expression: string, now: Instant) {
    exists t :: t >= now && cron(expression, t).Some?
  }

  ghost predicate RecurringCanFire(cron: CronNext, s: System)
    requires s.entry.kind.Cron?
  {
    s.firing || (s.entry.status == Active && s.entry.nextFire.Some?) || LibraryGoesOn(cron, s.entry.kind.expression, s.clock)
  }

  lemma DeadStaysDead(cron: CronNext, s: System, step: Step)
    requires s.entry.kind.Cron? && !RecurringCanFire(cron, s) && CanStep(s, step)
    ensures var s' := Next(cron, s, step);
      s'.entry.kind == s.entry.kind && !RecurringCanFire(cron, s') && s'.entry.fireCount == s.entry.fireCount
  {
    assert cron(s.entry.kind.expression, s.clock).None?;
  }

  lemma {:induction false} DeadRecurringNeverFires(cron: CronNext, s: System, steps: seq<Step>)
    requires s.entry.kind.Cron? && !RecurringCanFire(cron, s) && CanRun(cron, s, steps)
    ensures RunSteps(cron, s, steps).entry.fireCount == s.entry.fireCount
    decreases |steps|
  {
    if steps != [] {
      DeadStaysDead(cron, s, steps[0]);
      DeadRecurringNeverFires(cron, Next(cron, s, steps[0]), steps[1..]);
    }
  }

  lemma ResumedFires(cron: CronNext, s: System, t: Instant) returns (steps: seq<Step>)
    requires s.entry.kind.Cron? && !s.firing && t >= s.clock && cron(s.entry.kind.expression, t).Some?
    ensures FiresBy(cron, s, steps)
  {
    var s1 := Next(cron, s, Tick(t));
    var rest := DueFires(cron, Next(cron, s1, Resume));
    Prepend(cron, s1, Resume, rest);
    Prepend(cron, s, Tick(t), [Resume] + rest);
    steps := [Tick(t)] + ([Resume] + rest);
  }

  /** A recurring schedule can fire again exactly when it is firing, or is active
      with a fire time, or the library gives an instant from now on. */
  lemma RecurringCanFireIff(cron: CronNext, s: System)
    requires s.entry.kind.Cron?
    ensures (exists steps :: FiresBy(cron, s, steps)) <==> RecurringCanFire(cron, s)
  {
    if s.firing {
      var steps := FiringFires(cron, s);
    } else if s.entry.status == Active && s.entry.nextFire.Some? {
      var steps := DueFires(cron, s);
    } else if LibraryGoesOn(cron, s.entry.kind.expression, s.clock) {
      var t :| t >= s.clock && cron(s.entry.kind.expression, t).Some?;
      var steps := ResumedFires(cron, s, t);
    } else {
      forall steps | CanRun(cron, s, steps) ensures !FiresBy(cron, s, steps) {
        DeadRecurringNeverFires(cron, s, steps);
      }
    }
  }

  /** The next fire time lies after the last recorded fire. */
  ghost predicate Spaced(s: System) {
    && s.entry.kind.Cron?
    && (s.entry.lastFired.Some? ==> s.entry.lastFired.value <= s.clock)
    && (s.entry.lastFired.Some? && s.entry.nextFire.Some? ==> s.entry.lastFired.value < s.entry.nextFire.value)
  }

  lemma {:induction false} RecurringFiresAreSpaced(cron: CronNext, s: System, steps: seq<Step>)
    requires StrictlyLater(cron) && Spaced(s) && CanRun(cron, s, steps)
    ensures Spaced(RunSteps(cron, s, steps))
    decreases |steps|
  {
    if steps != [] {
      RecurringFiresAreSpaced(cron, Next(cron, s, steps[0]), steps[1..]);
    }
  }

  /** A recurring schedule is never found ready twice for one instant: whenever it
      is ready, the clock has passed the last fire it recorded. */
  lemma ReadyOnlyAfterLastFire(cron: CronNext, id: ScheduleId, kind: Kind, now: Instant, steps: seq<Step>)
    requires kind.Cron? && StrictlyLater(cron)
    requires CanRun(cron, System(Created(cron, id, kind, now), now, false), steps)
    ensures var s := RunSteps(cron, System(Created(cron, id, kind, now), now, false), steps);
      Ready(s.entry, s.clock) && s.entry.lastFired.Some? ==> s.entry.lastFired.value < s.clock
  {
    RecurringFiresAreSpaced(cron, System(Created(cron, id, kind, now), now, false), steps);
  }
}

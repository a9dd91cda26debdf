/** Flushing queue snapshots to queue.json from threads that race outside the
    registry mutex. Each step below is one atomic action of `flush_queue`; any
    number of snapshots may be in flight, one flusher to a snapshot, and a
    flusher that failed may try again. Modelled on src/daemon/registry.rs. */
module FlushProtocol {
  import opened Prelude
  import opened RegistrySpec

  /** Where the flusher of a snapshot stands. `Flushed`: it reported success. */
  datatype Point = Idle | Entered | Written | Claimed | Flushed

  datatype File = Whole(wire: Wire) | Torn

  /** `snapshots[e - 1]` is what epoch `e` captured and `at[e - 1]` where its
      flusher stands; `tmp` holds the per-epoch temporary files. `fileEpoch`
      records, for the proof, which epoch queue.json came from (0: found at start). */
  datatype Sys = Sys(
    current: Wire,
    snapshots: seq<Wire>,
    at: seq<Point>,
    tmp: map<nat, File>,
    tracker: nat,
    file: File,
    fileEpoch: nat)

  datatype Step =
    | Mutate(wire: Wire)
    | Stage
    | Enter(e: nat)
    | Write(e: nat, ok: bool)
    | Claim(e: nat)
    | Rename(e: nat, ok: bool)

  predicate Known(s: Sys, e: int) {
    1 <= e <= |s.snapshots| == |s.at|
  }

  predicate StandsAt(s: Sys, e: int, p: Point) {
    Known(s, e) && s.at[e - 1] == p
  }

  function MoveTo(s: Sys, e: int, p: Point): Sys
    requires Known(s, e)
  {
    s.(at := s.at[e - 1 := p])
  }

  predicate CanTake(s: Sys, a: Step) {
    match a
    case Mutate(_) => true
    case Stage => true
    case Enter(e) => StandsAt(s, e, Idle)
    case Write(e, _) => StandsAt(s, e, Entered)
    case Claim(e) => StandsAt(s, e, Written)
    case Rename(e, _) => StandsAt(s, e, Claimed) && e in s.tmp
  }

  function Take(s: Sys, a: Step): Sys
    requires CanTake(s, a)
  {
    match a
    case Mutate(wire) => s.(current := wire)
    case Stage => s.(snapshots := s.snapshots + [s.current], at := s.at + [Idle])
    case Enter(e) => MoveTo(s, e, if e <= s.tracker then Flushed else Entered)
    case Write(e, ok) =>
      if ok then MoveTo(s, e, Written).(tmp := s.tmp[e := Whole(s.snapshots[e - 1])])
      else MoveTo(s, e, Idle).(tmp := s.tmp[e := Torn])
    case Claim(e) =>
      if e <= s.tracker then MoveTo(s, e, Flushed).(tmp := s.tmp - {e})
      else MoveTo(s, e, Claimed).(tracker := e)
    case Rename(e, ok) =>
      if ok then MoveTo(s, e, Flushed).(file := s.tmp[e], fileEpoch := e, tmp := s.tmp - {e})
      else MoveTo(s, e, Idle).(tmp := s.tmp - {e})
  }

  /** A registry just started: nothing staged, some file found on disk. */
  predicate Initial(s: Sys) {
    s.snapshots == [] && s.at == [] && s.tmp == map[] && s.tracker == 0 && s.fileEpoch == 0
  }

  ghost predicate Follows(states: seq<Sys>, steps: seq<Step>) {
    && |states| == |steps| + 1
    && (forall i :: 0 <= i < |steps| ==> CanTake(states[i], steps[i]) && states[i + 1] == Take(states[i], steps[i]))
  }

  ghost predicate Execution(states: seq<Sys>, steps: seq<Step>) {
    Follows(states, steps) && Initial(states[0])
  }

  lemma Join(states: seq<Sys>, steps: seq<Step>, states': seq<Sys>, steps': seq<Step>)
    requires Follows(states, steps) && Follows(states', steps') && states[|steps|] == states'[0]
    ensures Follows(states[..|steps|] + states', steps + steps')
  {
  }

  // ── Every interleaving ─────────────────────────────────────────────

  /** What the place of one flusher promises about its temporary file and the tracker. */
  predicate EpochSound(s: Sys, e: int) {
    && (StandsAt(s, e, Written) || StandsAt(s, e, Claimed) ==> e in s.tmp && s.tmp[e] == Whole(s.snapshots[e - 1]))
    && (StandsAt(s, e, Claimed) || StandsAt(s, e, Flushed) ==> e <= s.tracker)
  }

  ghost predicate Sound(s: Sys, found: File) {
    && |s.at| == |s.snapshots|
    && s.fileEpoch <= s.tracker <= |s.snapshots|
    && s.file == (if s.fileEpoch == 0 then found else Whole(s.snapshots[s.fileEpoch - 1]))
    && (s.fileEpoch > 0 ==> StandsAt(s, s.fileEpoch, Flushed))
    && (forall e :: EpochSound(s, e))
  }

  lemma TakeKeepsEpochSound(s: Sys, a: Step, e: int)
    requires |s.at| == |s.snapshots| && EpochSound(s, e) && CanTake(s, a)
    ensures EpochSound(Take(s, a), e)
  {
  }

  lemma TakeKeepsSound(s: Sys, a: Step, found: File)
    requires Sound(s, found) && CanTake(s, a)
    ensures Sound(Take(s, a), found)
  {
    forall e ensures EpochSound(Take(s, a), e) {
      TakeKeepsEpochSound(s, a, e);
    }
    if a.Claim? || a.Rename? || a.Write? || a.Enter? {
      assert EpochSound(s, a.e);
    }
  }

  lemma {:induction false} ExecutionSound(states: seq<Sys>, steps: seq<Step>, i: nat)
    requires Execution(states, steps) && i < |states|
    ensures Sound(states[i], states[0].file)
  {
    if i > 0 {
      ExecutionSound(states, steps, i - 1);
      TakeKeepsSound(states[i - 1], steps[i - 1], states[0].file);
    }
  }

  /** In every interleaving queue.json is the file found at start or one whole
      staged snapshot, of an epoch the tracker has reached. */
  lemma FileIsAWholeSnapshot(states: seq<Sys>, steps: seq<Step>, i: nat)
    requires Execution(states, steps) && i < |states|
    ensures var s := states[i];
      && s.fileEpoch <= s.tracker <= |s.snapshots|
      && s.file == if s.fileEpoch == 0 then states[0].file else Whole(s.snapshots[s.fileEpoch - 1])
  {
    ExecutionSound(states, steps, i);
  }

  /** The flusher of `e` won its claim at step `i`. */
  ghost predicate Claims(states: seq<Sys>, steps: seq<Step>, i: nat, e: nat)
    requires Execution(states, steps)
  {
    i < |steps| && steps[i] == Claim(e) && e > states[i].tracker
  }

  /** Step `i` put the snapshot of `e` in place. */
  ghost predicate Renames(states: seq<Sys>, steps: seq<Step>, i: nat, e: nat)
    requires Execution(states, steps)
  {
    i < |steps| && steps[i] == Rename(e, true)
  }

  lemma {:induction false} TrackerGrows(states: seq<Sys>, steps: seq<Step>, i: nat, j: nat)
    requires Execution(states, steps) && i <= j < |states|
    ensures states[i].tracker <= states[j].tracker
    decreases j - i
  {
    if i < j {
      TrackerGrows(states, steps, i + 1, j);
    }
  }

  /** Claims are won in strictly increasing epoch order. */
  lemma ClaimsIncrease(states: seq<Sys>, steps: seq<Step>, i: nat, e: nat, j: nat, d: nat)
    requires Execution(states, steps)
    requires Claims(states, steps, i, e) && Claims(states, steps, j, d)
    ensures i < j ==> e < d
    ensures e < d ==> i < j
    ensures e == d ==> i == j
  {
    if i < j {
      TrackerGrows(states, steps, i + 1, j);
    } else if j < i {
      TrackerGrows(states, steps, j + 1, i);
    }
  }

  lemma ClaimedStepBack(s: Sys, a: Step, e: nat)
    requires |s.at| == |s.snapshots| && CanTake(s, a) && StandsAt(Take(s, a), e, Claimed)
    ensures StandsAt(s, e, Claimed) || (a == Claim(e) && e > s.tracker)
  {
  }

  /** Whoever stands between claim and rename won a claim before. */
  lemma {:induction false} ClaimedWonBefore(states: seq<Sys>, steps: seq<Step>, i: nat, e: nat) returns (c: nat)
    requires Execution(states, steps) && i < |states| && StandsAt(states[i], e, Claimed)
    ensures c < i && Claims(states, steps, c, e)
    ensures forall m :: c < m <= i ==> StandsAt(states[m], e, Claimed)
  {
    ExecutionSound(states, steps, i - 1);
    ClaimedStepBack(states[i - 1], steps[i - 1], e);
    if steps[i - 1] == Claim(e) && e > states[i - 1].tracker {
      c := i - 1;
    } else {
      c := ClaimedWonBefore(states, steps, i - 1, e);
    }
  }

  /** Each epoch reaches queue.json at most once, retries included. */
  lemma RenamedAtMostOnce(states: seq<Sys>, steps: seq<Step>, i: nat, j: nat, e: nat)
    requires Execution(states, steps)
    requires Renames(states, steps, i, e) && Renames(states, steps, j, e)
    ensures i == j
  {
    assert !StandsAt(states[i + 1], e, Claimed) && !StandsAt(states[j + 1], e, Claimed);
    var ci := ClaimedWonBefore(states, steps, i, e);
    var cj := ClaimedWonBefore(states, steps, j, e);
    ClaimsIncrease(states, steps, ci, e, cj, e);
  }

  // ── When the file goes back ────────────────────────────────────────

  /** Step `k` replaces the file by that of an older epoch. */
  ghost predicate RollsBack(states: seq<Sys>, steps: seq<Step>, k: nat)
    requires Execution(states, steps)
  {
    k < |steps| && states[k + 1].fileEpoch < states[k].fileEpoch
  }

  /** The window of `d`, from claim to rename, lies inside the window of `e`. */
  ghost predicate Nested(states: seq<Sys>, steps: seq<Step>, e: nat, d: nat, claimE: nat, claimD: nat, renameD: nat, renameE: nat)
    requires Execution(states, steps)
  {
    && claimE < claimD < renameD < renameE
    && Claims(states, steps, claimE, e) && Claims(states, steps, claimD, d)
    && Renames(states, steps, renameD, d) && Renames(states, steps, renameE, e)
  }

  lemma {:induction false} FileCameFromRename(states: seq<Sys>, steps: seq<Step>, i: nat) returns (r: nat)
    requires Execution(states, steps) && i < |states| && states[i].fileEpoch > 0
    ensures r < i && Renames(states, steps, r, states[i].fileEpoch)
  {
    if steps[i - 1] == Rename(states[i].fileEpoch, true) {
      r := i - 1;
    } else {
      r := FileCameFromRename(states, steps, i - 1);
    }
  }

  lemma {:induction false} DropHasAStep(states: seq<Sys>, steps: seq<Step>, i: nat, j: nat) returns (k: nat)
    requires Execution(states, steps) && i <= j < |states|
    requires states[j].fileEpoch < states[i].fileEpoch
    ensures i <= k < j && RollsBack(states, steps, k)
    decreases j - i
  {
    if states[i + 1].fileEpoch < states[i].fileEpoch {
      k := i;
    } else {
      k := DropHasAStep(states, steps, i + 1, j);
    }
  }

  lemma RollbackNeedsNesting(states: seq<Sys>, steps: seq<Step>, k: nat) returns (e: nat, d: nat, claimE: nat, claimD: nat, renameD: nat)
    requires Execution(states, steps) && RollsBack(states, steps, k)
    ensures Nested(states, steps, e, d, claimE, claimD, renameD, k)
    ensures e == states[k + 1].fileEpoch && d == states[k].fileEpoch
  {
    e, d := states[k + 1].fileEpoch, states[k].fileEpoch;
    assert Renames(states, steps, k, e);
    renameD := FileCameFromRename(states, steps, k);
    claimE := ClaimedWonBefore(states, steps, k, e);
    claimD := ClaimedWonBefore(states, steps, renameD, d);
    ClaimsIncrease(states, steps, claimE, e, claimD, d);
  }

  /** The file goes back in an execution exactly when one flusher claims and
      renames entirely between the claim and the rename of another. */
  lemma RollsBackExactlyWhenNested(states: seq<Sys>, steps: seq<Step>)
    requires Execution(states, steps)
    ensures (exists k: nat :: RollsBack(states, steps, k)) <==>
      (exists e: nat, d: nat, claimE: nat, claimD: nat, renameD: nat, renameE: nat :: Nested(states, steps, e, d, claimE, claimD, renameD, renameE))
  {
    if k: nat :| RollsBack(states, steps, k) {
      var e, d, claimE, claimD, renameD := RollbackNeedsNesting(states, steps, k);
    }
    if e: nat, d: nat, claimE: nat, claimD: nat, renameD: nat, renameE: nat :| Nested(states, steps, e, d, claimE, claimD, renameD, renameE) {
      ClaimsIncrease(states, steps, claimE, e, claimD, d);
      assert states[renameD + 1].fileEpoch == d && states[renameE + 1].fileEpoch == e;
      var k := DropHasAStep(states, steps, renameD + 1, renameE + 1);
    }
  }

  // ── Claim and rename taken together ────────────────────────────────

  /** No claim is won while another flusher is between claim and rename. In
      particular this holds when each rename directly follows its claim. */
  ghost predicate WindowsApart(states: seq<Sys>, steps: seq<Step>)
    requires Execution(states, steps)
  {
    forall i: nat, e: nat, d: nat :: Claims(states, steps, i, e) ==> !StandsAt(states[i], d, Claimed)
  }

  /** Then the file never goes back, I/O errors or not. */
  lemma FileNeverGoesBack(states: seq<Sys>, steps: seq<Step>, i: nat, j: nat)
    requires Execution(states, steps) && WindowsApart(states, steps)
    requires i <= j < |states|
    ensures states[i].fileEpoch <= states[j].fileEpoch
  {
    if states[j].fileEpoch < states[i].fileEpoch {
      var k := DropHasAStep(states, steps, i, j);
      var e, d, claimE, claimD, renameD := RollbackNeedsNesting(states, steps, k);
      assert !StandsAt(states[claimD], e, Claimed);
      var c := ClaimedWonBefore(states, steps, k, e);
      ClaimsIncrease(states, steps, c, e, claimE, e);
      assert false;
    }
  }

  /** The rename of epoch `d` failed at some step from `from` on and before `to`. */
  ghost predicate RenameFailed(steps: seq<Step>, d: nat, from: nat, to: nat) {
    exists k: nat :: from <= k < to && k < |steps| && steps[k] == Rename(d, false)
  }

  /** Epoch `d` was claimed at step `c`, and until `to` its rename did not fail. */
  ghost predicate HoldsClaim(states: seq<Sys>, steps: seq<Step>, c: nat, d: nat, to: nat)
    requires Execution(states, steps)
  {
    c < to && Claims(states, steps, c, d) && !RenameFailed(steps, d, c, to)
  }

  /** A tracker above zero was brought there by a claim. */
  lemma {:induction false} TrackerWasClaimed(states: seq<Sys>, steps: seq<Step>, i: nat) returns (c: nat)
    requires Execution(states, steps) && i < |states| && states[i].tracker > 0
    ensures c < i && Claims(states, steps, c, states[i].tracker)
  {
    if states[i - 1].tracker != states[i].tracker {
      c := i - 1;
    } else {
      c := TrackerWasClaimed(states, steps, i - 1);
    }
  }

  lemma ClaimedUntilRename(s: Sys, a: Step, d: nat)
    requires |s.at| == |s.snapshots| && CanTake(s, a) && StandsAt(s, d, Claimed)
    ensures StandsAt(Take(s, a), d, Claimed) || (a.Rename? && a.e == d)
  {
  }

  /** A won claim still stands, or its rename was tried. */
  lemma {:induction false} ClaimStandsOrRenamed(states: seq<Sys>, steps: seq<Step>, c: nat, d: nat, i: nat) returns (r: nat)
    requires Execution(states, steps) && Claims(states, steps, c, d) && c < i < |states|
    ensures StandsAt(states[i], d, Claimed) || (c < r < i && steps[r].Rename? && steps[r].e == d)
  {
    r := c;
    if i > c + 1 {
      r := ClaimStandsOrRenamed(states, steps, c, d, i - 1);
      if !(c < r < i - 1 && steps[r].Rename? && steps[r].e == d) {
        ExecutionSound(states, steps, i - 1);
        ClaimedUntilRename(states[i - 1], steps[i - 1], d);
        r := i - 1;
      }
    } else {
      ExecutionSound(states, steps, c);
    }
  }

  /** A claim is followed by one attempt to rename at most. */
  lemma OneAttemptPerClaim(states: seq<Sys>, steps: seq<Step>, j: nat, k: nat, d: nat)
    requires Execution(states, steps) && j < |steps| && k < |steps|
    requires steps[j].Rename? && steps[j].e == d && steps[k].Rename? && steps[k].e == d
    ensures j == k
  {
    assert !StandsAt(states[j + 1], d, Claimed) && !StandsAt(states[k + 1], d, Claimed);
    var cj := ClaimedWonBefore(states, steps, j, d);
    var ck := ClaimedWonBefore(states, steps, k, d);
    ClaimsIncrease(states, steps, cj, d, ck, d);
  }

  /** The state of epoch `e` is on disk, or a newer one is, or a newer one has been
      claimed and is about to be renamed. */
  ghost predicate DurableOrSuperseded(s: Sys, e: nat) {
    e <= s.fileEpoch || exists d: nat :: d > e && StandsAt(s, d, Claimed)
  }

  lemma HeldClaimReachesDisk(states: seq<Sys>, steps: seq<Step>, i: nat, e: nat, c: nat, d: nat)
    requires Execution(states, steps) && WindowsApart(states, steps)
    requires i < |states| && StandsAt(states[i], e, Flushed)
    requires d >= e && HoldsClaim(states, steps, c, d, i)
    ensures DurableOrSuperseded(states[i], e)
  {
    var r := ClaimStandsOrRenamed(states, steps, c, d, i);
    if !StandsAt(states[i], d, Claimed) {
      assert steps[r] != Rename(d, false);
      assert states[r + 1].fileEpoch == d;
      FileNeverGoesBack(states, steps, r + 1, i);
    }
  }

  lemma DurableHoldsClaim(states: seq<Sys>, steps: seq<Step>, i: nat, e: nat) returns (c: nat, d: nat)
    requires Execution(states, steps) && i < |states| && StandsAt(states[i], e, Flushed)
    requires DurableOrSuperseded(states[i], e)
    ensures d >= e && HoldsClaim(states, steps, c, d, i)
  {
    if e <= states[i].fileEpoch {
      d := states[i].fileEpoch;
      var r := FileCameFromRename(states, steps, i);
      c := ClaimedWonBefore(states, steps, r, d);
      forall k: nat | c <= k < i && k < |steps| ensures steps[k] != Rename(d, false) {
        if steps[k] == Rename(d, false) {
          OneAttemptPerClaim(states, steps, r, k, d);
        }
      }
    } else {
      d :| d > e && StandsAt(states[i], d, Claimed);
      c := ClaimedWonBefore(states, steps, i, d);
      forall k: nat | c <= k < i && k < |steps| ensures steps[k] != Rename(d, false) {
        assert StandsAt(states[k + 1], d, Claimed);
      }
    }
  }

  /** A flusher that reported success has its own state on disk, or a newer one, or
      a newer one about to be, if and only if some epoch from its own on was
      claimed and did not then fail to be renamed. */
  lemma SuccessMeansDurableOrSuperseded(states: seq<Sys>, steps: seq<Step>, i: nat, e: nat)
    requires Execution(states, steps) && WindowsApart(states, steps)
    requires i < |states| && StandsAt(states[i], e, Flushed)
    ensures DurableOrSuperseded(states[i], e) <==> exists c: nat, d: nat :: d >= e && HoldsClaim(states, steps, c, d, i)
  {
    if DurableOrSuperseded(states[i], e) {
      var c, d := DurableHoldsClaim(states, steps, i, e);
    }
    if c: nat, d: nat :| d >= e && HoldsClaim(states, steps, c, d, i) {
      HeldClaimReachesDisk(states, steps, i, e, c, d);
    }
  }

  ghost predicate AllFlushed(s: Sys) {
    s.snapshots != [] && forall e :: Known(s, e) ==> StandsAt(s, e, Flushed)
  }

  /** Once every staged snapshot has been flushed, the file is the snapshot of the
      highest epoch if and only if the rename of that one epoch never failed;
      failed writes and failed renames of other epochs do not matter. */
  lemma AllFlushedMeansLatestOnDisk(states: seq<Sys>, steps: seq<Step>, i: nat)
    requires Execution(states, steps) && WindowsApart(states, steps)
    requires i < |states| && AllFlushed(states[i])
    ensures var s := states[i]; var n := |s.snapshots|;
      && (s.fileEpoch == n <==> !RenameFailed(steps, n, 0, i))
      && (s.fileEpoch == n ==> s.file == Whole(s.snapshots[n - 1]))
  {
    ExecutionSound(states, steps, i);
    var n := |states[i].snapshots|;
    assert StandsAt(states[i], n, Flushed) && EpochSound(states[i], n);
    assert states[i].tracker == n;
    if !RenameFailed(steps, n, 0, i) {
      var c := TrackerWasClaimed(states, steps, i);
      assert HoldsClaim(states, steps, c, n, i);
      HeldClaimReachesDisk(states, steps, i, n, c, n);
      forall d: nat | d > n ensures !StandsAt(states[i], d, Claimed) {}
    } else if states[i].fileEpoch == n {
      var k: nat :| 0 <= k < i && k < |steps| && steps[k] == Rename(n, false);
      var r := FileCameFromRename(states, steps, i);
      OneAttemptPerClaim(states, steps, r, k, n);
      assert false;
    }
  }

  ghost predicate NoErrors(steps: seq<Step>) {
    forall i :: 0 <= i < |steps| ==> (steps[i].Write? || steps[i].Rename? ==> steps[i].ok)
  }

  // ── The hypotheses are needed ──────────────────────────────────────

  function TwoStaged(old1: Wire, new2: Wire, found: File): Sys {
    Sys(new2, [old1, new2], [Idle, Idle], map[], 0, found, 0)
  }

  function TwoWritten(old1: Wire, new2: Wire, found: File): Sys {
    Sys(new2, [old1, new2], [Written, Written], map[1 := Whole(old1), 2 := Whole(new2)], 0, found, 0)
  }

  lemma StageTwo(old1: Wire, new2: Wire, found: File) returns (states: seq<Sys>)
    ensures Execution(states, [Stage, Mutate(new2), Stage])
    ensures states[3] == TwoStaged(old1, new2, found)
  {
    var s0 := Sys(old1, [], [], map[], 0, found, 0);
    var s1 := Sys(old1, [old1], [Idle], map[], 0, found, 0);
    states := [s0, s1, s1.(current := new2), TwoStaged(old1, new2, found)];
  }

  function TwoEntered(old1: Wire, new2: Wire, found: File): Sys {
    Sys(new2, [old1, new2], [Entered, Entered], map[], 0, found, 0)
  }

  lemma EnterTwo(old1: Wire, new2: Wire, found: File) returns (states: seq<Sys>)
    ensures Follows(states, [Enter(1), Enter(2)])
    ensures states[0] == TwoStaged(old1, new2, found) && states[2] == TwoEntered(old1, new2, found)
  {
    var s0 := TwoStaged(old1, new2, found);
    states := [s0, s0.(at := [Entered, Idle]), TwoEntered(old1, new2, found)];
  }

  lemma WriteTwo(old1: Wire, new2: Wire, found: File) returns (states: seq<Sys>)
    ensures Follows(states, [Write(1, true), Write(2, true)])
    ensures states[0] == TwoEntered(old1, new2, found) && states[2] == TwoWritten(old1, new2, found)
  {
    var s0 := TwoEntered(old1, new2, found);
    states := [s0, s0.(at := [Written, Entered], tmp := map[1 := Whole(old1)]), TwoWritten(old1, new2, found)];
  }

  function TwoClaimed(old1: Wire, new2: Wire, found: File): Sys {
    Sys(new2, [old1, new2], [Claimed, Claimed], map[1 := Whole(old1), 2 := Whole(new2)], 2, found, 0)
  }

  lemma ClaimTwo(old1: Wire, new2: Wire, found: File) returns (states: seq<Sys>)
    ensures Follows(states, [Claim(1), Claim(2)])
    ensures states[0] == TwoWritten(old1, new2, found) && states[2] == TwoClaimed(old1, new2, found)
  {
    var s0 := TwoWritten(old1, new2, found);
    states := [s0, s0.(at := [Claimed, Written], tracker := 1), TwoClaimed(old1, new2, found)];
  }

  lemma RenameInReverse(old1: Wire, new2: Wire, found: File) returns (states: seq<Sys>)
    ensures Follows(states, [Rename(2, true), Rename(1, true)])
    ensures states[0] == TwoClaimed(old1, new2, found)
    ensures states[2] == Sys(new2, [old1, new2], [Flushed, Flushed], map[], 2, Whole(old1), 1)
  {
    var s0 := TwoClaimed(old1, new2, found);
    var s1 := s0.(at := [Claimed, Flushed], tmp := map[1 := Whole(old1)], file := Whole(new2), fileEpoch := 2);
    states := [s0, s1, s1.(at := [Flushed, Flushed], tmp := map[], file := Whole(old1), fileEpoch := 1)];
  }

  /** Two windows that overlap: both flushes report success, and queue.json is
      left with the older snapshot. */
  lemma OverlapRollsBack(old1: Wire, new2: Wire, found: File) returns (states: seq<Sys>, steps: seq<Step>)
    ensures Execution(states, steps) && NoErrors(steps)
    ensures states[|steps|] == Sys(new2, [old1, new2], [Flushed, Flushed], map[], 2, Whole(old1), 1)
  {
    var a := StageTwo(old1, new2, found);
    var b := EnterTwo(old1, new2, found);
    var w := WriteTwo(old1, new2, found);
    var c := ClaimTwo(old1, new2, found);
    var d := RenameInReverse(old1, new2, found);
    states, steps := a, [Stage, Mutate(new2), Stage];
    Join(states, steps, b, [Enter(1), Enter(2)]);
    states, steps := states[..|steps|] + b, steps + [Enter(1), Enter(2)];
    Join(states, steps, w, [Write(1, true), Write(2, true)]);
    states, steps := states[..|steps|] + w, steps + [Write(1, true), Write(2, true)];
    Join(states, steps, c, [Claim(1), Claim(2)]);
    states, steps := states[..|steps|] + c, steps + [Claim(1), Claim(2)];
    Join(states, steps, d, [Rename(2, true), Rename(1, true)]);
    states, steps := states[..|steps|] + d, steps + [Rename(2, true), Rename(1, true)];
  }

  /** After a rename fails, the tracker already covers the epoch: from then on
      its flusher can only report success, and never writes the file. */
  lemma {:induction false} FailedRenameIsNeverRepaired(states: seq<Sys>, steps: seq<Step>, k: nat, e: nat, i: nat)
    requires Execution(states, steps)
    requires k < |steps| && steps[k] == Rename(e, false) && k < i < |states|
    ensures StandsAt(states[i], e, Idle) || StandsAt(states[i], e, Flushed)
    ensures e <= states[i].tracker
    ensures i < |steps| ==> !Renames(states, steps, i, e)
  {
    if i == k + 1 {
      ExecutionSound(states, steps, k);
      assert EpochSound(states[k], e);
    } else {
      FailedRenameIsNeverRepaired(states, steps, k, e, i - 1);
      TrackerGrows(states, steps, i - 1, i);
    }
  }

  lemma WriteOne(w: Wire, found: File) returns (states: seq<Sys>)
    ensures Execution(states, [Stage, Enter(1), Write(1, true)])
    ensures states[3] == Sys(w, [w], [Written], map[1 := Whole(w)], 0, found, 0)
  {
    var s0 := Sys(w, [], [], map[], 0, found, 0);
    var s1 := Sys(w, [w], [Idle], map[], 0, found, 0);
    states := [s0, s1, s1.(at := [Entered]), Sys(w, [w], [Written], map[1 := Whole(w)], 0, found, 0)];
  }

  lemma FailAndRetry(w: Wire, found: File) returns (states: seq<Sys>)
    ensures Follows(states, [Claim(1), Rename(1, false), Enter(1)])
    ensures states[0] == Sys(w, [w], [Written], map[1 := Whole(w)], 0, found, 0)
    ensures states[3] == Sys(w, [w], [Flushed], map[], 1, found, 0)
  {
    var s0 := Sys(w, [w], [Written], map[1 := Whole(w)], 0, found, 0);
    var s1 := s0.(at := [Claimed], tracker := 1);
    states := [s0, s1, s1.(at := [Idle], tmp := map[]), Sys(w, [w], [Flushed], map[], 1, found, 0)];
  }

  /** So a flush retried after a failed rename reports success although its
      snapshot, the only one, never reached the disk. */
  lemma RetryAfterFailedRenameLies(w: Wire, found: File) returns (states: seq<Sys>, steps: seq<Step>)
    ensures Execution(states, steps)
    ensures states[|steps|] == Sys(w, [w], [Flushed], map[], 1, found, 0)
  {
    var a := WriteOne(w, found);
    var b := FailAndRetry(w, found);
    Join(a, [Stage, Enter(1), Write(1, true)], b, [Claim(1), Rename(1, false), Enter(1)]);
    states, steps := a[..3] + b, [Stage, Enter(1), Write(1, true)] + [Claim(1), Rename(1, false), Enter(1)];
  }
}

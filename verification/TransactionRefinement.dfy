/**
 * What confirming and rolling back do to the profiles, over whole runs: a device falls back to the
 * settings of the last confirmed request, and a live checkpoint offers those of the request that
 * made it, exactly when each profile write lands on its own request's checkpoint or changes nothing.
 */
module TransactionRefinement {
  import opened Wrappers
  import opened ConnectionSettingsAdapter
  import opened NetworkManager
  import opened NetworkTransactions

  // ------------------------------------------------------------------ what a confirmation stands for

  /** The request has written its settings to the profile. */
  predicate Wrote(stage: Stage)
  {
    stage.Saved? || stage.Scheduled? || stage.Finished? || (stage.FailedAfter? && stage.saved)
  }

  /** The device's live checkpoint is the one this request made. */
  predicate Owns(s: State, r: nat, d: string)
  {
    Past(s, r) && s.requests[r].device == d && d in s.nm.devices && s.nm.devices[d].Holds(CheckpointPath(s.requests[r].stage.id))
  }

  predicate Proposes(s: State, r: nat, d: string)
  {
    Owns(s, r, d) && Wrote(s.requests[r].stage)
  }

  /**
   * What confirming the device's live checkpoint stands for: the settings of the request that made
   * it, or no change as long as that request has not written.
   */
  ghost function Proposal(s: State, d: string): Connection
    requires d in s.nm.devices
  {
    if r: nat :| Proposes(s, r, d) then s.requests[r].stage.settings else s.nm.devices[d].Fallback()
  }

  /** The commit that ends the device's live checkpoint. */
  predicate Confirms(s: State, l: Label, d: string)
  {
    l.Commit? && d in s.nm.devices && s.nm.devices[d].Holds(CheckpointPath(l.id))
  }

  /** What a device falls back to if nobody confirms. */
  function FallbackAt(s: State, d: string): Option<Connection>
  {
    if d in s.nm.devices then Some(s.nm.devices[d].Fallback()) else None
  }

  /** The settings of the last confirmed request, or the profile the run started with. */
  ghost function LastCommitted(s: State, ls: seq<Label>, d: string): Option<Connection>
  {
    if ls == [] then FallbackAt(s, d)
    else
      var before := Exec(s, ls[..|ls| - 1]);
      if Confirms(before, ls[|ls| - 1], d) then Some(Proposal(before, d))
      else LastCommitted(s, ls[..|ls| - 1], d)
  }

  /** Every device falls back to what was last committed. */
  ghost predicate Settled(s: State, ls: seq<Label>)
  {
    forall d :: FallbackAt(Exec(s, ls), d) == LastCommitted(s, ls, d)
  }

  predicate EndsCheckpoint(l: Label)
  {
    l.Commit? || l.Timeout?
  }

  /** Whichever checkpoint is now confirmed or times out, every device is left with what was last committed. */
  ghost predicate EndsWell(s: State, ls: seq<Label>)
  {
    forall l :: EndsCheckpoint(l) ==> Settled(s, ls + [l])
  }

  /** At every point of the run. */
  ghost predicate Transactional(s: State, ls: seq<Label>)
  {
    forall n :: 0 <= n <= |ls| ==> Settled(s, ls[..n]) && EndsWell(s, ls[..n])
  }

  /** The step is this request's profile write. */
  predicate Writes(s: State, l: Label)
  {
    l.Advance? && l.r in s.requests && s.requests[l.r].stage.Guarded? && s.requests[l.r].device in s.nm.devices
  }

  /** A profile write lands while its own request's checkpoint is live, or writes what is there. */
  predicate LandsSafely(s: State, l: Label)
  {
    Writes(s, l) ==>
      var q := s.requests[l.r];
      Owns(s, l.r, q.device) || s.nm.devices[q.device].profile == q.stage.settings
  }

  ghost predicate AllLandSafely(s: State, ls: seq<Label>)
  {
    forall n :: 0 <= n < |ls| ==> LandsSafely(Exec(s, ls[..n]), ls[n])
  }

  // ------------------------------------------------------------------ proposals

  lemma OwnerIsUnique(s: State, q: nat, r: nat, d: string)
    requires Inv(s) && Owns(s, q, d) && Owns(s, r, d)
    ensures q == r
  {
    assert OneOwner(s, q, r);
    var n := s.nm.devices[d].checkpoint.value.number;
    CheckpointPathsAreDistinct(n, s.requests[q].stage.id);
    CheckpointPathsAreDistinct(n, s.requests[r].stage.id);
  }

  lemma ProposalOf(s: State, r: nat, d: string)
    requires Inv(s) && Proposes(s, r, d)
    ensures Proposal(s, d) == s.requests[r].stage.settings
  {
    forall q: nat | Proposes(s, q, d) ensures q == r { OwnerIsUnique(s, q, r, d); }
  }

  lemma NoProposer(s: State, d: string)
    requires d in s.nm.devices && forall r: nat :: !Proposes(s, r, d)
    ensures Proposal(s, d) == s.nm.devices[d].Fallback()
  {
  }

  /** Every live checkpoint is offered as its request wrote it. */
  ghost predicate OnOffer(s: State)
  {
    forall d :: d in s.nm.devices && s.nm.devices[d].checkpoint.Some? ==> s.nm.devices[d].profile == Proposal(s, d)
  }

  /** A request past its checkpoint keeps what it carries; a new one has not written. */
  ghost predicate Keeps(s: State, t: State, r: nat)
  {
    && (Past(s, r) ==>
          && Past(t, r)
          && t.requests[r] == s.requests[r].(stage := t.requests[r].stage)
          && t.requests[r].stage.id == s.requests[r].stage.id
          && t.requests[r].stage.settings == s.requests[r].stage.settings
          && (Wrote(s.requests[r].stage) ==> Wrote(t.requests[r].stage)))
    && (Past(t, r) && !Past(s, r) ==> !Wrote(t.requests[r].stage))
  }

  lemma StepKeeps(s: State, l: Label, r: nat)
    ensures Keeps(s, Next(s, l), r)
    ensures Past(s, r) && !(Writes(s, l) && l.r == r) ==> Wrote(Next(s, l).requests[r].stage) == Wrote(s.requests[r].stage)
  {
    if l.Advance? && l.r in s.requests {
      AdvanceKeeps(s, l.r, r);
      hide Keeps, AdvanceRequest;
    } else {
      hide AdvanceRequest, Manager.CheckpointDestroy, Manager.Rollback, Manager.Activate, CheckpointPath, Decimal;
    }
  }

  lemma AdvanceKeeps(s: State, moving: nat, r: nat)
    requires moving in s.requests
    ensures Keeps(s, AdvanceRequest(s, moving), r)
    ensures Past(s, r) && !(Writes(s, Advance(moving)) && moving == r) ==>
              Wrote(AdvanceRequest(s, moving).requests[r].stage) == Wrote(s.requests[r].stage)
  {
    hide EditedConnection, Manager.CheckpointCreate, Manager.Update, Manager.Reapply, CheckpointId, CheckpointPath, Decimal;
  }

  // ------------------------------------------------------------------ what a step does to one device

  predicate CreatesCheckpoint(s: State, l: Label, d: string)
  {
    l.Advance? && l.r in s.requests && s.requests[l.r].stage.Prepared? && s.requests[l.r].device == d
    && d in s.nm.devices && s.nm.devices[d].checkpoint.None?
  }

  /** The re-apply of a request goes through in this step. */
  predicate TakesEffect(s: State, l: Label)
  {
    && l.Advance? && l.r in s.requests && s.requests[l.r].stage.Scheduled? && s.requests[l.r].device in s.nm.devices
    && var q := s.requests[l.r];
    s.nm.Reapply(q.device, q.stage.settings, q.stage.version).Some?
  }

  function DeviceAfter(s: State, l: Label, d: string): Device
    requires d in s.nm.devices
  {
    var dev := s.nm.devices[d];
    if Writes(s, l) && s.requests[l.r].device == d then dev.(profile := s.requests[l.r].stage.settings)
    else if CreatesCheckpoint(s, l, d) then dev.(checkpoint := Some(Checkpoint(s.nm.created, dev.profile, dev.applied)))
    else if Confirms(s, l, d) then dev.(checkpoint := None)
    else if l == Timeout(d) && dev.checkpoint.Some?
    then Device(dev.isActive, dev.checkpoint.value.profile, dev.checkpoint.value.applied, dev.version + 1, None)
    else if l.Activate? && l.device == d then dev.(applied := l.settings, version := dev.version + 1)
    else if TakesEffect(s, l) && s.requests[l.r].device == d then dev.(applied := s.requests[l.r].stage.settings, version := dev.version + 1)
    else dev
  }

  /** Each step changes a device in one of these ways, or not at all. */
  lemma StepDevices(s: State, l: Label, d: string)
    requires d in s.nm.devices
    ensures DeviceAt(Next(s, l), d) == Some(DeviceAfter(s, l, d))
  {
    if l.Advance? && l.r in s.requests {
      AdvanceDevices(s, l.r, d);
      hide DeviceAfter, AdvanceRequest;
    } else {
      hide AdvanceRequest, CheckpointPath, Decimal;
    }
  }

  lemma AdvanceDevices(s: State, r: nat, d: string)
    requires r in s.requests && d in s.nm.devices
    ensures DeviceAt(AdvanceRequest(s, r), d) == Some(DeviceAfter(s, Advance(r), d))
  {
    hide EditedConnection, CheckpointId, CheckpointPath, Decimal;
  }

  /** A step that neither writes the profile nor touches the checkpoint leaves the proposal. */
  lemma ProposalStays(s: State, l: Label, d: string)
    requires Inv(s) && d in s.nm.devices && d in Next(s, l).nm.devices
    requires Next(s, l).nm.devices[d].checkpoint == s.nm.devices[d].checkpoint && s.nm.devices[d].checkpoint.Some?
    requires !Writes(s, l) || s.requests[l.r].device != d || !Owns(s, l.r, d)
    ensures Proposal(Next(s, l), d) == Proposal(s, d)
  {
    hide Next;
    var t := Next(s, l);
    StepKeepsInv(s, l);
    forall r: nat ensures Proposes(t, r, d) <==> Proposes(s, r, d) { StepKeeps(s, l, r); }
    if r: nat :| Proposes(s, r, d) {
      StepKeeps(s, l, r);
      ProposalOf(s, r, d);
      ProposalOf(t, r, d);
    }
  }

  /** A checkpoint made in this step has no proposal yet. */
  lemma NewCheckpointHasNoProposer(s: State, l: Label, d: string)
    requires Inv(s) && d in s.nm.devices && d in Next(s, l).nm.devices
    requires s.nm.devices[d].checkpoint.None? && Next(s, l).nm.devices[d].checkpoint.Some?
    requires Next(s, l).nm.devices[d].checkpoint.value.number == s.nm.created
    ensures forall r: nat :: !Proposes(Next(s, l), r, d)
  {
    hide Next;
    var t := Next(s, l);
    forall r: nat ensures !Proposes(t, r, d) {
      StepKeeps(s, l, r);
      if Proposes(t, r, d) {
        assert RequestOwnsId(s, r);
        var n: nat :| OwnsNumber(s.nm, s.requests[r].device, n) && s.requests[r].stage.id == Decimal(n);
        CheckpointPathsAreDistinct(s.nm.created, Decimal(n));
        DecimalIsInjective(s.nm.created, n);
      }
    }
  }

  // ------------------------------------------------------------------ one step

  lemma DevicesStay(s: State, l: Label)
    requires Inv(s)
    ensures Next(s, l).nm.devices.Keys == s.nm.devices.Keys
  {
    hide Next;
    StepMoves(s, l);
  }

  ghost predicate FallbackMoves(s: State, l: Label, d: string)
  {
    FallbackAt(Next(s, l), d) == if Confirms(s, l, d) then Some(Proposal(s, d)) else FallbackAt(s, d)
  }

  /** A write here comes under a live checkpoint, or changes nothing. */
  predicate WritesUnderCheckpoint(s: State, l: Label)
  {
    Writes(s, l) ==>
      var dev := s.nm.devices[s.requests[l.r].device];
      dev.checkpoint.Some? || dev.profile == s.requests[l.r].stage.settings
  }

  /** Then the step moves what a device falls back to by a confirmation only, and to its profile. */
  lemma FallbackSteps(s: State, l: Label, d: string)
    requires Inv(s) && WritesUnderCheckpoint(s, l)
    ensures Confirms(s, l, d) ==> s.nm.devices[d].checkpoint.Some?
    ensures FallbackAt(Next(s, l), d) == if Confirms(s, l, d) then Some(s.nm.devices[d].profile) else FallbackAt(s, d)
  {
    DevicesStay(s, l);
    hide Next, Inv, TakesEffect, CheckpointPath, Decimal;
    if d in s.nm.devices {
      StepDevices(s, l, d);
      FallbackAfter(s, l, d);
      hide DeviceAfter;
    }
  }

  lemma FallbackAfter(s: State, l: Label, d: string)
    requires d in s.nm.devices && WritesUnderCheckpoint(s, l)
    ensures DeviceAfter(s, l, d).Fallback() == if Confirms(s, l, d) then s.nm.devices[d].profile else s.nm.devices[d].Fallback()
  {
    hide TakesEffect, CheckpointPath, Decimal;
  }

  /** A step that lands safely moves a fallback by confirmation only, and then to the confirmed request's settings. */
  lemma SafeStep(s: State, l: Label, d: string)
    requires Inv(s) && OnOffer(s) && LandsSafely(s, l)
    ensures FallbackMoves(s, l, d)
  {
    assert WritesUnderCheckpoint(s, l);
    FallbackSteps(s, l, d);
    hide Next, Proposal, Inv, LandsSafely, Confirms;
  }

  /** A checkpoint live after a step is new, or the one that was there over a profile that only a write changes. */
  lemma LiveAfter(s: State, l: Label, d: string)
    requires d in s.nm.devices && d in Next(s, l).nm.devices && Next(s, l).nm.devices[d].checkpoint.Some?
    ensures var a, b := s.nm.devices[d], Next(s, l).nm.devices[d];
            if a.checkpoint.None? then b.checkpoint.value.number == s.nm.created && b.Fallback() == b.profile
            else b.checkpoint == a.checkpoint
                 && b.profile == if Writes(s, l) && s.requests[l.r].device == d then s.requests[l.r].stage.settings else a.profile
  {
    StepDevices(s, l, d);
    hide Next, TakesEffect, Confirms;
  }

  /** And it leaves every live checkpoint as its request wrote it. */
  lemma SafeStepKeepsOffer(s: State, l: Label, d: string)
    requires Inv(s) && OnOffer(s) && LandsSafely(s, l) && d in Next(s, l).nm.devices
    requires Next(s, l).nm.devices[d].checkpoint.Some?
    ensures Next(s, l).nm.devices[d].profile == Proposal(Next(s, l), d)
  {
    hide Next, Proposal, Inv, Owns;
    DevicesStay(s, l);
    LiveAfter(s, l, d);
    if s.nm.devices[d].checkpoint.None? {
      NewCheckpointHasNoProposer(s, l, d);
      NoProposer(Next(s, l), d);
    } else if Writes(s, l) && s.requests[l.r].device == d && Owns(s, l.r, d) {
      OwnWriteIsOnOffer(s, l, d);
    } else {
      ProposalStays(s, l, d);
    }
  }

  lemma OwnWriteIsOnOffer(s: State, l: Label, d: string)
    requires Inv(s) && Writes(s, l) && Owns(s, l.r, d)
    ensures d in Next(s, l).nm.devices && Proposal(Next(s, l), d) == s.requests[l.r].stage.settings
  {
    hide Next, Proposal;
    StepKeepsInv(s, l);
    WriteStep(s, l.r);
    ProposalOf(Next(s, l), l.r, d);
  }

  /** A step that does not land safely moves a fallback nobody confirmed, or spoils what a checkpoint offers. */
  lemma UnsafeStep(s: State, l: Label)
    requires Inv(s) && OnOffer(s) && !LandsSafely(s, l)
    ensures Writes(s, l)
    ensures !FallbackMoves(s, l, s.requests[l.r].device) || !OnOffer(Next(s, l))
  {
    hide Next, Proposal;
    var d := s.requests[l.r].device;
    WriteStep(s, l.r);
    if s.nm.devices[d].checkpoint.Some? { ProposalStays(s, l, d); }
  }

  lemma LastStep(s: State, init: seq<Label>, l: Label)
    requires Inv(Exec(s, init)) && Settled(s, init) && OnOffer(Exec(s, init))
    ensures Settled(s, init + [l]) && OnOffer(Exec(s, init + [l])) <==> LandsSafely(Exec(s, init), l)
  {
    hide Next, Confirms, LandsSafely, OnOffer, Proposal;
    var before, ls := Exec(s, init), init + [l];
    assert ls[..|ls| - 1] == init;
    assert forall d :: FallbackAt(Exec(s, ls), d) == LastCommitted(s, ls, d) <==> FallbackMoves(before, l, d);
    if LandsSafely(before, l) {
      forall d ensures FallbackMoves(before, l, d) { SafeStep(before, l, d); }
      OfferStays(before, l);
    } else {
      UnsafeStep(before, l);
      var d := before.requests[l.r].device;
      assert Settled(s, ls) ==> FallbackAt(Exec(s, ls), d) == LastCommitted(s, ls, d);
      assert Exec(s, ls) == Next(before, l);
    }
  }

  lemma OfferStays(s: State, l: Label)
    requires Inv(s) && OnOffer(s) && LandsSafely(s, l)
    ensures OnOffer(Next(s, l))
  {
    hide Next, Proposal;
    var t := Next(s, l);
    forall d | d in t.nm.devices && t.nm.devices[d].checkpoint.Some? ensures t.nm.devices[d].profile == Proposal(t, d) {
      SafeStepKeepsOffer(s, l, d);
    }
  }

  // ------------------------------------------------------------------ whole runs

  /** A checkpoint ends well either way exactly when it offers what its request wrote. */
  lemma EndsWellIff(s: State, ls: seq<Label>)
    requires Inv(Exec(s, ls)) && Settled(s, ls)
    ensures EndsWell(s, ls) <==> OnOffer(Exec(s, ls))
  {
    hide Next, Proposal, Settled;
    var now := Exec(s, ls);
    if OnOffer(now) {
      forall l | EndsCheckpoint(l) ensures Settled(s, ls + [l]) {
        LastStep(s, ls, l);
      }
    }
    if EndsWell(s, ls) {
      forall d | d in now.nm.devices && now.nm.devices[d].checkpoint.Some? ensures now.nm.devices[d].profile == Proposal(now, d) {
        ConfirmationShows(s, ls, d, Commit(Decimal(now.nm.devices[d].checkpoint.value.number)));
      }
    }
  }

  lemma ConfirmationShows(s: State, ls: seq<Label>, d: string, l: Label)
    requires Confirms(Exec(s, ls), l, d) && Settled(s, ls + [l])
    ensures Exec(s, ls).nm.devices[d].profile == Proposal(Exec(s, ls), d)
  {
    hide Next, Proposal;
    assert (ls + [l])[..|ls + [l]| - 1] == ls;
    StepDevices(Exec(s, ls), l, d);
    assert FallbackAt(Exec(s, ls + [l]), d) == LastCommitted(s, ls + [l], d);
  }

  ghost predicate KeptSoFar(s: State, ls: seq<Label>)
  {
    Settled(s, ls) && OnOffer(Exec(s, ls))
  }

  ghost predicate Kept(s: State, ls: seq<Label>)
  {
    forall n :: 0 <= n <= |ls| ==> KeptSoFar(s, ls[..n])
  }

  lemma {:induction false} KeptIff(s: State, ls: seq<Label>)
    requires Initial(s)
    ensures Kept(s, ls) <==> AllLandSafely(s, ls)
    decreases |ls|
  {
    hide Next, Confirms, LandsSafely, Settled, OnOffer;
    if ls == [] {
      StartIsKept(s);
      assert forall n :: n == 0 ==> ls[..n] == [];
    } else {
      var init, l := ls[..|ls| - 1], ls[|ls| - 1];
      assert ls == init + [l];
      KeptIff(s, init);
      PrefixesSplit(s, init, l);
      RunsKeepInv(s, init);
      if KeptSoFar(s, init) { LastStep(s, init, l); }
    }
  }

  lemma StartIsKept(s: State)
    requires Initial(s)
    ensures Settled(s, []) && OnOffer(s)
  {
  }

  lemma PrefixesSplit(s: State, init: seq<Label>, l: Label)
    ensures Kept(s, init + [l]) <==> Kept(s, init) && KeptSoFar(s, init + [l])
    ensures AllLandSafely(s, init + [l]) <==> AllLandSafely(s, init) && LandsSafely(Exec(s, init), l)
    ensures Kept(s, init) ==> KeptSoFar(s, init)
  {
    hide Exec, LandsSafely, KeptSoFar;
    var ls := init + [l];
    assert forall n :: 0 <= n <= |init| ==> init[..n] == ls[..n];
    assert ls[..|ls|] == ls && ls[..|init|] == init && init[..|init|] == init && ls[|init|] == l;
  }

  /**
   * Main result. In a run of interleaved updates, commits, timeouts and failures every device falls
   * back, at every point, to the settings of the last confirmed request, and would do so whichever
   * checkpoint is confirmed or times out next, if and only if each profile write lands while its own
   * request's checkpoint is live, or writes what is there.
   */
  lemma TransactionalIff(s: State, ls: seq<Label>)
    requires Initial(s)
    ensures Transactional(s, ls) <==> AllLandSafely(s, ls)
  {
    hide Exec, AllLandSafely, Settled, EndsWell, OnOffer;
    KeptIff(s, ls);
    forall n | 0 <= n <= |ls| && Settled(s, ls[..n]) ensures EndsWell(s, ls[..n]) <==> OnOffer(Exec(s, ls[..n])) {
      RunsKeepInv(s, ls[..n]);
      EndsWellIff(s, ls[..n]);
    }
  }

  predicate OwnCheckpointLive(s: State, l: Label)
  {
    Writes(s, l) ==> Owns(s, l.r, s.requests[l.r].device)
  }

  /** In particular every run is, in which each write lands while its own request's checkpoint is live. */
  lemma OwnCheckpointsSuffice(s: State, ls: seq<Label>)
    requires Initial(s)
    requires forall n :: 0 <= n < |ls| ==> OwnCheckpointLive(Exec(s, ls[..n]), ls[n])
    ensures Transactional(s, ls)
  {
    hide Exec, Transactional;
    forall n | 0 <= n < |ls| ensures LandsSafely(Exec(s, ls[..n]), ls[n]) {
      assert OwnCheckpointLive(Exec(s, ls[..n]), ls[n]);
    }
    TransactionalIff(s, ls);
  }

  /**
   * What a confirmation commits: after such a run, committing the id of a request that has written,
   * while its checkpoint is live, leaves exactly that request's settings in the profile, no
   * checkpoint on the device, and everything else in NetworkManager as it was.
   */
  lemma ConfirmingCommits(s: State, ls: seq<Label>, r: nat, d: string, t: State)
    requires Initial(s) && AllLandSafely(s, ls) && t == Exec(s, ls)
    requires Proposes(t, r, d)
    ensures t.nm.devices[d].profile == t.requests[r].stage.settings
    ensures Next(t, Commit(t.requests[r].stage.id)).nm ==
              t.nm.(devices := t.nm.devices[d := t.nm.devices[d].(checkpoint := None)])
    ensures LastCommitted(s, ls + [Commit(t.requests[r].stage.id)], d) == Some(t.requests[r].stage.settings)
  {
    hide Next, Exec;
    RunsKeepInv(s, ls);
    KeptIff(s, ls);
    assert ls[..|ls|] == ls && KeptSoFar(s, ls[..|ls|]);
    ProposalOf(t, r, d);
    CommitIsPrecise(s, ls, r, t);
    var l := Commit(t.requests[r].stage.id);
    assert (ls + [l])[..|ls + [l]| - 1] == ls;
  }
}

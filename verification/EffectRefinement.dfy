/**
 * What confirming and rolling back do to the connections in effect, over whole runs, told by which
 * request put them there: nothing that the re-apply of a rolled-back request put into effect is in
 * effect, or would come back, exactly when each re-apply that goes through is one of a request that
 * was not rolled back, or changes nothing. What a request may have carried along from the edit of
 * another one is the concern of SerialRefinement.
 */
module EffectRefinement {
  import opened Wrappers
  import opened ConnectionSettingsAdapter
  import opened NetworkManager
  import opened NetworkTransactions
  import opened TransactionRefinement

  // ------------------------------------------------------------------ where the connection in effect comes from

  datatype Origin = Initially | Elsewhere(settings: Connection) | By(r: nat)

  /** Of what is in effect, and of what a live checkpoint would bring back. */
  datatype Origins = Origins(now: Origin, saved: Option<Origin>)

  predicate ChangesNothing(s: State, r: nat)
    requires r in s.requests && s.requests[r].stage.Scheduled? && s.requests[r].device in s.nm.devices
  {
    s.requests[r].stage.settings == s.nm.devices[s.requests[r].device].applied
  }

  /** The last change that was not undone; a checkpoint remembers the one before it. */
  function NextOrigins(s: State, l: Label, d: string, o: Origins): Origins
  {
    if l.Activate? && l.device == d then o.(now := Elsewhere(l.settings))
    else if CreatesCheckpoint(s, l, d) then o.(saved := Some(o.now))
    else if Confirms(s, l, d) then o.(saved := None)
    else if l == Timeout(d) && o.saved.Some? then Origins(o.saved.value, None)
    else if TakesEffect(s, l) && s.requests[l.r].device == d && !ChangesNothing(s, l.r) then o.(now := By(l.r))
    else o
  }

  function OriginsAt(s: State, ls: seq<Label>, d: string): Origins
  {
    if ls == [] then Origins(Initially, None)
    else NextOrigins(Exec(s, ls[..|ls| - 1]), ls[|ls| - 1], d, OriginsAt(s, ls[..|ls| - 1], d))
  }

  // ------------------------------------------------------------------ the property and its condition

  /** The request's checkpoint timed out. */
  predicate WasRolledBack(s: State, r: nat)
  {
    Past(s, r) && RolledBack(s.requests[r].device, s.requests[r].stage.id) in s.log
  }

  ghost predicate Undone(s: State, o: Origin)
  {
    o.By? ==> !WasRolledBack(s, o.r)
  }

  /** No rolled-back request has anything in effect on the device, or in its live checkpoint. */
  ghost predicate UndoneAt(s: State, ls: seq<Label>, d: string)
  {
    var t, o := Exec(s, ls), OriginsAt(s, ls, d);
    Undone(t, o.now) && (o.saved.Some? ==> Undone(t, o.saved.value))
  }

  ghost predicate AllUndone(s: State, ls: seq<Label>)
  {
    forall d :: d in s.nm.devices ==> UndoneAt(s, ls, d)
  }

  /** At every point of the run. */
  ghost predicate FullyUndone(s: State, ls: seq<Label>)
  {
    forall n :: 0 <= n <= |ls| ==> AllUndone(s, ls[..n])
  }

  /** The request whose re-apply goes through was not rolled back, or nothing changes. */
  predicate MayTakeEffect(s: State, l: Label)
  {
    TakesEffect(s, l) ==> !WasRolledBack(s, l.r) || ChangesNothing(s, l.r)
  }

  ghost predicate AllMayTakeEffect(s: State, ls: seq<Label>)
  {
    forall n :: 0 <= n < |ls| ==> MayTakeEffect(Exec(s, ls[..n]), ls[n])
  }

  // ------------------------------------------------------------------ origins tell the truth

  /** The request wrote on this device. */
  predicate IsOf(s: State, o: Origin, d: string)
  {
    o.By? ==> Past(s, o.r) && s.requests[o.r].device == d && Wrote(s.requests[o.r].stage)
  }

  function ValueOf(start: State, s: State, o: Origin, d: string): Connection
    requires d in start.nm.devices && IsOf(s, o, d)
  {
    match o
    case Initially => start.nm.devices[d].applied
    case Elsewhere(settings) => settings
    case By(r) => s.requests[r].stage.settings
  }

  /**
   * What is in effect is what its origin put there, the same of the live checkpoint, and that one
   * was not put there by the request that made the checkpoint.
   */
  ghost predicate Truthful(start: State, s: State, d: string, o: Origins)
  {
    && d in start.nm.devices && d in s.nm.devices
    && IsOf(s, o.now, d) && s.nm.devices[d].applied == ValueOf(start, s, o.now, d)
    && (o.saved.Some? <==> s.nm.devices[d].checkpoint.Some?)
    && (o.saved.Some? ==>
          && IsOf(s, o.saved.value, d)
          && s.nm.devices[d].checkpoint.value.applied == ValueOf(start, s, o.saved.value, d)
          && (o.saved.value.By? ==> !Owns(s, o.saved.value.r, d)))
  }

  lemma StaysOf(start: State, s: State, l: Label, o: Origin, d: string)
    requires d in start.nm.devices && IsOf(s, o, d)
    ensures IsOf(Next(s, l), o, d) && ValueOf(start, Next(s, l), o, d) == ValueOf(start, s, o, d)
  {
    hide Next;
    if o.By? { StepKeeps(s, l, o.r); }
  }

  /** A request past its checkpoint does not come to own one made later. */
  lemma NoNewOwner(s: State, l: Label, r: nat, d: string)
    requires Inv(s) && Past(s, r) && d in s.nm.devices
    requires CreatesCheckpoint(s, l, d) || !Owns(s, r, d)
    ensures !Owns(Next(s, l), r, d)
  {
    hide Next;
    var t := Next(s, l);
    StepKeeps(s, l, r);
    StepDevices(s, l, d);
    if CreatesCheckpoint(s, l, d) {
      assert RequestOwnsId(s, r);
      var n: nat :| OwnsNumber(s.nm, s.requests[r].device, n) && s.requests[r].stage.id == Decimal(n);
      CheckpointPathsAreDistinct(s.nm.created, Decimal(n));
      if Decimal(s.nm.created) == Decimal(n) { DecimalIsInjective(s.nm.created, n); }
    }
  }

  lemma StepKeepsTruth(start: State, s: State, l: Label, d: string, o: Origins)
    requires Inv(s) && Truthful(start, s, d, o)
    ensures Truthful(start, Next(s, l), d, NextOrigins(s, l, d, o))
  {
    hide Next, Owns, CheckpointPath, Decimal, Inv;
    StepDevices(s, l, d);
    StaysOf(start, s, l, o.now, d);
    if o.now.By? && CreatesCheckpoint(s, l, d) { NoNewOwner(s, l, o.now.r, d); }
    if o.saved.Some? {
      StaysOf(start, s, l, o.saved.value, d);
      if o.saved.value.By? { NoNewOwner(s, l, o.saved.value.r, d); }
    }
    if TakesEffect(s, l) { StepKeeps(s, l, l.r); }
  }

  /** In every run the origins are true of every device. */
  lemma {:induction false} OriginsAreTrue(s: State, ls: seq<Label>, d: string)
    requires Initial(s) && d in s.nm.devices
    ensures Truthful(s, Exec(s, ls), d, OriginsAt(s, ls, d))
    decreases |ls|
  {
    hide Next, NextOrigins;
    if ls != [] {
      var init := ls[..|ls| - 1];
      OriginsAreTrue(s, init, d);
      RunsKeepInv(s, init);
      hide Truthful;
      StepKeepsTruth(s, Exec(s, init), ls[|ls| - 1], d, OriginsAt(s, init, d));
    }
  }

  // ------------------------------------------------------------------ one step

  lemma RollbackLog(s: State, l: Label, device: string, id: string)
    ensures RolledBack(device, id) in Next(s, l).log <==>
              || RolledBack(device, id) in s.log
              || (l == Timeout(device) && device in s.nm.devices && s.nm.devices[device].checkpoint.Some?
                  && id == Decimal(s.nm.devices[device].checkpoint.value.number))
  {
    if l.Advance? && l.r in s.requests {
      AdvanceLogsNoRollback(s, l.r, device, id);
      hide AdvanceRequest;
    } else {
      hide AdvanceRequest, Manager.CheckpointDestroy, Manager.Rollback, Manager.Activate, CheckpointPath, Decimal;
    }
  }

  lemma AdvanceLogsNoRollback(s: State, r: nat, device: string, id: string)
    requires r in s.requests
    ensures RolledBack(device, id) in AdvanceRequest(s, r).log <==> RolledBack(device, id) in s.log
  {
    hide EditedConnection, Manager.CheckpointCreate, Manager.Update, Manager.Reapply, CheckpointId, CheckpointPath, Decimal;
  }

  /** A step rolls a request back exactly when it is the timeout of the checkpoint the request owns. */
  lemma StepRollsBack(s: State, l: Label, r: nat)
    requires Past(s, r)
    ensures WasRolledBack(Next(s, l), r) <==>
              WasRolledBack(s, r) || (l == Timeout(s.requests[r].device) && Owns(s, r, s.requests[r].device))
  {
    hide Next;
    var d, id := s.requests[r].device, s.requests[r].stage.id;
    StepKeeps(s, l, r);
    RollbackLog(s, l, d, id);
    if d in s.nm.devices && s.nm.devices[d].checkpoint.Some? {
      CheckpointPathsAreDistinct(s.nm.devices[d].checkpoint.value.number, id);
    }
  }

  ghost predicate BothUndone(s: State, o: Origins)
  {
    Undone(s, o.now) && (o.saved.Some? ==> Undone(s, o.saved.value))
  }

  predicate Reapplies(s: State, l: Label, d: string)
  {
    TakesEffect(s, l) && s.requests[l.r].device == d
  }

  /** What was undone stays so, exactly when a re-apply of this step may take effect. */
  lemma StepUndone(start: State, s: State, l: Label, d: string, o: Origins)
    requires Inv(s) && Truthful(start, s, d, o) && BothUndone(s, o)
    ensures BothUndone(Next(s, l), NextOrigins(s, l, d, o)) <==> Reapplies(s, l, d) ==> MayTakeEffect(s, l)
  {
    hide Next, WasRolledBack, CheckpointPath, Decimal;
    if o.now.By? { StepRollsBack(s, l, o.now.r); }
    if o.saved.Some? && o.saved.value.By? { StepRollsBack(s, l, o.saved.value.r); }
    if TakesEffect(s, l) { StepRollsBack(s, l, l.r); }
  }

  // ------------------------------------------------------------------ whole runs

  lemma LastUndone(s: State, init: seq<Label>, l: Label)
    requires Initial(s) && AllUndone(s, init)
    ensures AllUndone(s, init + [l]) <==> MayTakeEffect(Exec(s, init), l)
  {
    hide Next, MayTakeEffect, NextOrigins, Undone;
    var before, ls := Exec(s, init), init + [l];
    RunsKeepInv(s, init);
    RunsMove(s, init);
    assert ls[..|ls| - 1] == init;
    forall d | d in s.nm.devices
      ensures UndoneAt(s, ls, d) <==> Reapplies(before, l, d) ==> MayTakeEffect(before, l)
    {
      OriginsAreTrue(s, init, d);
      assert UndoneAt(s, init, d);
      StepUndone(s, before, l, d, OriginsAt(s, init, d));
    }
    ReappliesSomewhere(before, l);
  }

  lemma ReappliesSomewhere(s: State, l: Label)
    ensures (forall d :: d in s.nm.devices ==> Reapplies(s, l, d) ==> MayTakeEffect(s, l)) <==> MayTakeEffect(s, l)
  {
    assert TakesEffect(s, l) ==> Reapplies(s, l, s.requests[l.r].device);
  }

  lemma PrefixesSplit(s: State, init: seq<Label>, l: Label)
    ensures FullyUndone(s, init + [l]) <==> FullyUndone(s, init) && AllUndone(s, init + [l])
    ensures AllMayTakeEffect(s, init + [l]) <==> AllMayTakeEffect(s, init) && MayTakeEffect(Exec(s, init), l)
    ensures FullyUndone(s, init) ==> AllUndone(s, init)
  {
    hide Exec, MayTakeEffect, AllUndone;
    var ls := init + [l];
    assert forall n :: 0 <= n <= |init| ==> init[..n] == ls[..n];
    assert ls[..|ls|] == ls && ls[..|init|] == init && init[..|init|] == init && ls[|init|] == l;
  }

  /**
   * Main result. At every point of a run, no device has in effect, or in the snapshot of its live
   * checkpoint, anything that a rolled-back request put there, if and only if each re-apply that goes
   * through is one of a request that was not rolled back, or changes nothing.
   */
  lemma {:induction false} FullyUndoneIff(s: State, ls: seq<Label>)
    requires Initial(s)
    ensures FullyUndone(s, ls) <==> AllMayTakeEffect(s, ls)
    decreases |ls|
  {
    hide Exec, MayTakeEffect, AllUndone;
    if ls == [] {
      StartIsUndone(s);
      assert forall n :: n == 0 ==> ls[..n] == [];
    } else {
      var init, l := ls[..|ls| - 1], ls[|ls| - 1];
      assert ls == init + [l];
      FullyUndoneIff(s, init);
      PrefixesSplit(s, init, l);
      if AllUndone(s, init) { LastUndone(s, init, l); }
    }
  }

  lemma StartIsUndone(s: State)
    ensures AllUndone(s, [])
  {
  }

  // ------------------------------------------------------------------ reading the version in time

  /** The step is this request's reading of the version. */
  predicate ReadsVersion(s: State, l: Label)
  {
    l.Advance? && l.r in s.requests && s.requests[l.r].stage.Saved? && s.requests[l.r].device in s.nm.devices
  }

  predicate ReadsInTime(s: State, l: Label)
  {
    ReadsVersion(s, l) ==> !WasRolledBack(s, l.r)
  }

  /** A rolled-back request with a pending re-apply holds an old version. */
  ghost predicate Disarmed(s: State, r: nat)
  {
    r in s.requests && s.requests[r].stage.Scheduled? ==>
      && s.requests[r].device in s.nm.devices
      && 0 < s.requests[r].stage.version <= s.nm.devices[s.requests[r].device].version
      && (WasRolledBack(s, r) ==> s.requests[r].stage.version < s.nm.devices[s.requests[r].device].version)
  }

  /** Where a pending re-apply comes from. */
  lemma StepSchedules(s: State, l: Label, r: nat)
    requires Disarmed(s, r)
    ensures var t := Next(s, l);
            r in t.requests && t.requests[r].stage.Scheduled? ==>
              && r in s.requests && t.requests[r].device == s.requests[r].device
              && if l == Advance(r)
                 then ReadsVersion(s, l) && t.requests[r].stage.version == s.nm.devices[s.requests[r].device].version && t.nm == s.nm
                 else t.requests[r].stage == s.requests[r].stage
  {
    hide EditedConnection, Manager.CheckpointCreate, Manager.CheckpointDestroy, Manager.Rollback, Manager.Activate, CheckpointId, CheckpointPath, Decimal;
  }

  lemma StepKeepsDisarmed(s: State, l: Label, r: nat)
    requires Inv(s) && Disarmed(s, r) && ReadsInTime(s, l)
    ensures Disarmed(Next(s, l), r)
  {
    hide Next, Owns, WasRolledBack;
    var t := Next(s, l);
    StepSchedules(s, l, r);
    StepMoves(s, l);
    if r in t.requests && t.requests[r].stage.Scheduled? {
      StepRollsBack(s, l, r);
      var d := s.requests[r].device;
      assert DeviceMoves(s.nm.devices[d], t.nm.devices[d], s.nm.created);
      if l == Timeout(d) && WasRolledBack(t, r) && !WasRolledBack(s, r) { TimeoutIsAVersion(s, r, d); }
    }
  }

  lemma TimeoutIsAVersion(s: State, r: nat, d: string)
    requires Owns(s, r, d)
    ensures d in Next(s, Timeout(d)).nm.devices && Next(s, Timeout(d)).nm.devices[d].version > s.nm.devices[d].version
  {
    hide Next;
    TimeoutStep(s, d);
  }

  /** If every version is read before the request is rolled back, everything is fully undone. */
  lemma ReadingInTimeSuffices(s: State, ls: seq<Label>)
    requires Initial(s)
    requires forall n :: 0 <= n < |ls| ==> ReadsInTime(Exec(s, ls[..n]), ls[n])
    ensures FullyUndone(s, ls)
  {
    hide Exec, FullyUndone, MayTakeEffect;
    forall n | 0 <= n < |ls| ensures MayTakeEffect(Exec(s, ls[..n]), ls[n]) {
      AllDisarmed(s, ls, n);
      assert ls[n].Advance? ==> Disarmed(Exec(s, ls[..n]), ls[n].r);
      DisarmedMayTakeEffect(Exec(s, ls[..n]), ls[n]);
    }
    FullyUndoneIff(s, ls);
  }

  lemma DisarmedMayTakeEffect(s: State, l: Label)
    requires l.Advance? ==> Disarmed(s, l.r)
    ensures MayTakeEffect(s, l)
  {
    hide WasRolledBack;
  }

  lemma {:induction false} AllDisarmed(s: State, ls: seq<Label>, n: nat)
    requires Initial(s) && n <= |ls|
    requires forall k :: 0 <= k < |ls| ==> ReadsInTime(Exec(s, ls[..k]), ls[k])
    ensures forall r :: Disarmed(Exec(s, ls[..n]), r)
    decreases n
  {
    hide Next, ReadsInTime;
    if n > 0 {
      AllDisarmed(s, ls, n - 1);
      assert ls[..n][..n - 1] == ls[..n - 1];
      RunsKeepInv(s, ls[..n - 1]);
      hide Disarmed;
      forall r ensures Disarmed(Exec(s, ls[..n]), r) {
        assert Disarmed(Exec(s, ls[..n - 1]), r);
        StepKeepsDisarmed(Exec(s, ls[..n - 1]), ls[n - 1], r);
      }
    }
  }

  // ------------------------------------------------------------------ what is in effect was confirmed

  /** A request's checkpoint is live, or was confirmed, or timed out. */
  ghost predicate HasFate(s: State, r: nat)
  {
    Past(s, r) ==> Owns(s, r, s.requests[r].device) || WasRolledBack(s, r) || CheckpointEnded(s.requests[r].stage.id) in s.log
  }

  lemma StepKeepsFate(s: State, l: Label, r: nat)
    requires Inv(s) && HasFate(s, r)
    ensures HasFate(Next(s, l), r)
  {
    hide Next, WasRolledBack;
    var t := Next(s, l);
    StepKeeps(s, l, r);
    StepLogs(s, l);
    if Past(s, r) {
      var d := s.requests[r].device;
      StepRollsBack(s, l, r);
      if Owns(s, r, d) {
        StepDevices(s, l, d);
        if Confirms(s, l, d) { ConfirmsTheOwner(s, l, r, d); }
      }
    } else if Past(t, r) {
      NewOwnerOwns(s, l, r);
    }
  }

  lemma ConfirmsTheOwner(s: State, l: Label, r: nat, d: string)
    requires Owns(s, r, d) && Confirms(s, l, d)
    ensures CheckpointEnded(s.requests[r].stage.id) in Next(s, l).log
  {
    var n := s.nm.devices[d].checkpoint.value.number;
    CheckpointPathsAreDistinct(n, s.requests[r].stage.id);
    CheckpointPathsAreDistinct(n, l.id);
    hide CheckpointPath, Decimal;
  }

  lemma NewOwnerOwns(s: State, l: Label, r: nat)
    requires !Past(s, r) && Past(Next(s, l), r)
    ensures Owns(Next(s, l), r, Next(s, l).requests[r].device)
  {
    hide Next;
    StepMovesRequest(s, l, r);
    CheckpointIdRoundTrip(Decimal(s.nm.created));
  }

  lemma {:induction false} EveryCheckpointHasItsFate(s: State, ls: seq<Label>, r: nat)
    requires Initial(s)
    ensures HasFate(Exec(s, ls), r)
    decreases |ls|
  {
    hide Next;
    if ls != [] {
      EveryCheckpointHasItsFate(s, ls[..|ls| - 1], r);
      RunsKeepInv(s, ls[..|ls| - 1]);
      hide HasFate;
      StepKeepsFate(Exec(s, ls[..|ls| - 1]), ls[|ls| - 1], r);
    }
  }

  /**
   * So, after such a run, what a device without a live checkpoint has in effect is what it started
   * with, what was put there from elsewhere, or the settings of a request that was confirmed.
   */
  lemma InEffectIsConfirmed(s: State, ls: seq<Label>, d: string, t: State)
    requires Initial(s) && AllMayTakeEffect(s, ls) && t == Exec(s, ls)
    requires d in s.nm.devices && d in t.nm.devices && t.nm.devices[d].checkpoint.None?
    ensures match OriginsAt(s, ls, d).now
            case Initially => t.nm.devices[d].applied == s.nm.devices[d].applied
            case Elsewhere(settings) => t.nm.devices[d].applied == settings
            case By(r) => Past(t, r) && t.nm.devices[d].applied == t.requests[r].stage.settings
                          && CheckpointEnded(t.requests[r].stage.id) in t.log
  {
    hide Exec, MayTakeEffect, WasRolledBack;
    FullyUndoneIff(s, ls);
    assert ls[..|ls|] == ls && AllUndone(s, ls[..|ls|]) && UndoneAt(s, ls, d);
    OriginsAreTrue(s, ls, d);
    if OriginsAt(s, ls, d).now.By? { EveryCheckpointHasItsFate(s, ls, OriginsAt(s, ls, d).now.r); }
    hide OriginsAt;
  }

  // ------------------------------------------------------------------ a live checkpoint was not rolled back

  /** Only numbers already given out are logged as rolled back. */
  ghost predicate WasMade(s: State, device: string, id: string)
  {
    RolledBack(device, id) in s.log ==> exists n: nat :: n < s.nm.created && id == Decimal(n)
  }

  lemma {:induction false} RolledBackWasMade(s: State, ls: seq<Label>, device: string, id: string)
    requires Initial(s)
    ensures WasMade(Exec(s, ls), device, id)
    decreases |ls|
  {
    hide Next;
    if ls != [] {
      var before, l := Exec(s, ls[..|ls| - 1]), ls[|ls| - 1];
      RolledBackWasMade(s, ls[..|ls| - 1], device, id);
      RunsKeepInv(s, ls[..|ls| - 1]);
      RollbackLog(before, l, device, id);
      StepMoves(before, l);
    }
  }

  ghost predicate LiveIsNotRolledBack(s: State, r: nat)
  {
    Past(s, r) && WasRolledBack(s, r) ==> !Owns(s, r, s.requests[r].device)
  }

  lemma StepKeepsLive(s: State, l: Label, r: nat)
    requires Inv(s) && LiveIsNotRolledBack(s, r)
    requires forall device, id :: WasMade(s, device, id)
    ensures LiveIsNotRolledBack(Next(s, l), r)
  {
    hide Next, Inv, WasRolledBack, Owns;
    if Past(s, r) {
      var d := s.requests[r].device;
      StepRollsBack(s, l, r);
      StepKeeps(s, l, r);
      if d in s.nm.devices {
        if !Owns(s, r, d) { NoNewOwner(s, l, r, d); }
        if l == Timeout(d) { TimedOutOwnsNothing(s, l, r, d); }
      } else {
        DevicesStay(s, l);
        OwnersHaveDevices(Next(s, l), r, d);
      }
    } else if Past(Next(s, l), r) {
      NewOwnerIsFresh(s, l, r);
    }
  }

  lemma OwnersHaveDevices(s: State, r: nat, d: string)
    ensures Owns(s, r, d) ==> d in s.nm.devices
  {
  }

  lemma TimedOutOwnsNothing(s: State, l: Label, r: nat, d: string)
    requires l == Timeout(d) && d in s.nm.devices
    ensures !Owns(Next(s, l), r, d)
  {
    hide Next;
    StepDevices(s, l, d);
  }

  lemma NewOwnerIsFresh(s: State, l: Label, r: nat)
    requires !Past(s, r) && Past(Next(s, l), r)
    requires forall device, id :: WasMade(s, device, id)
    ensures !WasRolledBack(Next(s, l), r)
  {
    hide Next;
    var t := Next(s, l);
    StepMovesRequest(s, l, r);
    CheckpointIdRoundTrip(Decimal(s.nm.created));
    var device, id := t.requests[r].device, t.requests[r].stage.id;
    RollbackLog(s, l, device, id);
    assert WasMade(s, device, id);
    if RolledBack(device, id) in s.log {
      var n: nat :| n < s.nm.created && id == Decimal(n);
      DecimalIsInjective(n, s.nm.created);
    }
  }

  /** In every run, a request whose checkpoint is live was not rolled back. */
  lemma {:induction false} OwnersAreNotRolledBack(s: State, ls: seq<Label>, r: nat)
    requires Initial(s)
    ensures LiveIsNotRolledBack(Exec(s, ls), r)
    decreases |ls|
  {
    hide Next, WasRolledBack;
    if ls != [] {
      var init := ls[..|ls| - 1];
      OwnersAreNotRolledBack(s, init, r);
      RunsKeepInv(s, init);
      forall device, id ensures WasMade(Exec(s, init), device, id) { RolledBackWasMade(s, init, device, id); }
      StepKeepsLive(Exec(s, init), ls[|ls| - 1], r);
    }
  }

  /** Writing and reading the version both happen under the request's own checkpoint. */
  predicate OwnStep(s: State, l: Label)
  {
    Writes(s, l) || ReadsVersion(s, l) ==> Owns(s, l.r, s.requests[l.r].device)
  }

  ghost predicate AllOwn(s: State, ls: seq<Label>)
  {
    forall n :: 0 <= n < |ls| ==> OwnStep(Exec(s, ls[..n]), ls[n])
  }

  /** Runs in which each request writes and reads under its own checkpoint have both properties. */
  lemma OwnStepsSuffice(s: State, ls: seq<Label>)
    requires Initial(s) && AllOwn(s, ls)
    ensures Transactional(s, ls) && AllLandSafely(s, ls) && FullyUndone(s, ls)
  {
    hide Exec, Transactional, FullyUndone, WasRolledBack, Owns;
    forall n | 0 <= n < |ls|
      ensures LandsSafely(Exec(s, ls[..n]), ls[n]) && ReadsInTime(Exec(s, ls[..n]), ls[n])
    {
      assert OwnStep(Exec(s, ls[..n]), ls[n]);
      if ls[n].Advance? { OwnersAreNotRolledBack(s, ls[..n], ls[n].r); }
    }
    TransactionalIff(s, ls);
    ReadingInTimeSuffices(s, ls);
  }

  // ------------------------------------------------------------------ such runs, step by step

  /** The run leads from one state to the other, each write and reading under its request's own checkpoint. */
  ghost predicate OwnRun(s: State, run: seq<Label>, t: State)
  {
    AllOwn(s, run) && Exec(s, run) == t
  }

  lemma OwnRunGrows(s: State, run: seq<Label>, t: State, l: Label)
    requires OwnRun(s, run, t) && OwnStep(t, l)
    ensures OwnRun(s, run + [l], Next(t, l))
  {
    hide Next, OwnStep;
    var longer := run + [l];
    assert longer[..|run|] == run && longer[|run|] == l;
    assert forall n :: 0 <= n < |run| ==> longer[..n] == run[..n] && longer[n] == run[n];
  }

  lemma OwnRunsJoin(s: State, a: seq<Label>, t: State, b: seq<Label>, u: State)
    requires OwnRun(s, a, t) && OwnRun(t, b, u)
    ensures OwnRun(s, a + b, u)
  {
    hide Next, OwnStep;
    ExecAppend(s, a, b);
    forall n | 0 <= n < |a + b| ensures OwnStep(Exec(s, (a + b)[..n]), (a + b)[n]) {
      if n < |a| {
        assert (a + b)[..n] == a[..n];
      } else {
        assert (a + b)[..n] == a + b[..n - |a|];
        ExecAppend(s, a, b[..n - |a|]);
        assert OwnStep(Exec(Exec(s, a), b[..n - |a|]), b[n - |a|]);
      }
    }
  }
}

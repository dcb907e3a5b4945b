/**
 * What isolates the requests from one another. An edit is made of the profile before the checkpoint
 * is created, so it can carry along what another request had written and nobody confirmed. Without
 * that, the profiles are those the confirmed requests alone leave, one after another.
 */
module SerialRefinement {
  import opened Wrappers
  import opened ConnectionSettingsAdapter
  import opened NetworkManager
  import opened NetworkTransactions
  import opened TransactionRefinement
  import opened EffectRefinement

  // ------------------------------------------------------------------ serial runs

  /** What a request asks for on its device. */
  datatype Edit = Edit(device: string, ipv4: Option<UpdateIpSettings>, ipv6: Option<UpdateIpSettings>)

  function EditOf(q: Request): Edit
  {
    Edit(q.device, q.ipv4, q.ipv6)
  }

  /** The profile after one edit on its own; one that does not go through leaves it. */
  function EditedBy(c: Connection, e: Edit): Connection
  {
    match EditedConnection(c, e.ipv4, e.ipv6)
    case Ok(settings) => settings
    case Err(_) => c
  }

  /** The profile after a list of edits, one after another. */
  function EditedInTurn(c: Connection, edits: seq<Edit>): Connection
  {
    if edits == [] then c else EditedBy(EditedInTurn(c, edits[..|edits| - 1]), edits[|edits| - 1])
  }

  /** The edit behind the device's live checkpoint, once it is written. */
  ghost function OpenEdits(s: State, d: string): seq<Edit>
  {
    if r: nat :| Proposes(s, r, d) then [EditOf(s.requests[r])] else []
  }

  /** The edits confirmed on a device, in the order of confirmation. */
  ghost function ConfirmedEdits(s: State, ls: seq<Label>, d: string): seq<Edit>
  {
    if ls == [] then []
    else
      var before := Exec(s, ls[..|ls| - 1]);
      ConfirmedEdits(s, ls[..|ls| - 1], d) + if Confirms(before, ls[|ls| - 1], d) then OpenEdits(before, d) else []
  }

  /** What the confirmed requests alone leave in the profile the run started with. */
  ghost function SerialAt(s: State, ls: seq<Label>, d: string): Option<Connection>
  {
    if d in s.nm.devices then Some(EditedInTurn(s.nm.devices[d].Fallback(), ConfirmedEdits(s, ls, d))) else None
  }

  ghost predicate SettledSerially(s: State, ls: seq<Label>)
  {
    forall d :: FallbackAt(Exec(s, ls), d) == SerialAt(s, ls, d)
  }

  ghost predicate EndsSerially(s: State, ls: seq<Label>)
  {
    forall l :: EndsCheckpoint(l) ==> SettledSerially(s, ls + [l])
  }

  /** At every point, whichever checkpoint is confirmed or times out next, devices fall back to what the confirmed requests alone leave. */
  ghost predicate Serial(s: State, ls: seq<Label>)
  {
    forall n :: 0 <= n <= |ls| ==> SettledSerially(s, ls[..n]) && EndsSerially(s, ls[..n])
  }

  /**
   * A profile write under the request's own checkpoint writes its edit of what that checkpoint holds;
   * any other write writes what is there.
   */
  predicate WritesOwnEdit(s: State, l: Label)
  {
    Writes(s, l) ==>
      var q := s.requests[l.r];
      var dev := s.nm.devices[q.device];
      q.stage.settings == if Owns(s, l.r, q.device) then EditedBy(dev.Fallback(), EditOf(q)) else dev.profile
  }

  ghost predicate AllWriteOwnEdits(s: State, ls: seq<Label>)
  {
    forall n :: 0 <= n < |ls| ==> WritesOwnEdit(Exec(s, ls[..n]), ls[n])
  }

  // ------------------------------------------------------------------ what a live checkpoint should offer

  /** What confirming should leave: what the device falls back to, with the open edit. */
  ghost function Intended(s: State, d: string): Connection
    requires d in s.nm.devices
  {
    EditedInTurn(s.nm.devices[d].Fallback(), OpenEdits(s, d))
  }

  lemma OneEdit(c: Connection, e: Edit)
    ensures EditedInTurn(c, []) == c && EditedInTurn(c, [e]) == EditedBy(c, e)
  {
    hide EditedBy;
    assert [e][..0] == [];
  }

  lemma InTurnThen(c: Connection, edits: seq<Edit>, more: seq<Edit>)
    requires |more| <= 1
    ensures EditedInTurn(c, edits + more) == EditedInTurn(EditedInTurn(c, edits), more)
  {
    hide EditedBy;
    if more == [] {
      assert edits + more == edits;
    } else {
      assert (edits + more)[..|edits|] == edits;
      assert more == [more[0]];
      OneEdit(EditedInTurn(c, edits), more[0]);
    }
  }

  lemma OpenEditOf(s: State, r: nat, d: string)
    requires Inv(s) && Proposes(s, r, d)
    ensures OpenEdits(s, d) == [EditOf(s.requests[r])]
  {
    forall q: nat | Proposes(s, q, d) ensures q == r { OwnerIsUnique(s, q, r, d); }
  }

  /** Every live checkpoint is offered as it should be. */
  ghost predicate OffersIntended(s: State)
  {
    forall d :: d in s.nm.devices && s.nm.devices[d].checkpoint.Some? ==> s.nm.devices[d].profile == Intended(s, d)
  }

  /** Open edits change with their checkpoint, or by the write of the request that owns it. */
  lemma OpenEditsStay(s: State, l: Label, d: string)
    requires Inv(s) && d in s.nm.devices && d in Next(s, l).nm.devices
    requires Next(s, l).nm.devices[d].checkpoint == s.nm.devices[d].checkpoint && s.nm.devices[d].checkpoint.Some?
    requires !Writes(s, l) || s.requests[l.r].device != d || !Owns(s, l.r, d)
    ensures OpenEdits(Next(s, l), d) == OpenEdits(s, d)
  {
    hide Next;
    var t := Next(s, l);
    StepKeepsInv(s, l);
    forall r: nat ensures Proposes(t, r, d) <==> Proposes(s, r, d) { StepKeeps(s, l, r); }
    if r: nat :| Proposes(s, r, d) {
      StepKeeps(s, l, r);
      OpenEditOf(s, r, d);
      OpenEditOf(t, r, d);
    }
  }

  lemma NewCheckpointHasNoEdit(s: State, l: Label, d: string)
    requires Inv(s) && d in s.nm.devices && d in Next(s, l).nm.devices
    requires s.nm.devices[d].checkpoint.None? && Next(s, l).nm.devices[d].checkpoint.Some?
    requires Next(s, l).nm.devices[d].checkpoint.value.number == s.nm.created
    ensures OpenEdits(Next(s, l), d) == []
  {
    hide Next;
    NewCheckpointHasNoProposer(s, l, d);
  }

  // ------------------------------------------------------------------ one step

  ghost predicate SerialMoves(s: State, l: Label, d: string)
  {
    FallbackAt(Next(s, l), d) ==
      if Confirms(s, l, d) then Some(Intended(s, d)) else FallbackAt(s, d)
  }

  lemma OwnEditStep(s: State, l: Label, d: string)
    requires Inv(s) && OffersIntended(s) && WritesOwnEdit(s, l)
    ensures SerialMoves(s, l, d)
  {
    hide EditedBy;
    assert WritesUnderCheckpoint(s, l);
    FallbackSteps(s, l, d);
    hide Next, Intended, Inv, WritesOwnEdit, Confirms;
  }

  lemma OwnWriteEdits(s: State, l: Label, d: string)
    requires Inv(s) && Writes(s, l) && Owns(s, l.r, d)
    ensures d in Next(s, l).nm.devices && Intended(Next(s, l), d) == EditedBy(s.nm.devices[d].Fallback(), EditOf(s.requests[l.r]))
    ensures Next(s, l).nm.devices[d].profile == s.requests[l.r].stage.settings
  {
    hide Next, EditedBy;
    StepKeepsInv(s, l);
    WriteStep(s, l.r);
    OpenEditOf(Next(s, l), l.r, d);
    OneEdit(s.nm.devices[d].Fallback(), EditOf(s.requests[l.r]));
    hide OpenEdits, EditedInTurn;
  }

  lemma OwnEditKeepsIntent(s: State, l: Label, d: string)
    requires Inv(s) && OffersIntended(s) && WritesOwnEdit(s, l) && d in Next(s, l).nm.devices
    requires Next(s, l).nm.devices[d].checkpoint.Some?
    ensures Next(s, l).nm.devices[d].profile == Intended(Next(s, l), d)
  {
    hide Next, OpenEdits, EditedInTurn, Inv, Owns, EditedBy;
    DevicesStay(s, l);
    LiveAfter(s, l, d);
    if s.nm.devices[d].checkpoint.None? {
      NewCheckpointHasNoEdit(s, l, d);
      OneEdit(Next(s, l).nm.devices[d].Fallback(), Edit(d, None, None));
    } else if Writes(s, l) && s.requests[l.r].device == d && Owns(s, l.r, d) {
      OwnWriteEdits(s, l, d);
    } else {
      OpenEditsStay(s, l, d);
    }
  }

  lemma IntentStays(s: State, l: Label)
    requires Inv(s) && OffersIntended(s) && WritesOwnEdit(s, l)
    ensures OffersIntended(Next(s, l))
  {
    hide Next, Intended;
    var t := Next(s, l);
    forall d | d in t.nm.devices && t.nm.devices[d].checkpoint.Some? ensures t.nm.devices[d].profile == Intended(t, d) {
      OwnEditKeepsIntent(s, l, d);
    }
  }

  /** A write of anything else moves a fallback nobody confirmed, or spoils what a checkpoint should offer. */
  lemma OtherEditStep(s: State, l: Label)
    requires Inv(s) && OffersIntended(s) && !WritesOwnEdit(s, l)
    ensures Writes(s, l)
    ensures !SerialMoves(s, l, s.requests[l.r].device) || !OffersIntended(Next(s, l))
  {
    hide Next, OpenEdits, EditedInTurn, EditedBy;
    var d := s.requests[l.r].device;
    WriteStep(s, l.r);
    if s.nm.devices[d].checkpoint.Some? {
      if Owns(s, l.r, d) { OwnWriteEdits(s, l, d); } else { OpenEditsStay(s, l, d); }
    }
  }

  // ------------------------------------------------------------------ whole runs

  /** A confirmation adds the open edit to those that were confirmed. */
  lemma SerialGrows(s: State, init: seq<Label>, l: Label, d: string)
    requires d in s.nm.devices && d in Exec(s, init).nm.devices && FallbackAt(Exec(s, init), d) == SerialAt(s, init, d)
    ensures SerialAt(s, init + [l], d) ==
            if Confirms(Exec(s, init), l, d) then Some(Intended(Exec(s, init), d)) else FallbackAt(Exec(s, init), d)
  {
    var before, ls := Exec(s, init), init + [l];
    assert ls[..|ls| - 1] == init;
    var c := s.nm.devices[d].Fallback();
    InTurnThen(c, ConfirmedEdits(s, init, d), OpenEdits(before, d));
    assert ConfirmedEdits(s, init, d) + [] == ConfirmedEdits(s, init, d);
    hide Exec, EditedBy, EditedInTurn;
  }

  lemma SettledMoves(s: State, init: seq<Label>, l: Label, d: string)
    requires Initial(s) && SettledSerially(s, init)
    ensures FallbackAt(Exec(s, init + [l]), d) == SerialAt(s, init + [l], d) <==> SerialMoves(Exec(s, init), l, d)
  {
    var ls := init + [l];
    assert ls[..|ls| - 1] == init;
    assert Exec(s, ls) == Next(Exec(s, init), l);
    RunsMove(s, init);
    RunsMove(s, ls);
    hide Exec, Next, Confirms, ConfirmedEdits, EditedInTurn, Initial;
    assert FallbackAt(Exec(s, init), d) == SerialAt(s, init, d);
    if d in s.nm.devices { SerialGrows(s, init, l, d); }
  }

  lemma LastSerialStep(s: State, init: seq<Label>, l: Label)
    requires Initial(s) && SettledSerially(s, init) && OffersIntended(Exec(s, init))
    ensures SettledSerially(s, init + [l]) && OffersIntended(Exec(s, init + [l])) <==> WritesOwnEdit(Exec(s, init), l)
  {
    var before, ls := Exec(s, init), init + [l];
    assert ls[..|ls| - 1] == init;
    assert Exec(s, ls) == Next(before, l);
    RunsKeepInv(s, init);
    hide Exec, Next, WritesOwnEdit, OffersIntended, SerialMoves, SerialAt, Inv, Initial;
    forall d ensures FallbackAt(Exec(s, ls), d) == SerialAt(s, ls, d) <==> SerialMoves(before, l, d) { SettledMoves(s, init, l, d); }
    if WritesOwnEdit(before, l) {
      forall d ensures SerialMoves(before, l, d) { OwnEditStep(before, l, d); }
      IntentStays(before, l);
    } else {
      OtherEditStep(before, l);
      var d := before.requests[l.r].device;
      assert SettledSerially(s, ls) ==> FallbackAt(Exec(s, ls), d) == SerialAt(s, ls, d);
    }
  }

  lemma EndsSeriallyIff(s: State, ls: seq<Label>)
    requires Initial(s) && SettledSerially(s, ls)
    ensures EndsSerially(s, ls) <==> OffersIntended(Exec(s, ls))
  {
    hide Exec, Next, Intended, SettledSerially, Initial;
    var now := Exec(s, ls);
    if OffersIntended(now) {
      forall l | EndsCheckpoint(l) ensures SettledSerially(s, ls + [l]) {
        LastSerialStep(s, ls, l);
      }
    }
    if EndsSerially(s, ls) {
      forall d | d in now.nm.devices && now.nm.devices[d].checkpoint.Some? ensures now.nm.devices[d].profile == Intended(now, d) {
        ConfirmationShowsIntent(s, ls, d, Commit(Decimal(now.nm.devices[d].checkpoint.value.number)));
      }
    }
  }

  lemma ConfirmationShowsIntent(s: State, ls: seq<Label>, d: string, l: Label)
    requires Initial(s) && Confirms(Exec(s, ls), l, d) && SettledSerially(s, ls) && SettledSerially(s, ls + [l])
    ensures Exec(s, ls).nm.devices[d].profile == Intended(Exec(s, ls), d)
  {
    hide Exec, Next, Intended, SerialAt, Initial;
    StepDevices(Exec(s, ls), l, d);
    assert FallbackAt(Exec(s, ls + [l]), d) == SerialAt(s, ls + [l], d);
    SettledMoves(s, ls, l, d);
  }

  ghost predicate InSeriesSoFar(s: State, ls: seq<Label>)
  {
    SettledSerially(s, ls) && OffersIntended(Exec(s, ls))
  }

  ghost predicate InSeries(s: State, ls: seq<Label>)
  {
    forall n :: 0 <= n <= |ls| ==> InSeriesSoFar(s, ls[..n])
  }

  lemma {:induction false} InSeriesIff(s: State, ls: seq<Label>)
    requires Initial(s)
    ensures InSeries(s, ls) <==> AllWriteOwnEdits(s, ls)
    decreases |ls|
  {
    hide Next, WritesOwnEdit, SettledSerially, OffersIntended;
    if ls == [] {
      StartsInSeries(s);
      assert forall n :: n == 0 ==> ls[..n] == [];
    } else {
      var init, l := ls[..|ls| - 1], ls[|ls| - 1];
      assert ls == init + [l];
      InSeriesIff(s, init);
      SeriesSplit(s, init, l);
      if InSeriesSoFar(s, init) { LastSerialStep(s, init, l); }
    }
  }

  lemma StartsInSeries(s: State)
    requires Initial(s)
    ensures SettledSerially(s, []) && OffersIntended(Exec(s, []))
  {
  }

  lemma SeriesSplit(s: State, init: seq<Label>, l: Label)
    ensures InSeries(s, init + [l]) <==> InSeries(s, init) && InSeriesSoFar(s, init + [l])
    ensures AllWriteOwnEdits(s, init + [l]) <==> AllWriteOwnEdits(s, init) && WritesOwnEdit(Exec(s, init), l)
    ensures InSeries(s, init) ==> InSeriesSoFar(s, init)
  {
    hide Exec, WritesOwnEdit, InSeriesSoFar;
    var ls := init + [l];
    assert forall n :: 0 <= n <= |init| ==> init[..n] == ls[..n];
    assert ls[..|ls|] == ls && ls[..|init|] == init && init[..|init|] == init && ls[|init|] == l;
  }

  /**
   * Main result. At every point of a run, and whichever checkpoint is confirmed or times out next,
   * every device falls back to what the confirmed requests alone leave, run one after another in the
   * order of confirmation, if and only if each profile write under its request's own checkpoint writes
   * that request's edit of what the checkpoint holds, and each other one changes nothing.
   */
  lemma SerialIff(s: State, ls: seq<Label>)
    requires Initial(s)
    ensures Serial(s, ls) <==> AllWriteOwnEdits(s, ls)
  {
    hide Exec, AllWriteOwnEdits, SettledSerially, EndsSerially, OffersIntended;
    InSeriesIff(s, ls);
    forall n | 0 <= n <= |ls| && SettledSerially(s, ls[..n]) ensures EndsSerially(s, ls[..n]) <==> OffersIntended(Exec(s, ls[..n])) {
      EndsSeriallyIff(s, ls[..n]);
    }
  }

  // ------------------------------------------------------------------ edits of what the checkpoint holds

  /** The checkpoint is created over a profile of which the request's settings are still the edit. */
  predicate BuildsOn(s: State, l: Label)
  {
    l.Advance? && l.r in s.requests && CreatesCheckpoint(s, l, s.requests[l.r].device) ==>
      var q := s.requests[l.r];
      EditedConnection(s.nm.devices[q.device].profile, q.ipv4, q.ipv6) == Ok(q.stage.settings)
  }

  ghost predicate AllBuildOn(s: State, ls: seq<Label>)
  {
    forall n :: 0 <= n < |ls| ==> BuildsOn(Exec(s, ls[..n]), ls[n])
  }

  /** The request behind a live checkpoint carries its own edit of what the device falls back to. */
  predicate CarriesOwnEdit(s: State, r: nat, d: string)
  {
    Owns(s, r, d) ==>
      EditedConnection(s.nm.devices[d].Fallback(), s.requests[r].ipv4, s.requests[r].ipv6) == Ok(s.requests[r].stage.settings)
  }

  ghost predicate AllCarryOwnEdits(s: State)
  {
    forall r: nat, d :: CarriesOwnEdit(s, r, d)
  }

  /** A checkpoint's owner is new with it, or owned it before. */
  lemma OwnersAfter(s: State, l: Label, r: nat, d: string)
    requires Inv(s) && Owns(Next(s, l), r, d)
    ensures d in s.nm.devices
    ensures if Past(s, r)
            then Owns(s, r, d) && Next(s, l).nm.devices[d].Fallback() == s.nm.devices[d].Fallback()
                 && Next(s, l).requests[r] == s.requests[r].(stage := Next(s, l).requests[r].stage)
                 && Next(s, l).requests[r].stage.settings == s.requests[r].stage.settings
            else l == Advance(r) && r in s.requests && CreatesCheckpoint(s, l, d)
                 && Next(s, l).nm.devices[d].Fallback() == s.nm.devices[d].profile
                 && Next(s, l).requests[r] == s.requests[r].(stage := Next(s, l).requests[r].stage)
                 && Next(s, l).requests[r].stage.settings == s.requests[r].stage.settings
  {
    hide Next, Inv;
    DevicesStay(s, l);
    if Past(s, r) {
      StepKeeps(s, l, r);
      if CreatesCheckpoint(s, l, d) || !Owns(s, r, d) { NoNewOwner(s, l, r, d); }
      hide Owns;
      SameCheckpoint(s, l, r, d);
    } else {
      NewOwnerCreates(s, l, r);
    }
  }

  lemma SameCheckpoint(s: State, l: Label, r: nat, d: string)
    requires Owns(s, r, d) && Owns(Next(s, l), r, d)
    ensures Next(s, l).nm.devices[d].Fallback() == s.nm.devices[d].Fallback()
  {
    hide Next;
    LiveAfter(s, l, d);
  }

  lemma NewOwnerCreates(s: State, l: Label, r: nat)
    requires !Past(s, r) && Past(Next(s, l), r)
    ensures l == Advance(r) && r in s.requests && CreatesCheckpoint(s, l, s.requests[r].device)
    ensures Next(s, l).requests[r] == s.requests[r].(stage := Guarded(s.requests[r].stage.settings, CheckpointId(CheckpointPath(Decimal(s.nm.created)))))
    ensures s.requests[r].device in Next(s, l).nm.devices
    ensures Next(s, l).nm.devices[s.requests[r].device].Fallback() == s.nm.devices[s.requests[r].device].profile
  {
    hide EditedConnection, CheckpointId, CheckpointPath, Decimal, Manager.Update, Manager.Reapply;
  }

  /** One step keeps that exactly when a checkpoint it creates builds on what it finds. */
  lemma StepCarries(s: State, l: Label)
    requires Inv(s) && AllCarryOwnEdits(s)
    ensures AllCarryOwnEdits(Next(s, l)) <==> BuildsOn(s, l)
  {
    hide Next, Inv, Owns, EditedConnection, CreatesCheckpoint;
    var t := Next(s, l);
    if BuildsOn(s, l) {
      forall r: nat, d ensures CarriesOwnEdit(t, r, d) {
        if Owns(t, r, d) { CarriesAfter(s, l, r, d); }
      }
    } else {
      CreationShows(s, l);
    }
  }

  lemma CarriesAfter(s: State, l: Label, r: nat, d: string)
    requires Inv(s) && AllCarryOwnEdits(s) && BuildsOn(s, l) && Owns(Next(s, l), r, d)
    ensures CarriesOwnEdit(Next(s, l), r, d)
  {
    OwnersAfter(s, l, r, d);
    hide Next, Inv, EditedConnection;
    assert CarriesOwnEdit(s, r, d);
  }

  lemma CreationShows(s: State, l: Label)
    requires Inv(s) && !BuildsOn(s, l)
    ensures !AllCarryOwnEdits(Next(s, l))
  {
    hide Next, Inv, EditedConnection;
    CreateStep(s, l.r);
    CheckpointIdRoundTrip(Decimal(s.nm.created));
    hide CheckpointPath, Decimal;
    assert !CarriesOwnEdit(Next(s, l), l.r, s.requests[l.r].device);
  }

  ghost predicate AlwaysCarry(s: State, ls: seq<Label>)
  {
    forall n :: 0 <= n <= |ls| ==> AllCarryOwnEdits(Exec(s, ls[..n]))
  }

  /**
   * At every point of a run each live checkpoint's request carries its own edit of what the device
   * falls back to, if and only if each checkpoint is created over a profile of which the settings its
   * request computed before are still the edit.
   */
  lemma {:induction false} AlwaysCarryIff(s: State, ls: seq<Label>)
    requires Initial(s)
    ensures AlwaysCarry(s, ls) <==> AllBuildOn(s, ls)
    decreases |ls|
  {
    hide Next, AllCarryOwnEdits, BuildsOn;
    if ls == [] {
      NobodyCarries(s);
      assert forall n :: n == 0 ==> ls[..n] == [];
    } else {
      var init, l := ls[..|ls| - 1], ls[|ls| - 1];
      assert ls == init + [l];
      assert (init + [l])[..|init|] == init;
      AlwaysCarryIff(s, init);
      CarrySplit(s, init, l);
      RunsKeepInv(s, init);
      if AllCarryOwnEdits(Exec(s, init)) { StepCarries(Exec(s, init), l); }
    }
  }

  lemma NobodyCarries(s: State)
    requires Initial(s)
    ensures AllCarryOwnEdits(s)
  {
  }

  lemma CarrySplit(s: State, init: seq<Label>, l: Label)
    ensures AlwaysCarry(s, init + [l]) <==> AlwaysCarry(s, init) && AllCarryOwnEdits(Exec(s, init + [l]))
    ensures AllBuildOn(s, init + [l]) <==> AllBuildOn(s, init) && BuildsOn(Exec(s, init), l)
    ensures AlwaysCarry(s, init) ==> AllCarryOwnEdits(Exec(s, init))
  {
    hide Exec, BuildsOn, AllCarryOwnEdits;
    var ls := init + [l];
    assert forall n :: 0 <= n <= |init| ==> init[..n] == ls[..n];
    assert ls[..|ls|] == ls && ls[..|init|] == init && init[..|init|] == init && ls[|init|] == l;
  }

  /**
   * So with writes that land safely and checkpoints that build on what they find, the devices fall back
   * to what the confirmed requests alone leave, one after another, and that is what was last committed.
   */
  lemma BuildingOnSuffices(s: State, ls: seq<Label>)
    requires Initial(s) && AllLandSafely(s, ls) && AllBuildOn(s, ls)
    ensures Serial(s, ls)
    ensures forall d :: LastCommitted(s, ls, d) == FallbackAt(Exec(s, ls), d) == SerialAt(s, ls, d)
  {
    hide Exec, LandsSafely, BuildsOn, AllCarryOwnEdits, WritesOwnEdit, LastCommitted, SerialAt, EndsSerially, EndsWell;
    AlwaysCarryIff(s, ls);
    forall n | 0 <= n < |ls| ensures WritesOwnEdit(Exec(s, ls[..n]), ls[n]) {
      RunsKeepInv(s, ls[..n]);
      CarriedIsWritten(Exec(s, ls[..n]), ls[n]);
    }
    SerialIff(s, ls);
    TransactionalIff(s, ls);
    assert ls[..|ls|] == ls && Settled(s, ls[..|ls|]) && SettledSerially(s, ls[..|ls|]);
  }

  lemma CarriedIsWritten(s: State, l: Label)
    requires LandsSafely(s, l) && AllCarryOwnEdits(s)
    ensures WritesOwnEdit(s, l)
  {
    hide EditedConnection;
    if Writes(s, l) { assert CarriesOwnEdit(s, l.r, s.requests[l.r].device); }
  }

  // ------------------------------------------------------------------ what is in effect

  /** At some point of the run the confirmed requests alone would have left this. */
  ghost predicate WasSerial(s: State, ls: seq<Label>, d: string, settings: Connection)
  {
    exists n :: 0 <= n <= |ls| && SerialAt(s, ls[..n], d) == Some(settings)
  }

  /** A request that has written is still open, was rolled back, or was confirmed and then left its settings for good. */
  ghost predicate Concludes(s: State, ls: seq<Label>, r: nat)
  {
    var t := Exec(s, ls);
    Past(t, r) && Wrote(t.requests[r].stage) ==>
      || Owns(t, r, t.requests[r].device)
      || WasRolledBack(t, r)
      || WasSerial(s, ls, t.requests[r].device, t.requests[r].stage.settings)
  }

  lemma Prefixes(s: State, ls: seq<Label>)
    requires ls != [] && AllOwn(s, ls) && AllBuildOn(s, ls)
    ensures var init := ls[..|ls| - 1];
            AllOwn(s, init) && AllBuildOn(s, init) && OwnStep(Exec(s, init), ls[|ls| - 1])
            && Exec(s, ls) == Next(Exec(s, init), ls[|ls| - 1])
  {
    hide Next, OwnStep, BuildsOn;
    var init := ls[..|ls| - 1];
    assert forall n :: 0 <= n < |init| ==> init[..n] == ls[..n] && init[n] == ls[n];
  }

  lemma {:induction false} EveryRequestConcludes(s: State, ls: seq<Label>, r: nat)
    requires Initial(s) && AllOwn(s, ls) && AllBuildOn(s, ls)
    ensures Concludes(s, ls, r)
    decreases |ls|
  {
    hide Next, AllOwn, AllBuildOn, WasSerial;
    if ls != [] {
      var init := ls[..|ls| - 1];
      Prefixes(s, ls);
      EveryRequestConcludes(s, init, r);
      hide Concludes;
      assert init + [ls[|ls| - 1]] == ls;
      ConclusionStays(s, init, ls[|ls| - 1], r);
    }
  }

  lemma ConclusionStays(s: State, init: seq<Label>, l: Label, r: nat)
    requires Initial(s) && AllOwn(s, init + [l]) && AllBuildOn(s, init + [l]) && Concludes(s, init, r)
    ensures Concludes(s, init + [l], r)
  {
    var ls := init + [l];
    assert ls[..|ls| - 1] == init && ls[|ls| - 1] == l;
    Prefixes(s, ls);
    hide Exec, Next, AllOwn, AllBuildOn, WasSerial, Initial, Owns, WasRolledBack;
    var before, t := Exec(s, init), Exec(s, ls);
    StepKeeps(before, l, r);
    if Past(t, r) && Wrote(t.requests[r].stage) {
      var d := t.requests[r].device;
      StepRollsBack(before, l, r);
      if Owns(before, r, d) {
        OpenConcludes(s, init, l, r, d);
      } else {
        WasSerialStays(s, init, l, d, t.requests[r].stage.settings);
      }
    }
  }

  lemma WasSerialStays(s: State, init: seq<Label>, l: Label, d: string, settings: Connection)
    ensures WasSerial(s, init, d, settings) ==> WasSerial(s, init + [l], d, settings)
  {
    hide SerialAt;
    if WasSerial(s, init, d, settings) {
      var n :| 0 <= n <= |init| && SerialAt(s, init[..n], d) == Some(settings);
      assert (init + [l])[..n] == init[..n];
    }
  }

  /** A step of a request with a live checkpoint leaves it, or ends it by its timeout or its confirmation. */
  lemma OpenConcludes(s: State, init: seq<Label>, l: Label, r: nat, d: string)
    requires Initial(s) && AllOwn(s, init + [l]) && AllBuildOn(s, init + [l])
    requires Owns(Exec(s, init), r, d) && Past(Exec(s, init + [l]), r) && Wrote(Exec(s, init + [l]).requests[r].stage)
    ensures var t := Exec(s, init + [l]);
            || Owns(t, r, d)
            || l == Timeout(d)
            || WasSerial(s, init + [l], d, t.requests[r].stage.settings)
  {
    var ls := init + [l];
    assert ls[..|ls| - 1] == init && ls[|ls| - 1] == l && ls[..|ls|] == ls;
    Prefixes(s, ls);
    hide Exec, Next, AllOwn, AllBuildOn, SerialAt, Initial, LastCommitted, Serial, Transactional, FullyUndone, AllLandSafely;
    var before, t := Exec(s, init), Exec(s, ls);
    StepKeeps(before, l, r);
    StepDevices(before, l, d);
    if Confirms(before, l, d) {
      OwnStepsSuffice(s, init);
      OwnStepsSuffice(s, ls);
      ConfirmingCommits(s, init, r, d, before);
      BuildingOnSuffices(s, ls);
      assert FallbackAt(t, d) == SerialAt(s, ls, d) == SerialAt(s, ls[..|ls|], d);
    }
    hide CheckpointPath, Decimal;
  }

  /**
   * With writes and version readings under the request's own checkpoint, created over what it builds
   * on, a device without a live checkpoint has in effect what it started with, what was put there from
   * elsewhere, or what the confirmed requests alone left at some point: nothing of a rolled-back one.
   */
  lemma InEffectIsSerial(s: State, ls: seq<Label>, d: string, t: State)
    requires Initial(s) && AllOwn(s, ls) && AllBuildOn(s, ls) && t == Exec(s, ls)
    requires d in s.nm.devices && d in t.nm.devices && t.nm.devices[d].checkpoint.None?
    ensures match OriginsAt(s, ls, d).now
            case Initially => t.nm.devices[d].applied == s.nm.devices[d].applied
            case Elsewhere(settings) => t.nm.devices[d].applied == settings
            case By(_) => WasSerial(s, ls, d, t.nm.devices[d].applied)
  {
    hide Exec, AllOwn, AllBuildOn, WasSerial, OriginsAt, WasRolledBack, Initial;
    OwnStepsSuffice(s, ls);
    OriginsAreTrue(s, ls, d);
    assert ls[..|ls|] == ls && AllUndone(s, ls[..|ls|]) && UndoneAt(s, ls, d);
    var o := OriginsAt(s, ls, d).now;
    if o.By? { EveryRequestConcludes(s, ls, o.r); }
  }
}

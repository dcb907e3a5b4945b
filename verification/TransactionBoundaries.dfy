/**
 * Where the protocol stops protecting: runs from an initial state that break the properties of
 * TransactionRefinement, EffectRefinement and SerialRefinement, for every device and every pair of edits.
 */
module TransactionBoundaries {
  import opened Wrappers
  import opened Variants
  import opened ConnectionSettingsAdapter
  import opened NetworkManager
  import opened NetworkTransactions
  import opened TransactionRefinement
  import T = TransactionRefinement
  import opened EffectRefinement
  import opened SerialRefinement

  /** The device is active, and the edit gives these settings. */
  predicate Gives(s: State, e: Edit, settings: Connection)
  {
    && e.device in s.nm.devices && s.nm.devices[e.device].isActive
    && EditedConnection(s.nm.devices[e.device].profile, e.ipv4, e.ipv6) == Ok(settings)
  }

  /** Two edits of one profile can give different settings, both different from it. */
  lemma EditsDiffer()
    ensures var profile := map["ipv4" := map[], "ipv6" := map[]];
            var a := UpdateIpSettings(Some("auto"), Undefined, Undefined, Given(["1.1.1.1"]), Undefined);
            var b := UpdateIpSettings(Some("auto"), Undefined, Undefined, Given([]), Undefined);
            var x, y := EditedConnection(profile, Some(a), None), EditedConnection(profile, Some(b), None);
            x.Ok? && y.Ok? && x.value != y.value && x.value != profile && y.value != profile
  {
    var a := UpdateIpSettings(Some("auto"), Undefined, Undefined, Given(["1.1.1.1"]), Undefined);
    var b := UpdateIpSettings(Some("auto"), Undefined, Undefined, Given([]), Undefined);
    var none: VariantObject := map[];
    assert none - DEPRECATED == none;
    var profile: Connection := map["ipv4" := none, "ipv6" := none];
    var x, y := EditedConnection(profile, Some(a), None), EditedConnection(profile, Some(b), None);
    assert x.Ok? && y.Ok? && x.value["ipv4"] == Applied(none, a) && y.value["ipv4"] == Applied(none, b);
    assert Lookup(Applied(none, a), "dns-data") == EntryAfter(none, a, "dns-data");
    assert Lookup(Applied(none, b), "dns-data") == EntryAfter(none, b, "dns-data");
    assert |StringsVariant(["1.1.1.1"]).value.items| != |StringsVariant([]).value.items|;
  }

  // ------------------------------------------------------------------ how such runs begin

  lemma ExecOne(s: State, ls: seq<Label>, l: Label)
    ensures Exec(s, ls + [l]) == Next(Exec(s, ls), l)
  {
    hide Next;
    assert (ls + [l])[..|ls + [l]| - 1] == ls;
  }

  function Preparing(r: nat, e: Edit): seq<Label>
  {
    [Begin(r, e.device, e.ipv4, e.ipv6)] + [Advance(r)] + [Advance(r)] + [Advance(r)]
  }

  function Asked(e: Edit, stage: Stage): Request
  {
    Request(e.device, e.ipv4, e.ipv6, stage)
  }

  /** The state with one request where it stands. */
  function Standing(s: State, r: nat, e: Edit, stage: Stage): State
  {
    s.(requests := s.requests[r := Asked(e, stage)])
  }

  /** A step before the checkpoint: where it leads, and that it is no write and no reading of a version. */
  lemma EarlyStep(s: State, r: nat, e: Edit, settings: Connection, from: Stage, to: Stage)
    requires Gives(s, e, settings)
    requires (from, to) in {(Started, Found), (Found, Resolved), (Resolved, Prepared(settings))}
    ensures var t := Standing(s, r, e, from); OwnStep(t, Advance(r)) && Next(t, Advance(r)) == Standing(s, r, e, to)
  {
    hide Next, EditedConnection, Owns;
    var t := Standing(s, r, e, from);
    match from {
      case Started => StartStep(t, r);
      case Found => FoundStep(t, r);
      case _ => EditStep(t, r);
    }
  }

  lemma PreparingIsOwn(s: State, r: nat, e: Edit, settings: Connection)
    requires Gives(s, e, settings) && r !in s.requests
    ensures OwnRun(s, Preparing(r, e), Standing(s, r, e, Prepared(settings)))
  {
    var b := [Begin(r, e.device, e.ipv4, e.ipv6)];
    assert [] + b == b;
    assert OwnRun(s, [], s) && OwnStep(s, b[0]);
    hide OwnRun, Next, OwnStep, Gives, Standing;
    BeginsStanding(s, r, e);
    OwnRunGrows(s, [], s, b[0]);
    EarlyStep(s, r, e, settings, Started, Found);
    OwnRunGrows(s, b, Standing(s, r, e, Started), Advance(r));
    EarlyStep(s, r, e, settings, Found, Resolved);
    OwnRunGrows(s, b + [Advance(r)], Standing(s, r, e, Found), Advance(r));
    EarlyStep(s, r, e, settings, Resolved, Prepared(settings));
    OwnRunGrows(s, b + [Advance(r)] + [Advance(r)], Standing(s, r, e, Resolved), Advance(r));
  }

  lemma BeginsStanding(s: State, r: nat, e: Edit)
    requires r !in s.requests
    ensures Next(s, Begin(r, e.device, e.ipv4, e.ipv6)) == Standing(s, r, e, Started)
  {
  }

  /** The request reads the profile and edits it. */
  lemma Prepares(s: State, r: nat, e: Edit, settings: Connection)
    requires Gives(s, e, settings) && r !in s.requests
    ensures Exec(s, Preparing(r, e)) == s.(requests := s.requests[r := Asked(e, Prepared(settings))])
    ensures AllLandSafely(s, Preparing(r, e))
  {
    hide Exec, LandsSafely;
    PreparingIsOwn(s, r, e, settings);
    forall n | 0 <= n < |Preparing(r, e)| ensures LandsSafely(Exec(s, Preparing(r, e)[..n]), Preparing(r, e)[n]) {
      OwnIsSafe(Exec(s, Preparing(r, e)[..n]), Preparing(r, e)[n]);
    }
  }

  lemma OwnIsSafe(s: State, l: Label)
    requires OwnStep(s, l)
    ensures LandsSafely(s, l)
  {
  }

  /** Steps that are no profile writes land safely. */
  lemma QuietlySafe(s: State, ls: seq<Label>, l: Label)
    requires AllLandSafely(s, ls) && LandsSafely(Exec(s, ls), l)
    ensures AllLandSafely(s, ls + [l])
  {
    hide LandsSafely;
    T.PrefixesSplit(s, ls, l);
  }

  /** There is no unsafe one from the checkpoint on, if the timeout comes after the write. */
  lemma EarlyRollbackLandsSafely(s: State, a: seq<Label>, r: nat, d: string)
    requires AllLandSafely(s, a) && r in Exec(s, a).requests && Exec(s, a).requests[r].stage.Prepared?
    requires d == Exec(s, a).requests[r].device && d in Exec(s, a).nm.devices && Exec(s, a).nm.devices[d].checkpoint.None?
    ensures AllLandSafely(s, a + [Advance(r)] + [Advance(r)] + [Timeout(d)] + [Advance(r)] + [Advance(r)])
  {
    var b := a + [Advance(r)];
    var c := b + [Advance(r)];
    var f := c + [Timeout(d)];
    var g := f + [Advance(r)];
    ExecOne(s, a, Advance(r));
    ExecOne(s, b, Advance(r));
    ExecOne(s, c, Timeout(d));
    ExecOne(s, f, Advance(r));
    hide Exec, Next, AllLandSafely, Decimal, CheckpointPath;
    Creates(Exec(s, a), r);
    QuietlySafe(s, a, Advance(r));
    WriteStep(Exec(s, b), r);
    QuietlySafe(s, b, Advance(r));
    TimeoutStep(Exec(s, c), d);
    QuietlySafe(s, c, Timeout(d));
    ReadVersionStep(Exec(s, f), r);
    QuietlySafe(s, f, Advance(r));
    QuietlySafe(s, g, Advance(r));
  }

  /** A device with a checkpoint just made. */
  function Checkpointed(s: State, d: string): Manager
    requires d in s.nm.devices
  {
    var dev := s.nm.devices[d];
    Manager(s.nm.devices[d := dev.(checkpoint := Some(Checkpoint(s.nm.created, dev.profile, dev.applied)))], s.nm.created + 1)
  }

  lemma Creates(s: State, r: nat)
    requires r in s.requests && s.requests[r].stage.Prepared? && s.requests[r].device in s.nm.devices
    requires s.nm.devices[s.requests[r].device].checkpoint.None?
    ensures var q := s.requests[r];
            Next(s, Advance(r)) ==
              State(Checkpointed(s, q.device),
                    s.requests[r := q.(stage := Guarded(q.stage.settings, Decimal(s.nm.created)))], s.log + [CheckpointCreated(r, q.device)])
  {
    hide Next;
    CreateStep(s, r);
    CheckpointIdRoundTrip(Decimal(s.nm.created));
  }

  /** The request's checkpoint times out as soon as it is made. */
  function TimedOut(s: State, r: nat): State
    requires r in s.requests && s.requests[r].stage.Prepared? && s.requests[r].device in s.nm.devices
  {
    var q, id := s.requests[r], Decimal(s.nm.created);
    var dev := s.nm.devices[q.device];
    State(Manager(s.nm.devices[q.device := dev.(version := dev.version + 1)], s.nm.created + 1),
          s.requests[r := q.(stage := Guarded(q.stage.settings, id))],
          s.log + [CheckpointCreated(r, q.device), RolledBack(q.device, id)])
  }

  lemma TimesOut(s: State, r: nat)
    requires r in s.requests && s.requests[r].stage.Prepared? && s.requests[r].device in s.nm.devices
    requires s.nm.devices[s.requests[r].device].checkpoint.None?
    ensures Next(Next(s, Advance(r)), Timeout(s.requests[r].device)) == TimedOut(s, r)
  {
    hide Next, Decimal;
    Creates(s, r);
    TimeoutStep(Next(s, Advance(r)), s.requests[r].device);
  }

  /** Without a commit, what counts as committed is what the run started with. */
  lemma {:induction false} NothingCommitted(s: State, ls: seq<Label>, d: string)
    requires forall i :: 0 <= i < |ls| ==> !ls[i].Commit?
    ensures LastCommitted(s, ls, d) == FallbackAt(s, d)
    decreases |ls|
  {
    hide Exec;
    if ls != [] { NothingCommitted(s, ls[..|ls| - 1], d); }
  }

  lemma NotSettled(s: State, ls: seq<Label>, d: string)
    requires FallbackAt(Exec(s, ls), d) != LastCommitted(s, ls, d)
    ensures !Transactional(s, ls)
  {
    hide Exec, LastCommitted;
    assert ls[..|ls|] == ls;
    assert !Settled(s, ls);
  }

  // ------------------------------------------------------------------ a write after the timeout

  function LateWrite(r: nat, e: Edit): seq<Label>
  {
    Preparing(r, e) + [Advance(r)] + [Timeout(e.device)] + [Advance(r)]
  }

  /** The request's checkpoint times out before its write: the write stays, with no checkpoint, though nobody confirmed. */
  lemma LateWriteEscapes(s: State, r: nat, e: Edit, settings: Connection)
    requires Initial(s) && Gives(s, e, settings) && settings != s.nm.devices[e.device].profile
    ensures var d, t := e.device, Exec(s, LateWrite(r, e));
            && d in t.nm.devices && t.nm.devices[d].profile == settings && t.nm.devices[d].checkpoint.None?
            && WasRolledBack(t, r)
            && LastCommitted(s, LateWrite(r, e), d) == Some(s.nm.devices[d].profile)
            && !Transactional(s, LateWrite(r, e))
  {
    var d := e.device;
    var a := Preparing(r, e);
    var b := a + [Advance(r)];
    var c := b + [Timeout(d)];
    NothingCommitted(s, LateWrite(r, e), d);
    ExecOne(s, a, Advance(r));
    ExecOne(s, b, Timeout(d));
    ExecOne(s, c, Advance(r));
    hide Exec, Next, LastCommitted, Preparing;
    Prepares(s, r, e, settings);
    TimesOut(Exec(s, a), r);
    WriteStep(Exec(s, c), r);
    hide Decimal, EditedConnection, Transactional;
    assert LateWrite(r, e)[..|LateWrite(r, e)|] == LateWrite(r, e);
    assert FallbackAt(Exec(s, LateWrite(r, e)), d) == Some(settings);
    NotSettled(s, LateWrite(r, e), d);
  }

  /** What a device falls back to moves by a confirmation or an unsafe write only, over any further run. */
  lemma {:induction false} FallbackStays(s: State, ls: seq<Label>, d: string)
    requires d in s.nm.devices
    requires forall n :: 0 <= n < |ls| ==> LandsSafely(Exec(s, ls[..n]), ls[n]) && !Confirms(Exec(s, ls[..n]), ls[n], d)
    ensures FallbackAt(Exec(s, ls), d) == FallbackAt(s, d)
    decreases |ls|
  {
    hide Next, LandsSafely, Confirms;
    if ls != [] {
      var init := ls[..|ls| - 1];
      assert forall n :: 0 <= n < |init| ==> init[..n] == ls[..n];
      FallbackStays(s, init, d);
      QuietStep(Exec(s, init), ls[|ls| - 1], d);
    }
  }

  lemma QuietStep(s: State, l: Label, d: string)
    requires d in s.nm.devices && LandsSafely(s, l) && !Confirms(s, l, d)
    ensures FallbackAt(Next(s, l), d) == FallbackAt(s, d)
  {
    StepDevices(s, l, d);
    hide Next, TakesEffect, Confirms, CheckpointPath, Decimal;
  }

  // ------------------------------------------------------------------ a write on another request's checkpoint

  /** Two requests are prepared, and the first one's checkpoint times out. */
  function FirstTimesOut(q: nat, mine: Edit, r: nat, other: Edit): seq<Label>
  {
    Preparing(q, mine) + Preparing(r, other) + [Advance(q)] + [Timeout(mine.device)]
  }

  function ForeignWrite(q: nat, mine: Edit, r: nat, other: Edit): seq<Label>
  {
    FirstTimesOut(q, mine, r, other) + [Advance(r)] + [Advance(r)] + [Advance(q)]
  }

  lemma AfterFirstTimesOut(s: State, q: nat, mine: Edit, x: Connection, r: nat, other: Edit, y: Connection)
    requires Initial(s) && Gives(s, mine, x) && Gives(s, other, y) && q != r && mine.device == other.device
    ensures var d, t := mine.device, Exec(s, FirstTimesOut(q, mine, r, other));
            && q in t.requests && t.requests[q] == Asked(mine, Guarded(x, Decimal(s.nm.created)))
            && r in t.requests && t.requests[r] == Asked(other, Prepared(y))
            && d in t.nm.devices && t.nm.devices[d].checkpoint.None?
            && RolledBack(d, Decimal(s.nm.created)) in t.log
  {
    var a := Preparing(q, mine) + Preparing(r, other);
    ExecAppend(s, Preparing(q, mine), Preparing(r, other));
    ExecOne(s, a, Advance(q));
    ExecOne(s, a + [Advance(q)], Timeout(mine.device));
    hide Exec, Next, Preparing;
    Prepares(s, q, mine, x);
    Prepares(Exec(s, Preparing(q, mine)), r, other, y);
    TimesOut(Exec(s, a), q);
    hide EditedConnection, Decimal, Gives;
  }

  /**
   * A late write lands on the checkpoint of another request: confirming that one makes the settings
   * of the first final, although its checkpoint timed out and was never confirmed.
   */
  lemma ForeignWriteIsConfirmed(s: State, q: nat, mine: Edit, x: Connection, r: nat, other: Edit, y: Connection)
    requires Initial(s) && Gives(s, mine, x) && Gives(s, other, y) && q != r && mine.device == other.device && x != y
    ensures var d, ls := mine.device, ForeignWrite(q, mine, r, other);
            var t := Exec(s, ls);
            && Proposes(t, r, d) && t.requests[r].stage.settings == y && WasRolledBack(t, q)
            && var done := Next(t, Commit(t.requests[r].stage.id));
            && d in done.nm.devices && done.nm.devices[d].profile == x && done.nm.devices[d].checkpoint.None?
            && LastCommitted(s, ls + [Commit(t.requests[r].stage.id)], d) == Some(y)
            && !Transactional(s, ls)
  {
    var c := FirstTimesOut(q, mine, r, other);
    ExecOne(s, c, Advance(r));
    ExecOne(s, c + [Advance(r)], Advance(r));
    ExecOne(s, c + [Advance(r)] + [Advance(r)], Advance(q));
    hide Exec, Next, LastCommitted, Transactional, FirstTimesOut, Decimal, CheckpointPath;
    AfterFirstTimesOut(s, q, mine, x, r, other, y);
    WritesOnForeign(Exec(s, c), q, r);
    var ls := ForeignWrite(q, mine, r, other);
    var t := Exec(s, ls);
    assert WasRolledBack(t, q);
    ForeignEnd(s, ls, q, r, mine.device, x, y);
  }

  /** One request makes a checkpoint and writes, then the other writes. */
  lemma WritesOnForeign(s: State, q: nat, r: nat)
    requires q in s.requests && r in s.requests && q != r
    requires s.requests[q].device == s.requests[r].device && s.requests[r].device in s.nm.devices
    requires s.requests[q].stage.Guarded? && s.requests[r].stage.Prepared? && s.nm.devices[s.requests[r].device].checkpoint.None?
    ensures var d, x, y := s.requests[r].device, s.requests[q].stage.settings, s.requests[r].stage.settings;
            var t := Next(Next(Next(s, Advance(r)), Advance(r)), Advance(q));
            && Proposes(t, r, d) && t.requests[r].stage.settings == y && t.nm.devices[d].profile == x
            && q in t.requests && t.requests[q] == s.requests[q].(stage := Saved(x, s.requests[q].stage.id))
            && forall e :: e in s.log ==> e in t.log
  {
    hide Next, Decimal, CheckpointPath;
    Creates(s, r);
    var a := Next(s, Advance(r));
    WriteStep(a, r);
    var b := Next(a, Advance(r));
    WriteStep(b, q);
  }

  lemma ForeignEnd(s: State, ls: seq<Label>, q: nat, r: nat, d: string, x: Connection, y: Connection)
    requires Initial(s) && x != y
    requires Proposes(Exec(s, ls), r, d) && Exec(s, ls).requests[r].stage.settings == y && Exec(s, ls).nm.devices[d].profile == x
    ensures var t := Exec(s, ls);
            var done := Next(t, Commit(t.requests[r].stage.id));
            && d in done.nm.devices && done.nm.devices[d].profile == x && done.nm.devices[d].checkpoint.None?
            && LastCommitted(s, ls + [Commit(t.requests[r].stage.id)], d) == Some(y)
            && !Transactional(s, ls)
  {
    var t := Exec(s, ls);
    var l := Commit(t.requests[r].stage.id);
    assert (ls + [l])[..|ls + [l]| - 1] == ls;
    hide Next, Exec;
    RunsKeepInv(s, ls);
    ProposalOf(t, r, d);
    StepDevices(t, l, d);
    if Transactional(s, ls) {
      assert ls[..|ls|] == ls && EndsWell(s, ls[..|ls|]);
      assert Settled(s, ls + [l]);
      ConfirmationShows(s, ls, d, l);
    }
  }

  // ------------------------------------------------------------------ a version read after the timeout

  function EarlyRollback(r: nat, e: Edit): seq<Label>
  {
    Preparing(r, e) + [Advance(r)] + [Advance(r)] + [Timeout(e.device)] + [Advance(r)]
  }

  /**
   * The request's own checkpoint times out between its write and its reading of the version: every
   * write landed safely, and still its re-apply puts the rolled-back settings into effect, beside a
   * profile that does not hold them.
   */
  lemma EarlyRollbackIsReintroduced(s: State, r: nat, e: Edit, settings: Connection)
    requires Initial(s) && Gives(s, e, settings)
    requires settings != s.nm.devices[e.device].profile && settings != s.nm.devices[e.device].applied
    ensures var d, ls := e.device, EarlyRollback(r, e) + [Advance(r)];
            var t := Exec(s, ls);
            && d in t.nm.devices && t.nm.devices[d].checkpoint.None? && WasRolledBack(t, r)
            && t.nm.devices[d].applied == settings && t.nm.devices[d].profile == s.nm.devices[d].profile != settings
            && Transactional(s, ls) && !FullyUndone(s, ls)
  {
    var d := e.device;
    var a := Preparing(r, e);
    var b := a + [Advance(r)];
    var c := b + [Advance(r)];
    var f := c + [Timeout(d)];
    var g := f + [Advance(r)];
    ExecOne(s, a, Advance(r));
    ExecOne(s, b, Advance(r));
    ExecOne(s, c, Timeout(d));
    ExecOne(s, f, Advance(r));
    ExecOne(s, g, Advance(r));
    hide Exec, Next, Preparing, FullyUndone;
    Prepares(s, r, e, settings);
    EarlyRollbackLandsSafely(s, a, r, d);
    Creates(Exec(s, a), r);
    WriteStep(Exec(s, b), r);
    TimeoutStep(Exec(s, c), d);
    ReadVersionStep(Exec(s, f), r);
    ReapplyStep(Exec(s, g), r);
    hide EditedConnection, Decimal, Gives;
    var ls := g + [Advance(r)];
    assert ls[..|g|] == g && ls[|g|] == Advance(r);
    FullyUndoneIff(s, ls);
    assert !MayTakeEffect(Exec(s, ls[..|g|]), ls[|g|]);
    hide AllLandSafely, MayTakeEffect, WasRolledBack;
    TransactionalIff(s, ls);
  }

  // ------------------------------------------------------------------ a profile read before it was confirmed

  /** Nothing deprecated is left after an edit, so that an empty one changes nothing any more. */
  lemma EmptyEditAfter(c: Connection, ipv4: Option<UpdateIpSettings>, ipv6: Option<UpdateIpSettings>, settings: Connection)
    requires EditedConnection(c, ipv4, ipv6) == Ok(settings)
    ensures EditedConnection(settings, None, None) == Ok(settings)
  {
    NoneDeprecated(c["ipv4"], ipv4);
    NoneDeprecated(c["ipv6"], ipv6);
    hide Edited;
    assert settings["ipv4" := settings["ipv4"]]["ipv6" := settings["ipv6"]] == settings;
  }

  lemma NoneDeprecated(settings: VariantObject, changes: Option<UpdateIpSettings>)
    ensures Edited(Edited(settings, changes), None) == Edited(settings, changes)
  {
    hide AddressDataVariant, StringsVariant, StringVariant;
    var after := Edited(settings, changes);
    forall k | k in DEPRECATED ensures k !in after {
      if changes.Some? { assert Lookup(after, k) == EntryAfter(settings - DEPRECATED, changes.value, k); }
    }
    hide Applied;
    assert after - DEPRECATED == after;
  }

  function Nothing(d: string): Edit
  {
    Edit(d, None, None)
  }

  /** One request has written under its checkpoint, and another one has read that. */
  function ReadEarly(q: nat, mine: Edit, r: nat): seq<Label>
  {
    Preparing(q, mine) + [Advance(q)] + [Advance(q)] + Preparing(r, Nothing(mine.device))
  }

  lemma AfterReadEarly(s: State, q: nat, mine: Edit, x: Connection, r: nat) returns (t: State)
    requires Initial(s) && Gives(s, mine, x) && q != r
    ensures OwnRun(s, ReadEarly(q, mine, r), t)
    ensures var d := mine.device;
            && d in t.nm.devices && t.nm.created == s.nm.created + 1 && Owns(t, q, d)
            && var dev := s.nm.devices[d];
            t.nm.devices[d] == dev.(profile := x, checkpoint := Some(Checkpoint(s.nm.created, dev.profile, dev.applied)))
            && t.requests.Keys == {q, r} && t.requests[r] == Asked(Nothing(d), Prepared(x))
            && t.requests[q] == Asked(mine, Saved(x, Decimal(s.nm.created)))
  {
    var d := mine.device;
    EmptyEditAfter(s.nm.devices[d].profile, mine.ipv4, mine.ipv6, x);
    t := AfterWrite(s, q, mine, x);
    hide OwnRun, Preparing, EditedConnection, Decimal, CheckpointPath, Initial, Owns;
    PreparingIsOwn(t, r, Nothing(d), x);
    OwnsBeside(t, q, r, Nothing(d), Prepared(x));
    var u := Standing(t, r, Nothing(d), Prepared(x));
    OwnRunsJoin(s, Preparing(q, mine) + [Advance(q)] + [Advance(q)], t, Preparing(r, Nothing(d)), u);
    t := u;
  }

  lemma OwnsBeside(s: State, q: nat, r: nat, e: Edit, stage: Stage)
    requires q != r && Past(s, q)
    ensures Owns(Standing(s, r, e, stage), q, s.requests[q].device) <==> Owns(s, q, s.requests[q].device)
  {
  }

  lemma AfterWrite(s: State, q: nat, mine: Edit, x: Connection) returns (t: State)
    requires Initial(s) && Gives(s, mine, x)
    ensures OwnRun(s, Preparing(q, mine) + [Advance(q)] + [Advance(q)], t)
    ensures var d := mine.device;
            && d in t.nm.devices && t.nm.created == s.nm.created + 1 && Owns(t, q, d)
            && var dev := s.nm.devices[d];
            t.nm.devices[d] == dev.(profile := x, checkpoint := Some(Checkpoint(s.nm.created, dev.profile, dev.applied)))
    ensures t.requests == map[q := Asked(mine, Saved(x, Decimal(s.nm.created)))]
  {
    hide OwnRun, Preparing, EditedConnection, Next, Decimal, OwnStep;
    PreparingIsOwn(s, q, mine, x);
    t := Standing(s, q, mine, Prepared(x));
    var run := Preparing(q, mine);
    CreatesAndWrites(t, q);
    OwnRunGrows(s, run, t, Advance(q));
    run, t := run + [Advance(q)], Next(t, Advance(q));
    OwnRunGrows(s, run, t, Advance(q));
    t := Next(t, Advance(q));
  }

  /** A prepared request makes its checkpoint and writes under it. */
  lemma CreatesAndWrites(s: State, r: nat)
    requires r in s.requests && s.requests[r].stage.Prepared? && s.requests[r].device in s.nm.devices
    requires s.nm.devices[s.requests[r].device].checkpoint.None?
    ensures var q := s.requests[r];
            var d, x, id := q.device, q.stage.settings, Decimal(s.nm.created);
            var made := Next(s, Advance(r));
            && OwnStep(s, Advance(r)) && OwnStep(made, Advance(r))
            && made.nm == Checkpointed(s, d) && made.requests == s.requests[r := q.(stage := Guarded(x, id))]
            && Next(made, Advance(r)) ==
                 State(Checkpointed(s, d).Update(d, x), s.requests[r := q.(stage := Saved(x, id))],
                       s.log + [CheckpointCreated(r, d)] + [ProfileWritten(r, d)])
  {
    hide Next, Decimal, CheckpointPath;
    Creates(s, r);
    WriteStep(Next(s, Advance(r)), r);
  }

  function ReadThenRolledBack(q: nat, mine: Edit, r: nat): seq<Label>
  {
    ReadEarly(q, mine, r) + [Advance(q)] + [Timeout(mine.device)]
  }

  /** The first request reads its version, and its checkpoint times out: the device is as it was. */
  lemma AfterReadThenRolledBack(s: State, q: nat, mine: Edit, x: Connection, r: nat) returns (t: State)
    requires Initial(s) && Gives(s, mine, x) && q != r
    ensures OwnRun(s, ReadThenRolledBack(q, mine, r), t)
    ensures var d, n := mine.device, s.nm.created;
            && d in t.nm.devices && t.nm.devices[d] == s.nm.devices[d].(version := s.nm.devices[d].version + 1)
            && t.nm.created == n + 1
            && t.requests.Keys == {q, r} && t.requests[r] == Asked(Nothing(d), Prepared(x))
            && t.requests[q].device == d && t.requests[q].stage.Scheduled? && t.requests[q].stage.id == Decimal(n)
            && RolledBack(d, Decimal(n)) in t.log
  {
    t := AfterReadEarly(s, q, mine, x, r);
    assert s.nm.devices[mine.device].checkpoint.None?;
    hide OwnRun, ReadEarly, Gives, Next, OwnStep, Owns, Decimal, CheckpointPath, Initial;
    ReadsThenTimesOut(t, q);
    OwnRunGrows(s, ReadEarly(q, mine, r), t, Advance(q));
    t := Next(t, Advance(q));
    OwnRunGrows(s, ReadEarly(q, mine, r) + [Advance(q)], t, Timeout(mine.device));
    t := Next(t, Timeout(mine.device));
  }

  lemma ReadsThenTimesOut(s: State, q: nat)
    requires q in s.requests && s.requests[q].stage.Saved? && Owns(s, q, s.requests[q].device)
    ensures var d := s.requests[q].device;
            var t := Next(Next(s, Advance(q)), Timeout(d));
            && OwnStep(s, Advance(q)) && OwnStep(Next(s, Advance(q)), Timeout(d))
            && d in t.nm.devices && t.nm.created == s.nm.created
            && var dev := s.nm.devices[d];
            t.nm.devices[d] == Device(dev.isActive, dev.checkpoint.value.profile, dev.checkpoint.value.applied, dev.version + 1, None)
            && t.requests == s.requests[q := s.requests[q].(stage := Scheduled(s.requests[q].stage.settings, s.requests[q].stage.id, s.nm.devices[d].version))]
            && RolledBack(d, Decimal(s.nm.devices[d].checkpoint.value.number)) in t.log
  {
    hide Next, Decimal, CheckpointPath;
    ReadVersionStep(s, q);
    TimeoutStep(Next(s, Advance(q)), s.requests[q].device);
  }

  function ToTheEnd(r: nat): seq<Label>
  {
    [Advance(r)] + [Advance(r)] + [Advance(r)] + [Advance(r)]
  }

  /** A prepared request alone: its settings are written and in effect, under its checkpoint. */
  lemma RunsToTheEnd(s: State, r: nat) returns (t: State)
    requires r in s.requests && s.requests[r].stage.Prepared? && s.requests[r].device in s.nm.devices
    requires s.nm.devices[s.requests[r].device].checkpoint.None?
    ensures OwnRun(s, ToTheEnd(r), t)
    ensures var q, d := s.requests[r], s.requests[r].device;
            && t.requests == s.requests[r := q.(stage := Finished(q.stage.settings, Decimal(s.nm.created), true))]
            && Proposes(t, r, d) && t.nm.devices[d].profile == t.nm.devices[d].applied == q.stage.settings
            && t.nm.devices[d].Fallback() == s.nm.devices[d].profile
            && forall e :: e in s.log ==> e in t.log
  {
    t := RunsToItsWrite(s, r);
    hide OwnRun, OwnStep, Next, Decimal, Owns;
    ReadsAndReapplies(t, r);
    OwnRunGrows(s, [Advance(r)] + [Advance(r)], t, Advance(r));
    t := Next(t, Advance(r));
    OwnRunGrows(s, [Advance(r)] + [Advance(r)] + [Advance(r)], t, Advance(r));
    t := Next(t, Advance(r));
  }

  lemma RunsToItsWrite(s: State, r: nat) returns (t: State)
    requires r in s.requests && s.requests[r].stage.Prepared? && s.requests[r].device in s.nm.devices
    requires s.nm.devices[s.requests[r].device].checkpoint.None?
    ensures OwnRun(s, [Advance(r)] + [Advance(r)], t)
    ensures var q, d := s.requests[r], s.requests[r].device;
            && t.requests == s.requests[r := q.(stage := Saved(q.stage.settings, Decimal(s.nm.created)))]
            && Owns(t, r, d) && t.nm.devices[d].profile == q.stage.settings && t.nm.devices[d].Fallback() == s.nm.devices[d].profile
            && forall e :: e in s.log ==> e in t.log
  {
    assert OwnRun(s, [], s) && [] + [Advance(r)] == [Advance(r)];
    hide OwnRun, OwnStep, Next, Decimal, CheckpointPath;
    CreatesAndWrites(s, r);
    OwnRunGrows(s, [], s, Advance(r));
    t := Next(s, Advance(r));
    OwnRunGrows(s, [Advance(r)], t, Advance(r));
    t := Next(t, Advance(r));
  }

  /** A request that has written under its checkpoint reads the version and re-applies. */
  lemma ReadsAndReapplies(s: State, r: nat)
    requires r in s.requests && s.requests[r].stage.Saved? && Owns(s, r, s.requests[r].device)
    ensures var q, d := s.requests[r], s.requests[r].device;
            var read := Next(s, Advance(r));
            var t := Next(read, Advance(r));
            && OwnStep(s, Advance(r)) && OwnStep(read, Advance(r))
            && t.requests == s.requests[r := q.(stage := Finished(q.stage.settings, q.stage.id, true))]
            && Proposes(t, r, d)
            && t.nm.devices[d] == s.nm.devices[d].(applied := q.stage.settings, version := s.nm.devices[d].version + 1)
            && forall e :: e in s.log ==> e in t.log
  {
    hide Next, Decimal, CheckpointPath;
    ReadVersionStep(s, r);
    ReapplyStep(Next(s, Advance(r)), r);
  }

  function DirtyRead(q: nat, mine: Edit, r: nat): seq<Label>
  {
    ReadThenRolledBack(q, mine, r) + ToTheEnd(r)
  }

  lemma AfterDirtyRead(s: State, q: nat, mine: Edit, x: Connection, r: nat) returns (t: State)
    requires Initial(s) && Gives(s, mine, x) && q != r
    ensures OwnRun(s, DirtyRead(q, mine, r), t)
    ensures var d := mine.device;
            && q in t.requests && WasRolledBack(t, q)
            && Proposes(t, r, d) && EditOf(t.requests[r]) == Nothing(d) && t.requests[r].stage.id == Decimal(s.nm.created + 1)
            && t.nm.devices[d].profile == t.nm.devices[d].applied == x
  {
    var u := AfterReadThenRolledBack(s, q, mine, x, r);
    hide OwnRun, ReadThenRolledBack, ToTheEnd, Gives, Decimal, CheckpointPath, Initial, Owns;
    t := RunsToTheEnd(u, r);
    OwnRunsJoin(s, ReadThenRolledBack(q, mine, r), u, ToTheEnd(r), t);
  }

  /** Without a commit, nothing was confirmed. */
  lemma {:induction false} NothingConfirmed(s: State, ls: seq<Label>, d: string)
    requires forall i :: 0 <= i < |ls| ==> !ls[i].Commit?
    ensures ConfirmedEdits(s, ls, d) == []
    decreases |ls|
  {
    hide Exec;
    if ls != [] { NothingConfirmed(s, ls[..|ls| - 1], d); }
  }

  /**
   * A request that asks for nothing reads what another one has written and not confirmed, and carries
   * it along: the other one's checkpoint times out, this one's is confirmed, and the rolled-back
   * settings are in the profile and in effect for good. All writes and readings come under their own
   * checkpoints, and the run is transactional and, by what was put into effect by whom, fully undone.
   */
  lemma DirtyReadIsConfirmed(s: State, q: nat, mine: Edit, x: Connection, r: nat)
    requires Initial(s) && Gives(s, mine, x) && q != r
    requires x != EditedBy(s.nm.devices[mine.device].profile, Nothing(mine.device))
    ensures var d, ls := mine.device, DirtyRead(q, mine, r) + [Commit(Decimal(s.nm.created + 1))];
            var t := Exec(s, ls);
            && AllOwn(s, ls) && Transactional(s, ls) && FullyUndone(s, ls) && WasRolledBack(t, q)
            && d in t.nm.devices && t.nm.devices[d].checkpoint.None?
            && t.nm.devices[d].profile == t.nm.devices[d].applied == x
            && ConfirmedEdits(s, ls, d) == [Nothing(d)] && !Serial(s, ls) && !AllBuildOn(s, ls)
  {
    NothingConfirmed(s, DirtyRead(q, mine, r), mine.device);
    hide OwnRun, DirtyRead, Exec, Next, EditedBy, WasRolledBack, Serial, Transactional, FullyUndone, AllOwn, AllBuildOn, Initial, ConfirmedEdits, Owns, Decimal, EditedConnection;
    var before := AfterDirtyRead(s, q, mine, x, r);
    DirtyEnd(s, DirtyRead(q, mine, r), before, q, r, mine.device, x);
  }

  lemma DirtyEnd(s: State, dirty: seq<Label>, before: State, q: nat, r: nat, d: string, x: Connection)
    requires Initial(s) && OwnRun(s, dirty, before) && Past(before, q) && WasRolledBack(before, q)
    requires Proposes(before, r, d) && EditOf(before.requests[r]) == Nothing(d)
    requires before.nm.devices[d].profile == before.nm.devices[d].applied == x
    requires ConfirmedEdits(s, dirty, d) == []
    requires d in s.nm.devices && x != EditedBy(s.nm.devices[d].profile, Nothing(d))
    ensures var ls := dirty + [Commit(before.requests[r].stage.id)];
            var t := Exec(s, ls);
            && AllOwn(s, ls) && Transactional(s, ls) && FullyUndone(s, ls) && WasRolledBack(t, q)
            && d in t.nm.devices && t.nm.devices[d].checkpoint.None?
            && t.nm.devices[d].profile == t.nm.devices[d].applied == x
            && ConfirmedEdits(s, ls, d) == [Nothing(d)] && !Serial(s, ls) && !AllBuildOn(s, ls)
  {
    var l := Commit(before.requests[r].stage.id);
    var ls := dirty + [l];
    assert ls[..|ls| - 1] == dirty && ls[..|ls|] == ls;
    OwnRunGrows(s, dirty, before, l);
    RunsKeepInv(s, dirty);
    OpenEditOf(before, r, d);
    OneEdit(s.nm.devices[d].profile, Nothing(d));
    assert SerialAt(s, ls, d) == Some(EditedBy(s.nm.devices[d].profile, Nothing(d)));
    hide Exec, Next, Inv, SerialAt, ConfirmedEdits, OpenEdits, EditedBy, WasRolledBack, AllOwn, AllLandSafely, AllBuildOn, Transactional, FullyUndone;
    StepDevices(before, l, d);
    StepRollsBack(before, l, q);
    OwnStepsSuffice(s, ls);
    hide Initial, CheckpointPath, Decimal;
    assert FallbackAt(Exec(s, ls), d) != SerialAt(s, ls, d);
    NotSerial(s, ls, d);
  }

  lemma NotSerial(s: State, ls: seq<Label>, d: string)
    requires Initial(s) && AllOwn(s, ls) && FallbackAt(Exec(s, ls), d) != SerialAt(s, ls, d)
    ensures !Serial(s, ls) && !AllBuildOn(s, ls)
  {
    assert ls[..|ls|] == ls;
    hide Exec, SerialAt, AllOwn, AllLandSafely, AllBuildOn, Transactional, FullyUndone;
    assert !SettledSerially(s, ls[..|ls|]);
    if AllBuildOn(s, ls) {
      OwnStepsSuffice(s, ls);
      BuildingOnSuffices(s, ls);
    }
  }

  // ------------------------------------------------------------------ a profile read before another confirmation

  /** One request has read the profile; another one reads it, runs to its end and is confirmed; the first one goes on. */
  function LostUpdate(r: nat, other: Edit, q: nat, mine: Edit, id: string): seq<Label>
  {
    Preparing(r, other) + Preparing(q, mine) + ToTheEnd(q) + [Commit(id)] + ToTheEnd(r)
  }

  lemma BothPrepare(s: State, r: nat, other: Edit, y: Connection, q: nat, mine: Edit, x: Connection)
    requires Gives(s, other, y) && Gives(s, mine, x) && q != r && q !in s.requests && r !in s.requests
    ensures OwnRun(s, Preparing(r, other) + Preparing(q, mine), Standing(Standing(s, r, other, Prepared(y)), q, mine, Prepared(x)))
  {
    var u := Standing(s, r, other, Prepared(y));
    assert Gives(u, mine, x) && q !in u.requests;
    hide OwnRun, Preparing, Gives, Standing;
    PreparingIsOwn(s, r, other, y);
    PreparingIsOwn(u, q, mine, x);
    OwnRunsJoin(s, Preparing(r, other), u, Preparing(q, mine), Standing(u, q, mine, Prepared(x)));
  }

  /** A prepared request alone, confirmed: its settings are in the profile, and no checkpoint is left. */
  lemma RunsAndIsConfirmed(s: State, q: nat) returns (t: State)
    requires q in s.requests && s.requests[q].stage.Prepared? && s.requests[q].device in s.nm.devices
    requires s.nm.devices[s.requests[q].device].checkpoint.None?
    ensures OwnRun(s, ToTheEnd(q) + [Commit(Decimal(s.nm.created))], t)
    ensures var d := s.requests[q].device;
            && d in t.nm.devices && t.nm.devices[d].checkpoint.None? && t.nm.devices[d].profile == s.requests[q].stage.settings
            && t.requests.Keys == s.requests.Keys && forall r :: r in s.requests && r != q ==> t.requests[r] == s.requests[r]
  {
    hide OwnRun, ToTheEnd, Next, Decimal, CheckpointPath;
    var end := RunsToTheEnd(s, q);
    var l := Commit(Decimal(s.nm.created));
    OwnRunGrows(s, ToTheEnd(q), end, l);
    StepDevices(end, l, s.requests[q].device);
    CommitKeepsRequests(end, l);
    t := Next(end, l);
  }

  lemma Associates(a: seq<Label>, b: seq<Label>, c: seq<Label>)
    ensures a + (b + c) == a + b + c
  {
  }

  lemma AfterConfirmed(s: State, r: nat, other: Edit, y: Connection, q: nat, mine: Edit, x: Connection) returns (t: State)
    requires Initial(s) && Gives(s, other, y) && Gives(s, mine, x) && q != r && mine.device == other.device
    ensures OwnRun(s, Preparing(r, other) + Preparing(q, mine) + ToTheEnd(q) + [Commit(Decimal(s.nm.created))], t)
    ensures var d := mine.device;
            && r in t.requests && t.requests[r] == Asked(other, Prepared(y))
            && d in t.nm.devices && t.nm.devices[d].checkpoint.None? && t.nm.devices[d].profile == x
  {
    assert mine.device in s.nm.devices && s.nm.devices[mine.device].checkpoint.None?;
    var start := Preparing(r, other) + Preparing(q, mine);
    hide OwnRun, Preparing, ToTheEnd, Decimal, Initial, Gives;
    BothPrepare(s, r, other, y, q, mine, x);
    var u := Standing(Standing(s, r, other, Prepared(y)), q, mine, Prepared(x));
    t := RunsAndIsConfirmed(u, q);
    OwnRunsJoin(s, start, u, ToTheEnd(q) + [Commit(Decimal(s.nm.created))], t);
    Associates(start, ToTheEnd(q), [Commit(Decimal(s.nm.created))]);
  }

  lemma CommitKeepsRequests(s: State, l: Label)
    requires l.Commit?
    ensures Next(s, l).requests == s.requests
  {
    hide Manager.CheckpointDestroy, CheckpointPath;
  }

  /**
   * A request goes on with the edit of a profile it read before another request was confirmed: its
   * checkpoint is over the confirmed settings, and confirming it puts its edit of the older profile in
   * their place.
   */
  lemma UpdateIsLost(s: State, r: nat, other: Edit, y: Connection, q: nat, mine: Edit, x: Connection)
    requires Initial(s) && Gives(s, other, y) && Gives(s, mine, x) && q != r && mine.device == other.device
    requires y != EditedBy(x, other)
    ensures var d, ls := mine.device, LostUpdate(r, other, q, mine, Decimal(s.nm.created));
            var t := Exec(s, ls);
            && AllOwn(s, ls) && Transactional(s, ls) && FullyUndone(s, ls)
            && Proposes(t, r, d) && t.nm.devices[d].Fallback() == x && t.nm.devices[d].profile == y
            && !Serial(s, ls) && !AllBuildOn(s, ls)
  {
    var d, ls := mine.device, LostUpdate(r, other, q, mine, Decimal(s.nm.created));
    var u := AfterConfirmed(s, r, other, y, q, mine, x);
    hide Preparing, EditedConnection, Decimal, CheckpointPath, Initial, Gives, Owns, EditedBy, Next;
    var t := RunsToTheEnd(u, r);
    OwnRunsJoin(s, Preparing(r, other) + Preparing(q, mine) + ToTheEnd(q) + [Commit(Decimal(s.nm.created))], u, ToTheEnd(r), t);
    assert OwnRun(s, ls, t);
    hide Exec, AllOwn, LostUpdate, Serial, AllBuildOn, Transactional, FullyUndone;
    OwnStepsSuffice(s, ls);
    OffersAnother(s, ls, t, r, d, other);
  }

  lemma OffersAnother(s: State, ls: seq<Label>, t: State, r: nat, d: string, other: Edit)
    requires Initial(s) && OwnRun(s, ls, t) && Proposes(t, r, d) && EditOf(t.requests[r]) == other
    requires t.nm.devices[d].profile != EditedBy(t.nm.devices[d].Fallback(), other)
    ensures !Serial(s, ls) && !AllBuildOn(s, ls)
  {
    hide Exec, EditedBy, SettledSerially, AllOwn, AllBuildOn, EndsSerially, AllLandSafely, Transactional, FullyUndone;
    RunsKeepInv(s, ls);
    OpenEditOf(t, r, d);
    OneEdit(t.nm.devices[d].Fallback(), other);
    assert !OffersIntended(t);
    assert ls[..|ls|] == ls;
    if SettledSerially(s, ls) { EndsSeriallyIff(s, ls); }
    if AllBuildOn(s, ls) {
      OwnStepsSuffice(s, ls);
      BuildingOnSuffices(s, ls);
    }
  }
}

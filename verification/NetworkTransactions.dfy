/**
 * The try / confirm / roll back protocol of network updates as a labelled transition system: any
 * number of requests in flight, each stopped at one of its awaits, beside commits, timeouts and
 * changes from elsewhere. A run is any sequence of labels; a label that does not apply does nothing.
 */
module NetworkTransactions {
  import opened Wrappers
  import opened ConnectionSettingsAdapter
  import opened NetworkManager

  datatype Reason = NoDevice | NotActive | Malformed | Invalid(error: SettingsError) | Refused | CallFailed

  /** Where a request is, and what it carries across the await it is stopped at. */
  datatype Stage =
    | Started
    | Found
    | Resolved
    | Prepared(settings: Connection)
    | Guarded(settings: Connection, id: string)
    | Saved(settings: Connection, id: string)
    | Scheduled(settings: Connection, id: string, version: nat)
    | Finished(settings: Connection, id: string, applied: bool)
    | FailedBefore(reason: Reason)
    | FailedAfter(settings: Connection, id: string, saved: bool)

  datatype Request = Request(device: string, ipv4: Option<UpdateIpSettings>, ipv6: Option<UpdateIpSettings>, stage: Stage)

  datatype Event =
    | CheckpointCreated(r: nat, device: string)
    | ProfileWritten(r: nat, device: string)
    | SettingsApplied(r: nat, device: string)
    | CheckpointEnded(id: string)
    | RolledBack(device: string, id: string)
    | AppliedElsewhere(device: string)
  {
    predicate By(request: nat)
    {
      (CheckpointCreated? || ProfileWritten? || SettingsApplied?) && r == request
    }
  }

  datatype State = State(nm: Manager, requests: map<nat, Request>, log: seq<Event>)

  datatype Label =
    | Begin(r: nat, device: string, ipv4: Option<UpdateIpSettings>, ipv6: Option<UpdateIpSettings>)
    | Advance(r: nat)                                   // the request runs to its next await
    | Fail(r: nat)                                      // the bus call it waits for is rejected
    | Commit(id: string)
    | Timeout(device: string)
    | Activate(device: string, settings: Connection)

  /** Both halves are edited on a private copy; one invalid half rejects the whole change. */
  function EditedConnection(current: Connection, ipv4: Option<UpdateIpSettings>, ipv6: Option<UpdateIpSettings>)
    : (r: Result<Connection, Reason>)
  {
    if "ipv4" !in current then Err(Malformed)
    else if ipv4.Some? && !ipv4.value.Accepted() then Err(Invalid(Rejection(ipv4.value)))
    else if "ipv6" !in current then Err(Malformed)
    else if ipv6.Some? && !ipv6.value.Accepted() then Err(Invalid(Rejection(ipv6.value)))
    else Ok(current["ipv4" := Edited(current["ipv4"], ipv4)]["ipv6" := Edited(current["ipv6"], ipv6)])
  }

  function Rejection(c: UpdateIpSettings): SettingsError
  {
    if c.HasAddress() then NoGateway else NoStaticIp
  }

  function Edited(settings: VariantObject, changes: Option<UpdateIpSettings>): VariantObject
  {
    if changes.Some? then Applied(settings - DEPRECATED, changes.value) else settings - DEPRECATED
  }

  function Move(s: State, r: nat, stage: Stage): State
    requires r in s.requests
  {
    s.(requests := s.requests[r := s.requests[r].(stage := stage)])
  }

  function Effect(s: State, nm: Manager, e: Event): State
  {
    s.(nm := nm, log := s.log + [e])
  }

  function Next(s: State, l: Label): State
  {
    match l
    case Begin(r, d, ipv4, ipv6) =>
      if r in s.requests then s else s.(requests := s.requests[r := Request(d, ipv4, ipv6, Started)])
    case Advance(r) =>
      if r in s.requests then AdvanceRequest(s, r) else s
    case Fail(r) =>
      if r !in s.requests then s else
        (match s.requests[r].stage
         case Started | Found | Resolved | Prepared(_) => Move(s, r, FailedBefore(CallFailed))
         case Guarded(settings, id) => Move(s, r, FailedAfter(settings, id, false))
         case Saved(settings, id) => Move(s, r, FailedAfter(settings, id, true))
         case Scheduled(settings, id, _) => Move(s, r, Finished(settings, id, false))
         case _ => s)
    case Commit(id) =>
      var nm := s.nm.CheckpointDestroy(CheckpointPath(id));
      if nm.Some? then Effect(s, nm.value, CheckpointEnded(id)) else s
    case Timeout(d) =>
      if d in s.nm.devices && s.nm.devices[d].checkpoint.Some?
      then Effect(s, s.nm.Rollback(d), RolledBack(d, Decimal(s.nm.devices[d].checkpoint.value.number))) else s
    case Activate(d, settings) =>
      if d in s.nm.devices then Effect(s, s.nm.Activate(d, settings), AppliedElsewhere(d)) else s
  }

  function AdvanceRequest(s: State, r: nat): State
    requires r in s.requests
  {
    var q := s.requests[r];
    if q.device !in s.nm.devices then (if q.stage.Started? then Move(s, r, FailedBefore(NoDevice)) else s) else
      var dev := s.nm.devices[q.device];
      match q.stage
      case Started => Move(s, r, Found)
      case Found => Move(s, r, if dev.isActive then Resolved else FailedBefore(NotActive))
      case Resolved =>
        (match EditedConnection(dev.profile, q.ipv4, q.ipv6)
         case Ok(settings) => Move(s, r, Prepared(settings))
         case Err(reason) => Move(s, r, FailedBefore(reason)))
      case Prepared(settings) =>
        (match s.nm.CheckpointCreate(q.device)
         case None => Move(s, r, FailedBefore(Refused))
         case Some(nm) =>
           Effect(Move(s, r, Guarded(settings, CheckpointId(CheckpointPath(Decimal(s.nm.created))))), nm,
                  CheckpointCreated(r, q.device)))
      case Guarded(settings, id) =>
        Effect(Move(s, r, Saved(settings, id)), s.nm.Update(q.device, settings), ProfileWritten(r, q.device))
      case Saved(settings, id) => Move(s, r, Scheduled(settings, id, dev.version))
      case Scheduled(settings, id, version) =>
        (match s.nm.Reapply(q.device, settings, version)
         case None => Move(s, r, Finished(settings, id, false))
         case Some(nm) => Effect(Move(s, r, Finished(settings, id, true)), nm, SettingsApplied(r, q.device)))
      case _ => s
  }

  function Exec(s: State, ls: seq<Label>): State
  {
    if ls == [] then s else Next(Exec(s, ls[..|ls| - 1]), ls[|ls| - 1])
  }

  ghost predicate Initial(s: State)
  {
    s.nm.Valid() && s.requests == map[] && s.log == [] && forall d :: d in s.nm.devices ==> s.nm.devices[d].checkpoint.None?
  }

  function DeviceAt(s: State, d: string): Option<Device>
  {
    if d in s.nm.devices then Some(s.nm.devices[d]) else None
  }

  predicate At(s: State, r: nat, q: Request)
  {
    r in s.requests && s.requests[r] == q
  }

  lemma {:induction false} ExecAppend(s: State, ls: seq<Label>, ms: seq<Label>)
    ensures Exec(s, ls + ms) == Exec(Exec(s, ls), ms)
    decreases |ms|
  {
    hide Next;
    if ms == [] {
      assert ls + ms == ls;
    } else {
      ExecAppend(s, ls, ms[..|ms| - 1]);
      assert (ls + ms)[..|ls + ms| - 1] == ls + ms[..|ms| - 1];
    }
  }

  // ------------------------------------------------------------------ what a step does to NetworkManager

  /** Every step makes one NetworkManager call at most. */
  lemma StepMoves(s: State, l: Label)
    requires s.nm.Valid()
    ensures Moves(s.nm, Next(s, l).nm)
  {
    NothingMoves(s.nm);
    match l
    case Advance(r) =>
      if r in s.requests { AdvanceMoves(s, r); }
    case Commit(id) => DestroyMoves(s.nm, CheckpointPath(id));
    case Timeout(d) =>
      if d in s.nm.devices { RollbackMoves(s.nm, d); }
    case Activate(d, settings) =>
      if d in s.nm.devices { ActivateMoves(s.nm, d, settings); }
    case _ =>
  }

  lemma AdvanceMoves(s: State, r: nat)
    requires s.nm.Valid() && r in s.requests
    ensures Moves(s.nm, AdvanceRequest(s, r).nm)
  {
    hide Moves;
    NothingMoves(s.nm);
    var q := s.requests[r];
    if q.device in s.nm.devices {
      match q.stage
      case Prepared(_) => CreateMoves(s.nm, q.device);
      case Guarded(settings, _) => UpdateMoves(s.nm, q.device, settings);
      case Scheduled(settings, _, version) => ReapplyMoves(s.nm, q.device, settings, version);
      case _ =>
    }
  }

  /** Over a whole run: devices stay, versions track what is applied, and a live checkpoint's snapshot does not move. */
  ghost predicate RunMoves(m: Manager, n: Manager)
  {
    && n.Valid() && n.devices.Keys == m.devices.Keys && n.created >= m.created
    && forall d :: d in m.devices ==> DeviceRunMoves(m.devices[d], n.devices[d], m.created)
  }

  ghost predicate DeviceRunMoves(a: Device, b: Device, created: nat)
  {
    && b.version >= a.version
    && (b.version == a.version ==> b.applied == a.applied)
    && (b.checkpoint.Some? && b.checkpoint != a.checkpoint ==> b.checkpoint.value.number >= created)
  }

  lemma {:induction false} RunsMove(s: State, ls: seq<Label>)
    requires s.nm.Valid()
    ensures RunMoves(s.nm, Exec(s, ls).nm)
    decreases |ls|
  {
    hide Next;
    if ls != [] {
      var before, l := Exec(s, ls[..|ls| - 1]), ls[|ls| - 1];
      RunsMove(s, ls[..|ls| - 1]);
      StepMoves(before, l);
      forall d | d in s.nm.devices ensures DeviceRunMoves(s.nm.devices[d], Exec(s, ls).nm.devices[d], s.nm.created) {
        assert DeviceRunMoves(s.nm.devices[d], before.nm.devices[d], s.nm.created);
        assert DeviceMoves(before.nm.devices[d], Next(before, l).nm.devices[d], before.nm.created);
      }
    }
  }

  // ------------------------------------------------------------------ what a step does to a request

  lemma BeginStep(s: State, r: nat, device: string, ipv4: Option<UpdateIpSettings>, ipv6: Option<UpdateIpSettings>)
    requires r !in s.requests
    ensures Next(s, Begin(r, device, ipv4, ipv6)) == s.(requests := s.requests[r := Request(device, ipv4, ipv6, Started)])
  {
  }

  lemma StartStep(s: State, r: nat)
    requires r in s.requests && s.requests[r].stage.Started?
    ensures Next(s, Advance(r)) == Move(s, r, if s.requests[r].device in s.nm.devices then Found else FailedBefore(NoDevice))
  {
  }

  lemma FoundStep(s: State, r: nat)
    requires r in s.requests && s.requests[r].stage.Found? && s.requests[r].device in s.nm.devices
    ensures Next(s, Advance(r)) == Move(s, r, if s.nm.devices[s.requests[r].device].isActive then Resolved else FailedBefore(NotActive))
  {
  }

  lemma EditStep(s: State, r: nat)
    requires r in s.requests && s.requests[r].stage.Resolved? && s.requests[r].device in s.nm.devices
    ensures var q := s.requests[r];
            var edited := EditedConnection(s.nm.devices[q.device].profile, q.ipv4, q.ipv6);
            Next(s, Advance(r)) == Move(s, r, if edited.Ok? then Prepared(edited.value) else FailedBefore(edited.error))
  {
  }

  lemma CreateStep(s: State, r: nat)
    requires r in s.requests && s.requests[r].stage.Prepared? && s.requests[r].device in s.nm.devices
    requires s.nm.devices[s.requests[r].device].checkpoint.None?
    ensures var q := s.requests[r];
            var nm := s.nm.CheckpointCreate(q.device);
            var id := CheckpointId(CheckpointPath(Decimal(s.nm.created)));
            nm.Some? && Next(s, Advance(r)) ==
              State(nm.value, s.requests[r := q.(stage := Guarded(q.stage.settings, id))], s.log + [CheckpointCreated(r, q.device)])
  {
  }

  lemma WriteStep(s: State, r: nat)
    requires r in s.requests && s.requests[r].stage.Guarded? && s.requests[r].device in s.nm.devices
    ensures var q := s.requests[r];
            Next(s, Advance(r)) ==
              State(s.nm.Update(q.device, q.stage.settings),
                    s.requests[r := q.(stage := Saved(q.stage.settings, q.stage.id))], s.log + [ProfileWritten(r, q.device)])
  {
  }

  lemma ReadVersionStep(s: State, r: nat)
    requires r in s.requests && s.requests[r].stage.Saved? && s.requests[r].device in s.nm.devices
    ensures var q := s.requests[r];
            Next(s, Advance(r)) ==
              s.(requests := s.requests[r := q.(stage := Scheduled(q.stage.settings, q.stage.id, s.nm.devices[q.device].version))])
  {
  }

  lemma ReapplyStep(s: State, r: nat)
    requires r in s.requests && s.requests[r].stage.Scheduled? && s.requests[r].device in s.nm.devices
    ensures var q := s.requests[r];
            var nm := s.nm.Reapply(q.device, q.stage.settings, q.stage.version);
            Next(s, Advance(r)) ==
              if nm.None? then s.(requests := s.requests[r := q.(stage := Finished(q.stage.settings, q.stage.id, false))])
              else State(nm.value, s.requests[r := q.(stage := Finished(q.stage.settings, q.stage.id, true))], s.log + [SettingsApplied(r, q.device)])
  {
  }

  lemma FailStep(s: State, r: nat)
    requires r in s.requests && (s.requests[r].stage.Guarded? || s.requests[r].stage.Saved?)
    ensures var stage := s.requests[r].stage;
            Next(s, Fail(r)) == Move(s, r, FailedAfter(stage.settings, stage.id, stage.Saved?))
  {
  }

  lemma TimeoutStep(s: State, d: string)
    requires d in s.nm.devices && s.nm.devices[d].checkpoint.Some?
    ensures Next(s, Timeout(d)) ==
              State(s.nm.Rollback(d), s.requests, s.log + [RolledBack(d, Decimal(s.nm.devices[d].checkpoint.value.number))])
  {
  }

  lemma CommitStep(s: State, id: string)
    ensures Next(s, Commit(id)).nm == (var nm := s.nm.CheckpointDestroy(CheckpointPath(id)); if nm.Some? then nm.value else s.nm)
  {
  }

  // ------------------------------------------------------------------ the log

  predicate PastCheckpoint(stage: Stage)
  {
    stage.Guarded? || stage.Saved? || stage.Scheduled? || stage.Finished? || stage.FailedAfter?
  }

  predicate Past(s: State, r: nat)
  {
    r in s.requests && PastCheckpoint(s.requests[r].stage)
  }

  ghost predicate NoEventBy(log: seq<Event>, r: nat)
  {
    forall i :: 0 <= i < |log| ==> !log[i].By(r)
  }

  /** A request past its checkpoint has created one; before that it has done nothing to NetworkManager. */
  ghost predicate RequestLogged(s: State, r: nat)
  {
    if Past(s, r)
    then CheckpointCreated(r, s.requests[r].device) in s.log
    else NoEventBy(s.log, r)
  }

  /** A profile write comes after a checkpoint of the same request on the same device. */
  ghost predicate WriteIsCovered(log: seq<Event>, i: int)
  {
    0 <= i < |log| && log[i].ProfileWritten? ==> CheckpointCreated(log[i].r, log[i].device) in log[..i]
  }

  /** The id a request holds names a checkpoint that no other device can hold. */
  ghost predicate OwnsId(nm: Manager, device: string, id: string)
  {
    exists n: nat :: OwnsNumber(nm, device, n) && id == Decimal(n)
  }

  ghost predicate OwnsNumber(nm: Manager, device: string, n: nat)
  {
    n < nm.created
    && forall d :: d in nm.devices && nm.devices[d].checkpoint.Some? && nm.devices[d].checkpoint.value.number == n ==> d == device
  }

  ghost predicate RequestOwnsId(s: State, r: nat)
  {
    Past(s, r) ==> OwnsId(s.nm, s.requests[r].device, s.requests[r].stage.id)
  }

  /** No two requests hold the same id. */
  ghost predicate OneOwner(s: State, q: nat, r: nat)
  {
    Past(s, q) && Past(s, r) && s.requests[q].stage.id == s.requests[r].stage.id ==> q == r
  }

  ghost predicate Inv(s: State)
  {
    && s.nm.Valid()
    && (forall q, r :: OneOwner(s, q, r))
    && (forall r :: RequestLogged(s, r))
    && (forall r :: RequestOwnsId(s, r))
    && (forall i :: WriteIsCovered(s.log, i))
  }

  /** Where one step can take a request, and the event it logs for it. */
  ghost predicate RequestMoves(s: State, t: State, r: nat)
  {
    && (Past(s, r) ==>
          && Past(t, r)
          && t.requests[r].device == s.requests[r].device && t.requests[r].stage.id == s.requests[r].stage.id)
    && (Past(t, r) && !Past(s, r) ==>
          && t.log == s.log + [CheckpointCreated(r, t.requests[r].device)]
          && t.requests[r].device in s.nm.devices
          && t.requests[r].stage.id == CheckpointId(CheckpointPath(Decimal(s.nm.created)))
          && t.nm == Manager(s.nm.devices[t.requests[r].device := s.nm.devices[t.requests[r].device].(checkpoint :=
               Some(Checkpoint(s.nm.created, s.nm.devices[t.requests[r].device].profile, s.nm.devices[t.requests[r].device].applied)))], s.nm.created + 1))
  }

  lemma StepMovesRequest(s: State, l: Label, r: nat)
    ensures RequestMoves(s, Next(s, l), r)
  {
    if l.Advance? && l.r in s.requests {
      AdvanceMovesRequest(s, l.r, r);
      hide RequestMoves, AdvanceRequest;
    } else {
      hide AdvanceRequest, Manager.CheckpointDestroy, Manager.Rollback, Manager.Activate;
    }
  }

  lemma AdvanceMovesRequest(s: State, moving: nat, r: nat)
    requires moving in s.requests
    ensures RequestMoves(s, AdvanceRequest(s, moving), r)
  {
    hide EditedConnection, Manager.Update, Manager.Reapply, CheckpointId, CheckpointPath;
  }

  /** Every effect on NetworkManager is logged as one event, under the request that caused it. */
  ghost predicate Logs(s: State, l: Label, t: State)
  {
    || (t.nm == s.nm && t.log == s.log)
    || (&& |t.log| == |s.log| + 1 && s.log <= t.log
        && forall r :: t.log[|s.log|].By(r) ==>
             && l == Advance(r) && Past(t, r)
             && t.log[|s.log|].device == t.requests[r].device
             && (t.log[|s.log|].ProfileWritten? ==> Past(s, r)))
  }

  lemma StepLogs(s: State, l: Label)
    ensures Logs(s, l, Next(s, l))
  {
  }

  lemma AdvanceLogsItself(s: State, r: nat)
    ensures var t := Next(s, Advance(r)); t.nm == s.nm || (|t.log| == |s.log| + 1 && t.log[|s.log|].By(r))
  {
  }

  lemma StepKeepsInv(s: State, l: Label)
    requires Inv(s)
    ensures Inv(Next(s, l))
  {
    hide Next;
    var t := Next(s, l);
    StepMoves(s, l);
    StepLogs(s, l);
    forall r ensures RequestLogged(t, r) && RequestOwnsId(t, r) {
      StepMovesRequest(s, l, r);
      assert RequestLogged(s, r) && RequestOwnsId(s, r);
      assert t.log == s.log || t.log[..|s.log|] == s.log;
      OwnershipStays(s, t, r);
    }
    forall q, r ensures OneOwner(t, q, r) { OneOwnerStays(s, l, q, r); }
    forall i ensures WriteIsCovered(t.log, i) {
      assert WriteIsCovered(s.log, i);
      if 0 <= i < |s.log| {
        assert t.log[..i] == s.log[..i];
      } else if i == |s.log| && i < |t.log| && t.log[i].ProfileWritten? {
        assert RequestLogged(s, t.log[i].r) && t.log[..i] == s.log && t.log[i].By(t.log[i].r);
        StepMovesRequest(s, l, t.log[i].r);
      }
    }
  }

  lemma OneOwnerStays(s: State, l: Label, q: nat, r: nat)
    requires Inv(s)
    ensures OneOwner(Next(s, l), q, r)
  {
    hide Next;
    var t := Next(s, l);
    StepMovesRequest(s, l, q);
    StepMovesRequest(s, l, r);
    assert OneOwner(s, q, r);
    if !Past(t, q) || !Past(t, r) {
    } else if Past(s, q) {
      if !Past(s, r) { NewIdIsFresh(s, t, q, r); }
    } else if Past(s, r) {
      NewIdIsFresh(s, t, r, q);
    } else {
      assert t.log[|s.log|] == CheckpointCreated(q, t.requests[q].device) == CheckpointCreated(r, t.requests[r].device);
    }
  }

  /** A checkpoint made now gets an id nobody holds. */
  lemma NewIdIsFresh(s: State, t: State, old_: nat, new_: nat)
    requires Inv(s) && RequestMoves(s, t, old_) && RequestMoves(s, t, new_)
    requires Past(s, old_)
    requires Past(t, new_)
    requires !Past(s, new_)
    ensures t.requests[new_].stage.id == Decimal(s.nm.created) != t.requests[old_].stage.id
  {
    CheckpointIdRoundTrip(Decimal(s.nm.created));
    assert RequestOwnsId(s, old_);
    var n: nat :| OwnsNumber(s.nm, s.requests[old_].device, n) && s.requests[old_].stage.id == Decimal(n);
    if Decimal(n) == Decimal(s.nm.created) { DecimalIsInjective(n, s.nm.created); }
  }

  lemma OwnershipStays(s: State, t: State, r: nat)
    requires s.nm.Valid() && Moves(s.nm, t.nm) && RequestMoves(s, t, r) && RequestOwnsId(s, r)
    ensures RequestOwnsId(t, r)
  {
    if Past(s, r) {
      var n: nat :| OwnsNumber(s.nm, s.requests[r].device, n) && s.requests[r].stage.id == Decimal(n);
      forall d | d in t.nm.devices && t.nm.devices[d].checkpoint.Some? && t.nm.devices[d].checkpoint.value.number == n
        ensures d == t.requests[r].device
      {
        assert DeviceMoves(s.nm.devices[d], t.nm.devices[d], s.nm.created);
      }
      assert OwnsNumber(t.nm, t.requests[r].device, n);
    } else if Past(t, r) {
      CheckpointIdRoundTrip(Decimal(s.nm.created));
      assert OwnsNumber(t.nm, t.requests[r].device, s.nm.created);
    }
  }

  lemma {:induction false} RunsKeepInv(s: State, ls: seq<Label>)
    requires Initial(s)
    ensures Inv(Exec(s, ls))
    decreases |ls|
  {
    hide Next;
    if ls != [] {
      RunsKeepInv(s, ls[..|ls| - 1]);
      StepKeepsInv(Exec(s, ls[..|ls| - 1]), ls[|ls| - 1]);
    }
  }

  // ------------------------------------------------------------------ persist after checkpoint, all or nothing

  /** In every run, each profile write is preceded by a checkpoint of the same request on that device. */
  lemma PersistAfterCheckpoint(s: State, ls: seq<Label>, i: nat)
    requires Initial(s)
    ensures var log := Exec(s, ls).log;
            i < |log| && log[i].ProfileWritten? ==> exists j :: 0 <= j < i && log[j] == CheckpointCreated(log[i].r, log[i].device)
  {
    hide Next;
    RunsKeepInv(s, ls);
    var log := Exec(s, ls).log;
    assert WriteIsCovered(log, i);
    if i < |log| && log[i].ProfileWritten? {
      var j :| 0 <= j < |log[..i]| && log[..i][j] == CheckpointCreated(log[i].r, log[i].device);
      assert log[j] == CheckpointCreated(log[i].r, log[i].device);
    }
  }

  lemma {:induction false} LogOnlyGrows(s: State, ls: seq<Label>, n: nat)
    requires n <= |ls|
    ensures Exec(s, ls[..n]).log <= Exec(s, ls).log
    decreases |ls|
  {
    hide Next;
    if n == |ls| {
      assert ls[..n] == ls;
    } else {
      LogOnlyGrows(s, ls[..|ls| - 1], n);
      assert ls[..|ls| - 1][..n] == ls[..n];
      StepLogs(Exec(s, ls[..|ls| - 1]), ls[|ls| - 1]);
    }
  }

  /**
   * All or nothing: in every run, a request that failed before its checkpoint (unknown or inactive
   * device, either half invalid, checkpoint refused, a rejected call) changed nothing in
   * NetworkManager at any of its steps.
   */
  lemma FailedRequestChangedNothing(s: State, ls: seq<Label>, r: nat, n: nat)
    requires Initial(s) && r in Exec(s, ls).requests && Exec(s, ls).requests[r].stage.FailedBefore?
    requires n < |ls| && ls[n] == Advance(r)
    ensures Exec(s, ls[..n + 1]).nm == Exec(s, ls[..n]).nm
  {
    hide Next;
    RunsKeepInv(s, ls);
    LogOnlyGrows(s, ls, n + 1);
    assert RequestLogged(Exec(s, ls), r);
    assert ls[..n + 1][..n] == ls[..n];
    var before, after := Exec(s, ls[..n]), Exec(s, ls[..n + 1]);
    AdvanceLogsItself(before, r);
    if |after.log| > |before.log| {
      assert after.log[|before.log|] == Exec(s, ls).log[|before.log|];
    }
  }

  // ------------------------------------------------------------------ an unconfirmed change is undone

  /**
   * The timeout undoes everything since the checkpoint: whatever happened in between, the profile and
   * the applied connection are the ones the device had when the request created its checkpoint.
   */
  lemma TimeoutRestores(s: State, r: nat, ls: seq<Label>, late: State)
    requires s.nm.Valid() && r in s.requests && s.requests[r].stage.Prepared? && s.requests[r].device in s.nm.devices
    requires s.nm.devices[s.requests[r].device].checkpoint.None?
    requires late == Exec(Next(s, Advance(r)), ls)
    requires s.requests[r].device in late.nm.devices
    requires late.nm.devices[s.requests[r].device].Holds(CheckpointPath(Decimal(s.nm.created)))
    ensures var d := s.requests[r].device;
            DeviceAt(Next(late, Timeout(d)), d) ==
              Some(Device(late.nm.devices[d].isActive, s.nm.devices[d].profile, s.nm.devices[d].applied,
                          late.nm.devices[d].version + 1, None))
  {
    hide Next;
    var d := s.requests[r].device;
    var made := Next(s, Advance(r));
    StepMoves(s, Advance(r));
    CreateStep(s, r);
    var n := late.nm.devices[d].checkpoint.value.number;
    CheckpointPathsAreDistinct(n, Decimal(s.nm.created));
    DecimalIsInjective(n, s.nm.created);
    SnapshotStays(made, ls, d);
    TimeoutStep(late, d);
  }

  /** While a checkpoint is live its snapshot does not move. */
  lemma {:induction false} SnapshotStays(s: State, ls: seq<Label>, d: string)
    requires s.nm.Valid() && d in s.nm.devices && s.nm.devices[d].checkpoint.Some?
    requires d in Exec(s, ls).nm.devices && Exec(s, ls).nm.devices[d].checkpoint.Some?
    requires Exec(s, ls).nm.devices[d].checkpoint.value.number == s.nm.devices[d].checkpoint.value.number
    ensures Exec(s, ls).nm.devices[d].checkpoint == s.nm.devices[d].checkpoint
  {
    hide Next;
    RunsMove(s, ls);
    assert DeviceRunMoves(s.nm.devices[d], Exec(s, ls).nm.devices[d], s.nm.created);
  }

  /** A commit with the id of a request ends that request's checkpoint, if it is live, and no other. */
  lemma CommitIsPrecise(s: State, ls: seq<Label>, r: nat, t: State)
    requires Initial(s) && t == Exec(s, ls)
    requires Past(t, r) && t.requests[r].device in t.nm.devices
    ensures var d, id := t.requests[r].device, t.requests[r].stage.id;
            Next(t, Commit(id)).nm ==
              if t.nm.devices[d].Holds(CheckpointPath(id))
              then t.nm.(devices := t.nm.devices[d := t.nm.devices[d].(checkpoint := None)])
              else t.nm
  {
    hide Next, Exec;
    RunsKeepInv(s, ls);
    var d, id := t.requests[r].device, t.requests[r].stage.id;
    assert RequestOwnsId(t, r);
    var n: nat :| OwnsNumber(t.nm, d, n) && id == Decimal(n);
    CommitStep(t, id);
    forall e | e in t.nm.devices && t.nm.devices[e].Holds(CheckpointPath(id)) ensures e == d {
      CheckpointPathsAreDistinct(t.nm.devices[e].checkpoint.value.number, id);
      DecimalIsInjective(t.nm.devices[e].checkpoint.value.number, n);
    }
    if t.nm.devices[d].Holds(CheckpointPath(id)) {
      assert t.nm.CheckpointDestroy(CheckpointPath(id)).value.devices == t.nm.devices[d := t.nm.devices[d].(checkpoint := None)];
    }
  }

  // ------------------------------------------------------------------ the re-apply is a compare-and-swap

  /** The request ended with its settings in effect. */
  predicate TookEffect(s: State, r: nat)
  {
    r in s.requests && s.requests[r].stage.Finished? && s.requests[r].stage.applied
  }

  /** Nothing was applied to the device at any point of the run. */
  ghost predicate AppliedUntouched(s: State, ls: seq<Label>, d: string)
  {
    forall n :: 0 <= n <= |ls| ==> AppliedAt(Exec(s, ls[..n]), d) == AppliedAt(s, d)
  }

  function AppliedAt(s: State, d: string): Option<Connection>
  {
    if d in s.nm.devices then Some(s.nm.devices[d].applied) else None
  }

  /**
   * Main result. From the step in which a request reads the version, through any run of other steps,
   * to its re-apply: the re-apply takes effect if and only if the version is still the one it read,
   * and then nothing was applied to the device in between; otherwise it changes nothing.
   */
  lemma ReapplyIsCompareAndSwap(s: State, r: nat, ls: seq<Label>, read: State, late: State, done: State)
    requires s.nm.Valid() && r in s.requests && s.requests[r].stage.Saved? && s.requests[r].device in s.nm.devices
    requires read == Next(s, Advance(r)) && late == Exec(read, ls) && done == Next(late, Advance(r))
    requires r in read.requests && At(late, r, read.requests[r])
    ensures var d := s.requests[r].device;
            && d in late.nm.devices
            && (TookEffect(done, r) <==> late.nm.devices[d].version == s.nm.devices[d].version)
            && (TookEffect(done, r) ==> AppliedAt(done, d) == Some(s.requests[r].stage.settings) && AppliedUntouched(read, ls, d))
            && (!TookEffect(done, r) ==> done.nm == late.nm)
  {
    hide Next;
    var d := s.requests[r].device;
    ReadVersionStep(s, r);
    StepMoves(s, Advance(r));
    RunsMove(read, ls);
    ReapplyStep(late, r);
    if TookEffect(done, r) { SameVersionMeansUntouched(read, ls, d); }
  }

  lemma SameVersionMeansUntouched(s: State, ls: seq<Label>, d: string)
    requires s.nm.Valid() && d in s.nm.devices && d in Exec(s, ls).nm.devices
    requires Exec(s, ls).nm.devices[d].version == s.nm.devices[d].version
    ensures AppliedUntouched(s, ls, d)
  {
    hide Next;
    forall n | 0 <= n <= |ls| ensures AppliedAt(Exec(s, ls[..n]), d) == AppliedAt(s, d) {
      var mid, late := Exec(s, ls[..n]), Exec(s, ls);
      RunsMove(s, ls[..n]);
      ExecAppend(s, ls[..n], ls[n..]);
      assert ls[..n] + ls[n..] == ls;
      RunsMove(mid, ls[n..]);
      hide Exec;
      assert DeviceRunMoves(s.nm.devices[d], mid.nm.devices[d], s.nm.created);
      assert DeviceRunMoves(mid.nm.devices[d], late.nm.devices[d], mid.nm.created);
    }
  }

  /** A rollback after the version was read disarms the pending re-apply for good. */
  lemma RollbackDisarmsReapply(s: State, r: nat, before: seq<Label>, after: seq<Label>, mid: State, late: State)
    requires s.nm.Valid() && r in s.requests && s.requests[r].stage.Scheduled? && s.requests[r].device in s.nm.devices
    requires 0 < s.requests[r].stage.version == s.nm.devices[s.requests[r].device].version
    requires mid == Exec(s, before) && late == Exec(Next(mid, Timeout(s.requests[r].device)), after)
    requires s.requests[r].device in mid.nm.devices && mid.nm.devices[s.requests[r].device].checkpoint.Some?
    requires At(late, r, s.requests[r])
    ensures Next(late, Advance(r)).nm == late.nm && !TookEffect(Next(late, Advance(r)), r)
  {
    hide Next, Exec;
    var d := s.requests[r].device;
    RunsMove(s, before);
    TimeoutStep(mid, d);
    StepMoves(mid, Timeout(d));
    RunsMove(Next(mid, Timeout(d)), after);
    assert DeviceRunMoves(s.nm.devices[d], mid.nm.devices[d], s.nm.created);
    assert DeviceRunMoves(Next(mid, Timeout(d)).nm.devices[d], late.nm.devices[d], Next(mid, Timeout(d)).nm.created);
    ReapplyStep(late, r);
  }

  /** Of two requests holding the same version of a device, at most one re-apply takes effect. */
  lemma AtMostOneReapply(s: State, first: nat, second: nat, ls: seq<Label>, won: State, late: State)
    requires s.nm.Valid() && first in s.requests && second in s.requests && first != second
    requires s.requests[first].stage.Scheduled? && s.requests[second].stage.Scheduled?
    requires s.requests[first].device == s.requests[second].device && s.requests[first].device in s.nm.devices
    requires 0 < s.requests[first].stage.version == s.requests[second].stage.version
    requires won == Next(s, Advance(first)) && TookEffect(won, first)
    requires late == Exec(won, ls) && At(late, second, s.requests[second])
    ensures Next(late, Advance(second)).nm == late.nm && !TookEffect(Next(late, Advance(second)), second)
  {
    hide Next;
    var d := s.requests[first].device;
    ReapplyStep(s, first);
    StepMoves(s, Advance(first));
    RunsMove(won, ls);
    assert DeviceRunMoves(won.nm.devices[d], late.nm.devices[d], won.nm.created);
    ReapplyStep(late, second);
  }
}

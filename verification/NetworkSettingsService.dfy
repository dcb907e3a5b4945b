/**
 * The service that drives the protocol, as it runs when no other call overlaps an update. What any
 * sequence of its calls amounts to is shown in NetworkSessions.
 */
module NetworkSettingsService {
  import opened Wrappers
  import opened ConnectionSettingsAdapter
  import opened NetworkManager
  import opened NetworkTransactions

  /** NetworkManager behind its proxies; each method is one call on the bus. */
  class Bus {
    var manager: Manager

    constructor (manager: Manager)
      ensures this.manager == manager
    {
      this.manager := manager;
    }

    method CheckpointCreate(d: string) returns (path: Option<string>)
      requires d in manager.devices
      modifies this
      ensures path.Some? <==> old(manager).CheckpointCreate(d).Some?
      ensures path.Some? ==> manager == old(manager).CheckpointCreate(d).value && path.value == CheckpointPath(Decimal(old(manager).created))
      ensures path.None? ==> manager == old(manager)
    {
      var made := manager.CheckpointCreate(d);
      if made.None? {
        return None;
      }
      path := Some(CheckpointPath(Decimal(manager.created)));
      manager := made.value;
    }

    method CheckpointDestroy(path: string) returns (found: bool)
      modifies this
      ensures found <==> old(manager).CheckpointDestroy(path).Some?
      ensures manager == if found then old(manager).CheckpointDestroy(path).value else old(manager)
    {
      var left := manager.CheckpointDestroy(path);
      found := left.Some?;
      if found {
        manager := left.value;
      }
    }

    method Update(d: string, settings: Connection)
      requires d in manager.devices
      modifies this
      ensures manager == old(manager).Update(d, settings)
    {
      manager := manager.Update(d, settings);
    }

    method Reapply(d: string, settings: Connection, version: nat) returns (accepted: bool)
      requires d in manager.devices
      modifies this
      ensures accepted <==> old(manager).Reapply(d, settings, version).Some?
      ensures manager == if accepted then old(manager).Reapply(d, settings, version).value else old(manager)
    {
      var applied := manager.Reapply(d, settings, version);
      accepted := applied.Some?;
      if accepted {
        manager := applied.value;
      }
    }
  }

  /** A re-apply put off until the response is out. */
  datatype Deferred = Deferred(device: string, settings: Connection, version: nat)

  /** The call of an update, after its checkpoint, that the bus rejects. */
  datatype Rejected = Nothing | UpdateCall | VersionCall

  class Service {
    const bus: Bus
    var immediates: seq<Deferred>

    constructor (bus: Bus)
      ensures this.bus == bus && immediates == []
    {
      this.bus := bus;
      immediates := [];
    }

    ghost function Now(): Session
      reads this, bus
    {
      Session(bus.manager, immediates)
    }

    /**
     * The answer and the state of NetworkManager are those of `Answer`; an accepted request leaves
     * one re-apply waiting, with the version read after the profile was written.
     */
    method UpdateActiveConnectionOfDevice(device: string, ipv4: Option<UpdateIpSettings>, ipv6: Option<UpdateIpSettings>, rejected: Rejected)
      returns (r: Result<string, Reason>)
      modifies this, bus
      ensures Answer(old(bus.manager), device, ipv4, ipv6, rejected) == Answered(r, bus.manager)
      ensures r.Err? ==> immediates == old(immediates)
      ensures r.Ok? ==>
        && device in bus.manager.devices
        && var dev := bus.manager.devices[device];
        && immediates == old(immediates) + [Deferred(device, dev.profile, dev.version)]
      ensures Now() == AfterCall(old(Now()), Submit(device, ipv4, ipv6, rejected))
    {
      hide EditedConnection, CheckpointPath, CheckpointId, Decimal;
      if device !in bus.manager.devices {
        return Err(NoDevice);
      }
      if !bus.manager.devices[device].isActive {
        return Err(NotActive);
      }
      var edited := EditSettings(bus.manager.devices[device].profile, ipv4, ipv6);
      if edited.Err? {
        return Err(edited.error);
      }
      var path := bus.CheckpointCreate(device);
      if path.None? {
        return Err(Refused);
      }
      var id := CheckpointId(path.value);
      if rejected.UpdateCall? {
        return Err(CallFailed);
      }
      bus.Update(device, edited.value);
      if rejected.VersionCall? {
        return Err(CallFailed);
      }
      var version := bus.manager.devices[device].version;
      immediates := immediates + [Deferred(device, edited.value, version)];
      return Ok(id);
    }

    /** Edits both halves through their adapters, on the dictionary GetSettings returned. */
    method EditSettings(current: Connection, ipv4: Option<UpdateIpSettings>, ipv6: Option<UpdateIpSettings>)
      returns (r: Result<Connection, Reason>)
      ensures r == EditedConnection(current, ipv4, ipv6)
    {
      hide Applied;
      if "ipv4" !in current {
        return Err(Malformed);
      }
      var adapter4 := new IpSettingsVariantAdapter(current["ipv4"]);
      var edited4 := adapter4.ApplyChanges(ipv4);
      if edited4.Err? {
        return Err(Invalid(edited4.error));
      }
      if "ipv6" !in current {
        return Err(Malformed);
      }
      var adapter6 := new IpSettingsVariantAdapter(current["ipv6"]);
      var edited6 := adapter6.ApplyChanges(ipv6);
      if edited6.Err? {
        return Err(Invalid(edited6.error));
      }
      r := Ok(current["ipv4" := edited4.value]["ipv6" := edited6.value]);
    }

    /** The first waiting re-apply runs; a failure is only logged. */
    method RunImmediate() returns (accepted: bool)
      requires immediates != [] && immediates[0].device in bus.manager.devices
      modifies this, bus
      ensures Now() == AfterCall(old(Now()), Call.RunImmediate)
      ensures immediates == old(immediates)[1..]
      ensures var job := old(immediates)[0];
              var applied := old(bus.manager).Reapply(job.device, job.settings, job.version);
              && (accepted <==> applied.Some?)
              && bus.manager == if accepted then applied.value else old(bus.manager)
    {
      var job := immediates[0];
      immediates := immediates[1..];
      accepted := bus.Reapply(job.device, job.settings, job.version);
    }

    method CommitChanges(id: string) returns (found: bool)
      modifies bus
      ensures Now() == AfterCall(old(Now()), Confirm(id))
      ensures found <==> old(bus.manager).CheckpointDestroy(CheckpointPath(id)).Some?
      ensures bus.manager == if found then old(bus.manager).CheckpointDestroy(CheckpointPath(id)).value else old(bus.manager)
    {
      found := bus.CheckpointDestroy(CheckpointPath(id));
    }
  }

  // ------------------------------------------------------------------ specification

  datatype Answered = Answered(result: Result<string, Reason>, manager: Manager)

  function Answer(nm: Manager, device: string, ipv4: Option<UpdateIpSettings>, ipv6: Option<UpdateIpSettings>, rejected: Rejected): Answered
  {
    if device !in nm.devices then Answered(Err(NoDevice), nm)
    else if !nm.devices[device].isActive then Answered(Err(NotActive), nm)
    else
      match EditedConnection(nm.devices[device].profile, ipv4, ipv6)
      case Err(reason) => Answered(Err(reason), nm)
      case Ok(settings) =>
        match nm.CheckpointCreate(device)
        case None => Answered(Err(Refused), nm)
        case Some(made) =>
          match rejected
          case UpdateCall => Answered(Err(CallFailed), made)
          case VersionCall => Answered(Err(CallFailed), made.Update(device, settings))
          case Nothing => Answered(Ok(CheckpointId(CheckpointPath(Decimal(nm.created)))), made.Update(device, settings))
  }

  /** NetworkManager and the re-applies that wait. */
  datatype Session = Session(manager: Manager, immediates: seq<Deferred>)

  /** A call of the service, the event loop running a waiting re-apply, or something from outside. */
  datatype Call =
    | Submit(device: string, ipv4: Option<UpdateIpSettings>, ipv6: Option<UpdateIpSettings>, rejected: Rejected)
    | RunImmediate
    | Confirm(id: string)
    | TimesOut(device: string)
    | Outside(device: string, settings: Connection)

  function AfterCall(x: Session, c: Call): Session
  {
    match c
    case Submit(device, ipv4, ipv6, rejected) =>
      var a := Answer(x.manager, device, ipv4, ipv6, rejected);
      if a.result.Ok? && device in a.manager.devices
      then Session(a.manager, x.immediates + [Deferred(device, a.manager.devices[device].profile, a.manager.devices[device].version)])
      else Session(a.manager, x.immediates)
    case RunImmediate =>
      if x.immediates == [] || x.immediates[0].device !in x.manager.devices then x
      else
        var job := x.immediates[0];
        var applied := x.manager.Reapply(job.device, job.settings, job.version);
        Session(if applied.Some? then applied.value else x.manager, x.immediates[1..])
    case Confirm(id) =>
      var left := x.manager.CheckpointDestroy(CheckpointPath(id));
      if left.Some? then x.(manager := left.value) else x
    case TimesOut(device) =>
      if device in x.manager.devices then x.(manager := x.manager.Rollback(device)) else x
    case Outside(device, settings) =>
      if device in x.manager.devices then x.(manager := x.manager.Activate(device, settings)) else x
  }

  /**
   * All or nothing, sequentially: an error before the checkpoint leaves NetworkManager as it was, and
   * any later one leaves a checkpoint of the old profile, so that the timeout undoes the rest; success
   * leaves the edited profile under such a checkpoint, nothing applied yet, and the id that confirms it.
   */
  lemma AnswerIsAllOrNothing(nm: Manager, device: string, ipv4: Option<UpdateIpSettings>, ipv6: Option<UpdateIpSettings>, rejected: Rejected)
    ensures var a := Answer(nm, device, ipv4, ipv6, rejected);
            && (a.manager == nm ==> a.result.Err?)
            && (a.manager != nm ==>
                  && device in nm.devices
                  && var before := nm.devices[device];
                  && EditedConnection(before.profile, ipv4, ipv6).Ok?
                  && (a.result.Ok? <==> rejected.Nothing?)
                  && (a.result.Err? ==> a.result.error == CallFailed)
                  && a.manager.devices == nm.devices[device := before.(
                       profile := if rejected.UpdateCall? then before.profile else EditedConnection(before.profile, ipv4, ipv6).value,
                       checkpoint := Some(Checkpoint(nm.created, before.profile, before.applied)))]
                  && a.manager.created == nm.created + 1
                  && before.checkpoint.None?
                  && a.manager.devices[device].Fallback() == before.profile
                  && (a.result.Ok? ==> a.result.value == Decimal(nm.created) && a.manager.devices[device].Holds(CheckpointPath(a.result.value))))
  {
    hide EditedConnection;
    CheckpointPathsAreDistinct(nm.created, Decimal(nm.created));
    hide CheckpointPath, CheckpointId, Decimal;
  }

  /** An update is answered with an id exactly when everything is there and nothing is in the way; otherwise the first fault is reported. */
  lemma AnswerIffPossible(nm: Manager, device: string, ipv4: Option<UpdateIpSettings>, ipv6: Option<UpdateIpSettings>, rejected: Rejected)
    ensures var r := Answer(nm, device, ipv4, ipv6, rejected).result;
            && (device !in nm.devices ==> r == Err(NoDevice))
            && (device in nm.devices ==>
                  && var dev := nm.devices[device];
                  var halves := "ipv4" in dev.profile && "ipv6" in dev.profile;
                  var accepted := (ipv4.Some? ==> ipv4.value.Accepted()) && (ipv6.Some? ==> ipv6.value.Accepted());
                  && (r.Ok? <==> dev.isActive && halves && accepted && dev.checkpoint.None? && rejected.Nothing?)
                  && (!dev.isActive ==> r == Err(NotActive))
                  && (dev.isActive && halves && accepted && dev.checkpoint.Some? ==> r == Err(Refused))
                  && (dev.isActive && halves && accepted && dev.checkpoint.None? && !rejected.Nothing? ==> r == Err(CallFailed)))
  {
    hide CheckpointPath, CheckpointId, Decimal, Edited;
  }

  /** Which fault of an edit is reported: those of the IPv4 half before those of the IPv6 half, a missing address before a missing gateway. */
  lemma EditFaults(current: Connection, ipv4: Option<UpdateIpSettings>, ipv6: Option<UpdateIpSettings>)
    ensures var edited := EditedConnection(current, ipv4, ipv6);
            && ("ipv4" !in current ==> edited == Err(Malformed))
            && ("ipv4" in current && ipv4.Some? && !ipv4.value.Accepted() ==>
                  edited == Err(Invalid(if ipv4.value.addressData.Given? && ipv4.value.addressData.value != [] then NoGateway else NoStaticIp)))
            && ("ipv4" in current && (ipv4.Some? ==> ipv4.value.Accepted()) && "ipv6" !in current ==> edited == Err(Malformed))
            && ("ipv4" in current && (ipv4.Some? ==> ipv4.value.Accepted()) && "ipv6" in current && ipv6.Some? && !ipv6.value.Accepted() ==>
                  edited == Err(Invalid(if ipv6.value.addressData.Given? && ipv6.value.addressData.value != [] then NoGateway else NoStaticIp)))
  {
    hide Edited;
  }
}

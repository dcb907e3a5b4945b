/**
 * NetworkManager as the service sees it: connection profiles, applied connections with a version,
 * and checkpoints. Each device has one profile. These are the environment steps of the protocol.
 */
module NetworkManager {
  import opened Wrappers
  import opened Strings
  import opened ConnectionSettingsAdapter

  /** A whole profile, `a{sa{sv}}` on the bus. */
  type Connection = map<string, VariantObject>

  const CHECKPOINT_ROOT := "/org/freedesktop/NetworkManager/Checkpoint"

  function CheckpointPath(id: string): string
  {
    CHECKPOINT_ROOT + "/" + id
  }

  function CheckpointId(path: string): string
  {
    LastSegment(path)
  }

  /** Commit rebuilds exactly the path the id was cut from, for exactly the slash-free ids. */
  lemma CheckpointIdRoundTrip(id: string)
    ensures CheckpointId(CheckpointPath(id)) == id <==> '/' !in id
  {
    LastSegmentIff(CHECKPOINT_ROOT, id);
  }

  /** The decimal name NetworkManager gives its n-th checkpoint. */
  function Decimal(n: nat): (s: string)
    ensures s != "" && forall i :: 0 <= i < |s| ==> '0' <= s[i] <= '9'
  {
    var digit := ['0' + (n % 10) as char];
    if n < 10 then digit else Decimal(n / 10) + digit
  }

  lemma {:induction false} DecimalIsInjective(m: nat, n: nat)
    requires Decimal(m) == Decimal(n)
    ensures m == n
    decreases m
  {
    var a, b := Decimal(m), Decimal(n);
    assert a[|a| - 1] == '0' + (m % 10) as char && b[|b| - 1] == '0' + (n % 10) as char;
    if m >= 10 && n >= 10 {
      assert a[..|a| - 1] == Decimal(m / 10) && b[..|b| - 1] == Decimal(n / 10);
      DecimalIsInjective(m / 10, n / 10);
    }
  }

  /** Checkpoint names are slash-free, and no two checkpoints share a path. */
  lemma CheckpointPathsAreDistinct(m: nat, id: string)
    ensures CheckpointId(CheckpointPath(Decimal(m))) == Decimal(m)
    ensures CheckpointPath(Decimal(m)) == CheckpointPath(id) <==> Decimal(m) == id
  {
    CheckpointIdRoundTrip(Decimal(m));
    var root := CHECKPOINT_ROOT + "/";
    assert CheckpointPath(id)[|root|..] == id && CheckpointPath(Decimal(m))[|root|..] == Decimal(m);
  }

  datatype Checkpoint = Checkpoint(number: nat, profile: Connection, applied: Connection)

  datatype Device = Device(
    isActive: bool,
    profile: Connection,
    applied: Connection,
    version: nat,
    checkpoint: Option<Checkpoint>)
  {
    predicate Holds(path: string)
    {
      checkpoint.Some? && CheckpointPath(Decimal(checkpoint.value.number)) == path
    }

    /** The profile as it will be if nobody confirms. */
    function Fallback(): Connection
    {
      if checkpoint.Some? then checkpoint.value.profile else profile
    }
  }

  datatype Manager = Manager(devices: map<string, Device>, created: nat)
  {
    /** With flags 0 a device that already has a checkpoint is refused. */
    function CheckpointCreate(d: string): Option<Manager>
      requires d in devices
    {
      var dev := devices[d];
      if dev.checkpoint.Some? then None
      else Some(Manager(devices[d := dev.(checkpoint := Some(Checkpoint(created, dev.profile, dev.applied)))], created + 1))
    }

    function Update(d: string, settings: Connection): Manager
      requires d in devices
    {
      this.(devices := devices[d := devices[d].(profile := settings)])
    }

    /** Version 0 would mean "whatever is applied"; any other version must be the current one. */
    function Reapply(d: string, settings: Connection, version: nat): Option<Manager>
      requires d in devices
    {
      var dev := devices[d];
      if version != 0 && version != dev.version then None
      else Some(this.(devices := devices[d := dev.(applied := settings, version := dev.version + 1)]))
    }

    function CheckpointDestroy(path: string): Option<Manager>
    {
      if forall d :: d in devices ==> !devices[d].Holds(path) then None
      else Some(this.(devices := map d | d in devices ::
                        if devices[d].Holds(path) then devices[d].(checkpoint := None) else devices[d]))
    }

    /** The 30 seconds are over: the snapshot comes back, as a new version of the applied connection. */
    function Rollback(d: string): Manager
      requires d in devices
    {
      var dev := devices[d];
      if dev.checkpoint.None? then this
      else this.(devices := devices[d := Device(dev.isActive, dev.checkpoint.value.profile,
                                                dev.checkpoint.value.applied, dev.version + 1, None)])
    }

    /** Something other than the service changes what is applied. */
    function Activate(d: string, settings: Connection): Manager
      requires d in devices
    {
      this.(devices := devices[d := devices[d].(applied := settings, version := devices[d].version + 1)])
    }

    /** Versions start at 1 and every live checkpoint has a number of its own. */
    ghost predicate Valid()
    {
      && (forall d :: d in devices ==> devices[d].version > 0)
      && (forall d :: d in devices && devices[d].checkpoint.Some? ==> devices[d].checkpoint.value.number < created)
      && (forall d, e :: d in devices && e in devices && d != e && devices[d].checkpoint.Some? && devices[e].checkpoint.Some?
            ==> devices[d].checkpoint.value.number != devices[e].checkpoint.value.number)
    }
  }

  /** The id handed out for a device's checkpoint ends that checkpoint and no other. */
  lemma DestroyEndsOneCheckpoint(nm: Manager, d: string, id: string)
    requires nm.Valid() && d in nm.devices && nm.devices[d].checkpoint.Some?
    requires id == CheckpointId(CheckpointPath(Decimal(nm.devices[d].checkpoint.value.number)))
    ensures nm.CheckpointDestroy(CheckpointPath(id)) ==
            Some(nm.(devices := nm.devices[d := nm.devices[d].(checkpoint := None)]))
  {
    CheckpointPathsAreDistinct(nm.devices[d].checkpoint.value.number, id);
    var path := CheckpointPath(id);
    assert nm.devices[d].Holds(path);
    forall e | e in nm.devices && nm.devices[e].Holds(path) ensures e == d {
      CheckpointPathsAreDistinct(nm.devices[e].checkpoint.value.number, id);
      DecimalIsInjective(nm.devices[e].checkpoint.value.number, nm.devices[d].checkpoint.value.number);
    }
    assert nm.CheckpointDestroy(path).value.devices == nm.devices[d := nm.devices[d].(checkpoint := None)];
  }

  // ------------------------------------------------------------------ what every call keeps

  /** The moves any device can make: versions go up when something is applied, a new checkpoint is a fresh snapshot. */
  ghost predicate DeviceMoves(a: Device, b: Device, created: nat)
  {
    && b.version >= a.version
    && (b.version == a.version ==> b.applied == a.applied)
    && (b.checkpoint == a.checkpoint || b.checkpoint.None?
        || (a.checkpoint.None? && b.checkpoint == Some(Checkpoint(created, a.profile, a.applied))))
  }

  ghost predicate Moves(m: Manager, n: Manager)
  {
    && n.Valid() && n.devices.Keys == m.devices.Keys && n.created >= m.created
    && (forall d :: d in m.devices ==> DeviceMoves(m.devices[d], n.devices[d], m.created))
    && (forall d :: d in m.devices && n.devices[d].checkpoint != m.devices[d].checkpoint && n.devices[d].checkpoint.Some? ==> n.created > m.created)
  }

  lemma NothingMoves(nm: Manager)
    requires nm.Valid()
    ensures Moves(nm, nm)
  {
  }

  lemma CreateMoves(nm: Manager, d: string)
    requires nm.Valid() && d in nm.devices
    ensures nm.CheckpointCreate(d).Some? ==> Moves(nm, nm.CheckpointCreate(d).value)
  {
  }

  /** One device changed, without a new checkpoint. */
  lemma OneDeviceMoves(nm: Manager, d: string, dev: Device)
    requires nm.Valid() && d in nm.devices && DeviceMoves(nm.devices[d], dev, nm.created)
    requires dev.checkpoint == nm.devices[d].checkpoint || dev.checkpoint.None?
    ensures Moves(nm, nm.(devices := nm.devices[d := dev]))
  {
  }

  lemma UpdateMoves(nm: Manager, d: string, settings: Connection)
    requires nm.Valid() && d in nm.devices
    ensures Moves(nm, nm.Update(d, settings))
  {
    OneDeviceMoves(nm, d, nm.devices[d].(profile := settings));
    hide Moves;
  }

  lemma ReapplyMoves(nm: Manager, d: string, settings: Connection, version: nat)
    requires nm.Valid() && d in nm.devices
    ensures nm.Reapply(d, settings, version).Some? ==> Moves(nm, nm.Reapply(d, settings, version).value)
  {
    OneDeviceMoves(nm, d, nm.devices[d].(applied := settings, version := nm.devices[d].version + 1));
    hide Moves;
  }

  lemma DestroyMoves(nm: Manager, path: string)
    requires nm.Valid()
    ensures nm.CheckpointDestroy(path).Some? ==> Moves(nm, nm.CheckpointDestroy(path).value)
  {
    hide Device.Holds;
  }

  lemma RollbackMoves(nm: Manager, d: string)
    requires nm.Valid() && d in nm.devices
    ensures Moves(nm, nm.Rollback(d))
  {
    NothingMoves(nm);
    var dev := nm.devices[d];
    if dev.checkpoint.Some? {
      OneDeviceMoves(nm, d, Device(dev.isActive, dev.checkpoint.value.profile, dev.checkpoint.value.applied, dev.version + 1, None));
    }
    hide Moves;
  }

  lemma ActivateMoves(nm: Manager, d: string, settings: Connection)
    requires nm.Valid() && d in nm.devices
    ensures Moves(nm, nm.Activate(d, settings))
  {
    OneDeviceMoves(nm, d, nm.devices[d].(applied := settings, version := nm.devices[d].version + 1));
    hide Moves;
  }
}

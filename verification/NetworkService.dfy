/**
 * The simple settings of the REST API, and what becomes of them on the way to NetworkManager's
 * dictionaries and back.
 */
module NetworkService {
  import opened Wrappers
  import opened Strings
  import opened Variants
  import opened ConnectionSettingsAdapter
  import opened NetworkManager
  import opened NetworkTransactions
  import S = NetworkSettingsService

  datatype SimpleIp = SimpleIp(
    ipMethod: Option<string>,
    gateway: Option<string>,
    address: Option<string>,
    prefix: Option<nat>,
    dns: Option<string>)
  {
    predicate HasAddress() { address.Some? && prefix.Some? }
    predicate HasGateway() { gateway.Some? && gateway.value != "" }
  }

  /** The request as the adapter takes it; a lone address or a lone prefix is dropped. */
  function ToInternal(ip: SimpleIp): UpdateIpSettings
  {
    UpdateIpSettings(
      ip.ipMethod,
      Given(if ip.HasAddress() then [NetworkAddress(ip.address.value, ip.prefix.value)] else []),
      if ip.gateway.Some? then Given(ip.gateway.value) else Undefined,
      Given(if ip.dns.Some? then [ip.dns.value] else []),
      Undefined)
  }

  datatype ReadError = CannotRead

  function Field(v: Value, key: string): Option<Value>
  {
    if v.Object? && key in v.entries then Some(v.entries[key]) else None
  }

  function First(v: Value): Option<Value>
  {
    if v.Array? && v.items != [] then Some(v.items[0]) else None
  }

  function AsString(v: Option<Value>): Option<string>
  {
    if v.Some? && v.value.Str? then Some(v.value.s) else None
  }

  function AsNat(v: Option<Value>): Option<nat>
  {
    if v.Some? && v.value.Num? && v.value.n >= 0 then Some(v.value.n) else None
  }

  /** Indexing a missing `address-data` throws; a missing `dns-data` does not. */
  function ToSimple(ip: Value): Result<SimpleIp, ReadError>
  {
    var addresses := Field(ip, "address-data");
    if addresses.None? then Err(CannotRead)
    else
      var firstIp := First(addresses.value);
      var servers := Field(ip, "dns-data");
      var firstDns := if servers.Some? then First(servers.value) else None;
      Ok(SimpleIp(
        AsString(Field(ip, "method")),
        AsString(Field(ip, "gateway")),
        if firstIp.Some? then AsString(Field(firstIp.value, "address")) else None,
        if firstIp.Some? then AsNat(Field(firstIp.value, "prefix")) else None,
        AsString(firstDns)))
  }

  /** One half of GetSettings, unwrapped and simplified. */
  function ReadHalf(reported: VariantObject): Result<SimpleIp, ReadError>
  {
    ToSimple(UnwrapVariantDeep(Object(reported)))
  }

  /** Every entry of a dictionary on the bus is a variant. */
  predicate WellTyped(settings: VariantObject)
  {
    forall k :: k in settings ==> settings[k].Variant?
  }

  /**
   * NetworkManager may report any further keys (the deprecated ones among them); the ones the API
   * reads are as stored, with an empty address list where none is stored.
   */
  ghost predicate Reports(stored: VariantObject, reported: VariantObject)
  {
    && WellTyped(reported)
    && Lookup(reported, "method") == Lookup(stored, "method")
    && Lookup(reported, "gateway") == Lookup(stored, "gateway")
    && Lookup(reported, "dns-data") == Lookup(stored, "dns-data")
    && Lookup(reported, "address-data")
       == if "address-data" in stored then Lookup(stored, "address-data") else Some(AddressDataVariant([]))
  }

  // ------------------------------------------------------------------ round trip

  /** What reads back: the static part is erased for `auto`, and every other method reads as `manual`. */
  function ReadBack(ip: SimpleIp): SimpleIp
  {
    if ip.ipMethod == Some("auto") then SimpleIp(Some("auto"), None, None, None, ip.dns)
    else ip.(ipMethod := Some("manual"))
  }

  /** A request is accepted exactly when it is automatic or complete. */
  lemma AcceptedIff(ip: SimpleIp)
    ensures ToInternal(ip).Accepted() <==> ip.ipMethod == Some("auto") || (ip.HasAddress() && ip.HasGateway())
  {
  }

  lemma StringUnwraps(s: string)
    ensures UnwrapVariantDeep(StringVariant(s)) == Str(s)
  {
  }

  lemma AddressDataUnwraps(addresses: seq<NetworkAddress>)
    ensures var v := UnwrapVariantDeep(AddressDataVariant(addresses));
            && v.Array? && |v.items| == |addresses|
            && forall i :: 0 <= i < |addresses| ==>
                 AsString(Field(v.items[i], "address")) == Some(addresses[i].address)
                 && AsNat(Field(v.items[i], "prefix")) == Some(addresses[i].prefix)
  {
    var v := AddressDataVariant(addresses);
    forall i | 0 <= i < |addresses|
      ensures UnwrapVariantDeep(v.value.items[i])
           == Object(map["address" := Str(addresses[i].address), "prefix" := Num(addresses[i].prefix)])
    {
      AddressUnwraps(addresses[i]);
    }
  }

  lemma AddressUnwraps(a: NetworkAddress)
    ensures UnwrapVariantDeep(Object(map["address" := Variant("s", Str(a.address)), "prefix" := Variant("u", Num(a.prefix))]))
         == Object(map["address" := Str(a.address), "prefix" := Num(a.prefix)])
  {
  }

  lemma StringsUnwrap(strings: seq<string>)
    ensures var v := UnwrapVariantDeep(StringsVariant(strings));
            v.Array? && |v.items| == |strings| && forall i :: 0 <= i < |strings| ==> v.items[i] == Str(strings[i])
  {
    forall i | 0 <= i < |strings| ensures UnwrapVariantDeep(Str(strings[i])) == Str(strings[i]) {}
  }

  /** Each entry of the dictionary is unwrapped on its own, unless the dictionary passes for a variant. */
  lemma EntryUnwraps(reported: VariantObject, key: string)
    requires !Object(reported).IsVariant()
    ensures Field(UnwrapVariantDeep(Object(reported)), key)
         == if key in reported then Some(UnwrapVariantDeep(reported[key])) else None
  {
  }

  /** What a stored entry looks like to the reader. */
  function Unwrapped(entry: Option<Value>): Option<Value>
  {
    if entry.Some? then Some(UnwrapVariantDeep(entry.value)) else None
  }

  lemma ReportedEntry(prior: VariantObject, c: UpdateIpSettings, reported: VariantObject, key: string)
    requires !Object(reported).IsVariant() && Reports(Applied(prior - DEPRECATED, c), reported)
    requires key in {"method", "gateway", "dns-data", "address-data"}
    ensures var entry := EntryAfter(prior - DEPRECATED, c, key);
            Field(UnwrapVariantDeep(Object(reported)), key)
              == Unwrapped(if key == "address-data" && entry.None? then Some(AddressDataVariant([])) else entry)
  {
    hide UnwrapVariantDeep, EntryAfter, AddressDataVariant;
    EntryUnwraps(reported, key);
    assert Lookup(Applied(prior - DEPRECATED, c), key) == EntryAfter(prior - DEPRECATED, c, key);
  }

  /**
   * Main result, for every prior dictionary: what was submitted and accepted reads back as
   * `ReadBack` says exactly when the reported dictionary does not hold both a `value` and a
   * `signature` key; with both, reading throws.
   */
  lemma SubmitThenRead(prior: VariantObject, ip: SimpleIp, reported: VariantObject)
    requires ToInternal(ip).Accepted()
    requires Reports(Applied(prior - DEPRECATED, ToInternal(ip)), reported)
    ensures ReadHalf(reported) == Ok(ReadBack(ip)) <==> !Poses(reported)
    ensures Poses(reported) ==> ReadHalf(reported) == Err(CannotRead)
  {
    if Poses(reported) {
      PosesAsVariant(reported);
    } else {
      ReadsBack(prior, ip, reported);
    }
    hide ReadHalf, Reports;
  }

  /** The dictionary passes for a variant. */
  predicate Poses(settings: VariantObject)
  {
    "value" in settings && "signature" in settings
  }

  lemma PosesAsVariant(reported: VariantObject)
    requires Poses(reported) && WellTyped(reported)
    ensures ReadHalf(reported) == Err(CannotRead)
  {
  }

  lemma ReadsBack(prior: VariantObject, ip: SimpleIp, reported: VariantObject)
    requires ToInternal(ip).Accepted() && !Object(reported).IsVariant()
    requires Reports(Applied(prior - DEPRECATED, ToInternal(ip)), reported)
    ensures ReadHalf(reported) == Ok(ReadBack(ip))
  {
    hide UnwrapVariantDeep, AddressDataVariant, StringsVariant, StringVariant, Applied, Reports;
    var c := ToInternal(ip);
    ReportedEntry(prior, c, reported, "method");
    ReportedEntry(prior, c, reported, "gateway");
    ReportedEntry(prior, c, reported, "dns-data");
    ReportedEntry(prior, c, reported, "address-data");
    StringsUnwrap(c.dnsData.value);
    StringUnwraps("auto");
    StringUnwraps("manual");
    AddressDataUnwraps([]);
    if ip.ipMethod != Some("auto") {
      StringUnwraps(ip.gateway.value);
      AddressDataUnwraps(c.addressData.value);
    }
  }

  /** The round trip is exact for a complete manual request, and for an automatic one without static parts. */
  lemma RoundTripIff(ip: SimpleIp)
    requires ToInternal(ip).Accepted()
    ensures ReadBack(ip) == ip <==>
      ip.ipMethod == Some("manual") || (ip.ipMethod == Some("auto") && ip.gateway.None? && ip.address.None? && ip.prefix.None?)
  {
  }

  /** A later accepted request leaves nothing of an earlier one, accepted or not. */
  lemma LaterRequestWins(prior: VariantObject, earlier: SimpleIp, later: SimpleIp)
    requires ToInternal(later).Accepted()
    ensures Applied(Applied(prior, ToInternal(earlier)), ToInternal(later)) == Applied(prior, ToInternal(later))
  {
    ChangeOverrides(prior, ToInternal(earlier), ToInternal(later));
  }

  // ------------------------------------------------------------------ the whole connection

  function AsValue(c: Connection): Value
  {
    Object(map k | k in c :: Object(c[k]))
  }

  /** Both halves of the active connection, as the API reports them. */
  function ActiveConnection(c: Connection): Result<(SimpleIp, SimpleIp), ReadError>
  {
    var unwrapped := UnwrapVariantDeep(AsValue(c));
    var ipv4, ipv6 := Field(unwrapped, "ipv4"), Field(unwrapped, "ipv6");
    if ipv4.None? || ipv6.None? then Err(CannotRead) else
      var simple4, simple6 := ToSimple(ipv4.value), ToSimple(ipv6.value);
      if simple4.Err? || simple6.Err? then Err(CannotRead) else Ok((simple4.value, simple6.value))
  }

  /** What unwrapping takes the profile for: its groups, or with both such groups the content of one of them. */
  function Groups(c: Connection): map<string, Value>
  {
    if "value" in c && "signature" in c then c["value"] else map k | k in c :: Object(c[k])
  }

  function ReadBoth(groups: map<string, Value>): Result<(SimpleIp, SimpleIp), ReadError>
  {
    if "ipv4" !in groups || "ipv6" !in groups then Err(CannotRead) else
      var simple4, simple6 := ToSimple(UnwrapVariantDeep(groups["ipv4"])), ToSimple(UnwrapVariantDeep(groups["ipv6"]));
      if simple4.Err? || simple6.Err? then Err(CannotRead) else Ok((simple4.value, simple6.value))
  }

  /** Unwrapping the whole profile reads each of its groups on its own; one with both a `value` and a `signature` group is misread. */
  lemma ConnectionReadsHalves(c: Connection)
    ensures ActiveConnection(c) == ReadBoth(Groups(c))
  {
    hide ToSimple;
    assert UnwrapVariantDeep(AsValue(c)) == Object(map k | k in Groups(c) :: UnwrapVariantDeep(Groups(c)[k]));
    hide UnwrapVariantDeep;
  }

  // ------------------------------------------------------------------ end to end

  function Internal(ip: Option<SimpleIp>): Option<UpdateIpSettings>
  {
    if ip.Some? then Some(ToInternal(ip.value)) else None
  }

  /** The reported profile shows both stored halves. */
  ghost predicate ReportsConnection(stored: Connection, reported: Connection)
  {
    && "ipv4" in stored && "ipv6" in stored && "ipv4" in reported && "ipv6" in reported
    && Reports(stored["ipv4"], reported["ipv4"]) && Reports(stored["ipv6"], reported["ipv6"])
  }

  /** The part of the stored settings that the API shows. */
  function Shown(stored: VariantObject): VariantObject
  {
    (map k | k in {"method", "gateway", "dns-data"} && k in stored :: stored[k])[
      "address-data" := if "address-data" in stored then stored["address-data"] else AddressDataVariant([])]
  }

  /** What reads is what is shown of the stored settings, unless the report passes for a variant. */
  lemma ReadIsOfStored(stored: VariantObject, reported: VariantObject)
    requires Reports(stored, reported)
    ensures ReadHalf(reported) == if Poses(reported) then Err(CannotRead) else ReadHalf(Shown(stored))
  {
    hide UnwrapVariantDeep, AddressDataVariant;
    if Poses(reported) {
      PosesAsVariant(reported);
    } else {
      forall key | key in {"method", "gateway", "dns-data", "address-data"}
        ensures Field(UnwrapVariantDeep(Object(reported)), key) == Field(UnwrapVariantDeep(Object(Shown(stored))), key)
      {
        EntryUnwraps(reported, key);
        EntryUnwraps(Shown(stored), key);
        assert Lookup(reported, key) == Lookup(Shown(stored), key);
      }
    }
  }

  // ------------------------------------------------------------------ what is read of stored lists

  /** What a stored half says: a missing list is an empty one. */
  datatype StoredHalf = StoredHalf(ipMethod: Option<string>, gateway: Option<string>, addresses: seq<NetworkAddress>, dns: seq<string>)

  /** The entry is a variant of this string, or there is none. */
  predicate StoresString(settings: VariantObject, key: string, s: Option<string>)
  {
    if key in settings then settings[key].Variant? && s.Some? && settings[key].value == Str(s.value) else s.None?
  }

  /** One dictionary of `address-data`, with any further keys. */
  predicate StoresAddress(v: Value, a: NetworkAddress)
  {
    && v.Object? && !v.IsVariant()
    && "address" in v.entries && v.entries["address"].Variant? && v.entries["address"].value == Str(a.address)
    && "prefix" in v.entries && v.entries["prefix"].Variant? && v.entries["prefix"].value == Num(a.prefix)
  }

  predicate StoresAddresses(settings: VariantObject, addresses: seq<NetworkAddress>)
  {
    if "address-data" !in settings then addresses == []
    else
      var v := settings["address-data"];
      && v.Variant? && v.value.Array? && |v.value.items| == |addresses|
      && forall i :: 0 <= i < |addresses| ==> StoresAddress(v.value.items[i], addresses[i])
  }

  predicate StoresServers(settings: VariantObject, dns: seq<string>)
  {
    if "dns-data" !in settings then dns == []
    else
      var v := settings["dns-data"];
      && v.Variant? && v.value.Array? && |v.value.items| == |dns|
      && forall i :: 0 <= i < |dns| ==> v.value.items[i] == Str(dns[i])
  }

  /** The dictionary holds this half, in variants of whatever signature. */
  predicate Stores(settings: VariantObject, h: StoredHalf)
  {
    && StoresString(settings, "method", h.ipMethod) && StoresString(settings, "gateway", h.gateway)
    && StoresAddresses(settings, h.addresses) && StoresServers(settings, h.dns)
  }

  /** The first address with its prefix, and the first dns server. */
  function FirstOfEach(h: StoredHalf): SimpleIp
  {
    SimpleIp(h.ipMethod, h.gateway,
             if |h.addresses| > 0 then Some(h.addresses[0].address) else None,
             if |h.addresses| > 0 then Some(h.addresses[0].prefix) else None,
             if |h.dns| > 0 then Some(h.dns[0]) else None)
  }

  lemma AddressReads(v: Value, a: NetworkAddress)
    requires StoresAddress(v, a)
    ensures var u := UnwrapVariantDeep(v); AsString(Field(u, "address")) == Some(a.address) && AsNat(Field(u, "prefix")) == Some(a.prefix)
  {
    assert UnwrapVariantDeep(v.entries["address"]) == Str(a.address) && UnwrapVariantDeep(v.entries["prefix"]) == Num(a.prefix);
    assert UnwrapVariantDeep(v) == Object(map k | k in v.entries :: UnwrapVariantDeep(v.entries[k]));
    hide UnwrapVariantDeep;
  }

  lemma AddressesRead(stored: VariantObject, addresses: seq<NetworkAddress>, v: Value)
    requires StoresAddresses(stored, addresses)
    requires v == UnwrapVariantDeep(if "address-data" in stored then stored["address-data"] else AddressDataVariant([]))
    ensures v.Array? && |v.items| == |addresses|
    ensures addresses != [] ==> AsString(Field(v.items[0], "address")) == Some(addresses[0].address) && AsNat(Field(v.items[0], "prefix")) == Some(addresses[0].prefix)
  {
    if "address-data" in stored {
      var items := stored["address-data"].value.items;
      assert v == Array(seq(|items|, i requires 0 <= i < |items| => UnwrapVariantDeep(items[i])));
      hide UnwrapVariantDeep;
      if addresses != [] { AddressReads(items[0], addresses[0]); }
    }
  }

  lemma ServersRead(stored: VariantObject, dns: seq<string>, v: Value)
    requires StoresServers(stored, dns) && "dns-data" in stored && v == UnwrapVariantDeep(stored["dns-data"])
    ensures v.Array? && |v.items| == |dns| && (dns != [] ==> v.items[0] == Str(dns[0]))
  {
    var items := stored["dns-data"].value.items;
    assert v == Array(seq(|items|, i requires 0 <= i < |items| => UnwrapVariantDeep(items[i])));
    if dns != [] { assert UnwrapVariantDeep(items[0]) == Str(dns[0]); }
  }

  lemma StringReads(stored: VariantObject, key: string, s: Option<string>)
    requires StoresString(stored, key, s)
    ensures AsString(Unwrapped(Lookup(stored, key))) == s
  {
    if key in stored { assert UnwrapVariantDeep(stored[key]) == Str(s.value); }
    hide UnwrapVariantDeep;
  }

  lemma ReportsField(stored: VariantObject, reported: VariantObject, key: string)
    requires Reports(stored, reported) && !Poses(reported) && key in {"method", "gateway", "dns-data", "address-data"}
    ensures Field(UnwrapVariantDeep(Object(reported)), key) ==
              Unwrapped(if key == "address-data" && key !in stored then Some(AddressDataVariant([])) else Lookup(stored, key))
  {
    hide UnwrapVariantDeep, AddressDataVariant;
    EntryUnwraps(reported, key);
    assert Lookup(reported, key) == if key in reported then Some(reported[key]) else None;
  }

  /**
   * Main result of reading: of stored lists of any length, a report that does not pass for a variant
   * reads as the method, the gateway, the first address with its prefix and the first dns server.
   */
  lemma ReadsFirstOfEach(stored: VariantObject, h: StoredHalf, reported: VariantObject)
    requires Stores(stored, h) && Reports(stored, reported)
    ensures ReadHalf(reported) == if Poses(reported) then Err(CannotRead) else Ok(FirstOfEach(h))
  {
    if Poses(reported) {
      PosesAsVariant(reported);
    } else {
      ReportsField(stored, reported, "method");
      ReportsField(stored, reported, "gateway");
      ReportsField(stored, reported, "address-data");
      ReportsField(stored, reported, "dns-data");
      hide UnwrapVariantDeep, Reports, StoresAddresses, StoresServers, StoresString, AddressDataVariant;
      StringReads(stored, "method", h.ipMethod);
      StringReads(stored, "gateway", h.gateway);
      AddressesRead(stored, h.addresses, UnwrapVariantDeep(if "address-data" in stored then stored["address-data"] else AddressDataVariant([])));
      if "dns-data" in stored { ServersRead(stored, h.dns, UnwrapVariantDeep(stored["dns-data"])); } else { NoServers(stored, h.dns); }
    }
  }

  lemma NoServers(stored: VariantObject, dns: seq<string>)
    requires StoresServers(stored, dns) && "dns-data" !in stored
    ensures dns == []
  {
  }

  // ------------------------------------------------------------------ a half nobody submitted

  /** A half nobody submitted shows what it showed before, although deprecated keys are gone. */
  lemma UntouchedHalf(prior: VariantObject)
    ensures Shown(Edited(prior, None)) == Shown(prior)
  {
    hide AddressDataVariant;
  }

  /** What a half should read as after an accepted update. */
  function HalfAfter(prior: VariantObject, ip: Option<SimpleIp>, reported: VariantObject): Result<SimpleIp, ReadError>
  {
    if Poses(reported) then Err(CannotRead)
    else if ip.Some? then Ok(ReadBack(ip.value)) else ReadHalf(Shown(prior))
  }

  predicate BothStore(c: Connection, h4: StoredHalf, h6: StoredHalf)
  {
    "ipv4" in c && "ipv6" in c && Stores(c["ipv4"], h4) && Stores(c["ipv6"], h6)
  }

  /** Neither half of the report passes for a variant, nor does the report. */
  predicate NothingPoses(c: Connection)
  {
    "ipv4" in c && "ipv6" in c && !Poses(c["ipv4"]) && !Poses(c["ipv6"]) && !("value" in c && "signature" in c)
  }

  /** Removing the deprecated keys leaves what a half says. */
  lemma StillStores(prior: VariantObject, h: StoredHalf)
    requires Stores(prior, h)
    ensures Stores(Edited(prior, None), h)
  {
  }

  lemma EditedHalf(prior: VariantObject, ip: Option<SimpleIp>, after: VariantObject)
    requires ip.Some? ==> ToInternal(ip.value).Accepted()
    requires Reports(Edited(prior, Internal(ip)), after)
    ensures ReadHalf(after) == HalfAfter(prior, ip, after)
    ensures forall h :: Stores(prior, h) && ip.None? && !Poses(after) ==> ReadHalf(after) == Ok(FirstOfEach(h))
  {
    hide ReadHalf, Reports, Applied, Shown, Stores;
    forall h | Stores(prior, h) && ip.None? && !Poses(after) ensures ReadHalf(after) == Ok(FirstOfEach(h)) {
      StillStores(prior, h);
      ReadsFirstOfEach(Edited(prior, None), h, after);
    }
    if ip.Some? {
      SubmitThenRead(prior, ip.value, after);
    } else {
      ReadIsOfStored(Edited(prior, None), after);
      UntouchedHalf(prior);
    }
  }

  /**
   * Main result, through the whole service: once an update is answered, reading the active connection
   * gives back each half that was submitted, and for a half that was not submitted what was stored
   * before; only a report with both a `value` and a `signature` entry, or group, is misread.
   */
  lemma UpdateThenGet(nm: Manager, device: string, ipv4: Option<SimpleIp>, ipv6: Option<SimpleIp>, rejected: S.Rejected, after: Connection)
    requires var a := S.Answer(nm, device, Internal(ipv4), Internal(ipv6), rejected);
             a.result.Ok? && device in nm.devices && device in a.manager.devices && ReportsConnection(a.manager.devices[device].profile, after)
    ensures var before := nm.devices[device].profile;
            && "ipv4" in before && "ipv6" in before
            && var new4, new6 := HalfAfter(before["ipv4"], ipv4, after["ipv4"]), HalfAfter(before["ipv6"], ipv6, after["ipv6"]);
            ActiveConnection(after) ==
              if "value" in after && "signature" in after then ReadBoth(after["value"])
              else if new4.Err? || new6.Err? then Err(CannotRead)
              else Ok((new4.value, new6.value))
    ensures var before := nm.devices[device].profile;
            forall h4, h6 :: BothStore(before, h4, h6) && NothingPoses(after) ==>
              ActiveConnection(after) == Ok((if ipv4.Some? then ReadBack(ipv4.value) else FirstOfEach(h4),
                                             if ipv6.Some? then ReadBack(ipv6.value) else FirstOfEach(h6)))
  {
    S.AnswerIsAllOrNothing(nm, device, Internal(ipv4), Internal(ipv6), rejected);
    var profile := nm.devices[device].profile;
    EditKeepsHalvesApart(profile, Internal(ipv4), Internal(ipv6));
    hide S.Answer, EditedConnection, Reports, ActiveConnection, Edited, ToSimple, UnwrapVariantDeep, Stores, Shown;
    EditedHalf(profile["ipv4"], ipv4, after["ipv4"]);
    EditedHalf(profile["ipv6"], ipv6, after["ipv6"]);
    ConnectionReadsHalves(after);
  }

  /** An edit goes through exactly when both halves are there and acceptable, and reaches nothing else. */
  lemma EditKeepsHalvesApart(current: Connection, ipv4: Option<UpdateIpSettings>, ipv6: Option<UpdateIpSettings>)
    ensures var edited := EditedConnection(current, ipv4, ipv6);
            && (edited.Ok? <==>
                  && "ipv4" in current && "ipv6" in current
                  && (ipv4.Some? ==> ipv4.value.Accepted()) && (ipv6.Some? ==> ipv6.value.Accepted()))
            && (edited.Ok? ==>
                  && edited.value.Keys == current.Keys
                  && forall k :: k in current ==> edited.value[k] == if k == "ipv4" then Edited(current[k], ipv4) else if k == "ipv6" then Edited(current[k], ipv6) else current[k])
  {
    hide Edited;
  }

  // ------------------------------------------------------------------ confirmation

  function ConfirmationUrl(server: string, id: string): string
  {
    server + "/device/network/commit" + "/" + id
  }

  /** The id cut from a checkpoint path, sent through the confirmation URL, names that checkpoint again. */
  lemma ConfirmationNamesTheCheckpoint(server: string, id: string)
    ensures CheckpointPath(LastSegment(ConfirmationUrl(server, CheckpointId(CheckpointPath(id))))) == CheckpointPath(id)
            <==> '/' !in id
  {
    var cut := CheckpointId(CheckpointPath(id));
    SplitIsFree(CheckpointPath(id), '/');
    LastSegmentIff(server + "/device/network/commit", cut);
    CheckpointIdRoundTrip(id);
    var root := CHECKPOINT_ROOT + "/";
    assert CheckpointPath(cut)[|root|..] == cut && CheckpointPath(id)[|root|..] == id;
  }

  /** A submission reaches the keys of the API and the deprecated ones, and no other, dns search domains included. */
  lemma SubmissionReachesItsKeys(prior: VariantObject, ip: Option<SimpleIp>, key: string)
    requires key !in {"method", "gateway", "address-data", "dns-data", "addresses", "dns", "routes"}
    ensures Lookup(Edited(prior, Internal(ip)), key) == Lookup(prior, key)
  {
    if ip.Some? {
      assert Lookup(Applied(prior - DEPRECATED, ToInternal(ip.value)), key) == EntryAfter(prior - DEPRECATED, ToInternal(ip.value), key);
    }
    hide Applied, AddressDataVariant, StringVariant, StringsVariant;
  }

  ghost predicate ProfileTyped(c: Connection)
  {
    forall k :: k in c ==> AllTyped(c[k])
  }

  /** Main result of sending: from a profile of typed variants, whatever is submitted, what is written and re-applied is one too. */
  lemma SentIsTyped(current: Connection, ipv4: Option<UpdateIpSettings>, ipv6: Option<UpdateIpSettings>)
    requires ProfileTyped(current)
    ensures EditedConnection(current, ipv4, ipv6).Ok? ==> ProfileTyped(EditedConnection(current, ipv4, ipv6).value)
  {
    hide Applied, AllTyped;
    if "ipv4" in current && "ipv6" in current {
      EditStaysTyped(current["ipv4"], ipv4);
      EditStaysTyped(current["ipv6"], ipv6);
    }
  }

  lemma EditStaysTyped(settings: VariantObject, changes: Option<UpdateIpSettings>)
    requires AllTyped(settings)
    ensures AllTyped(Edited(settings, changes))
  {
    assert AllTyped(settings - DEPRECATED);
    if changes.Some? { ChangesStayTyped(settings - DEPRECATED, changes.value); }
  }

  /** The link that is handed out. */
  lemma ConfirmationLink(server: string, id: string)
    ensures ConfirmationUrl(server, id) == server + "/device/network/commit/" + id
    ensures CheckpointPath(id) == "/org/freedesktop/NetworkManager/Checkpoint/" + id
  {
    assert "/device/network/commit" + "/" == "/device/network/commit/";
    assert server + "/device/network/commit" + "/" + id == server + ("/device/network/commit" + "/") + id;
    assert CHECKPOINT_ROOT + "/" == "/org/freedesktop/NetworkManager/Checkpoint/";
  }
}

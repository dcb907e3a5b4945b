/**
 * The adapter that edits the `ipv4` or `ipv6` dictionary of a connection profile before it is
 * sent back to NetworkManager.
 */
module ConnectionSettingsAdapter {
  import opened Wrappers
  import opened Variants

  /** A dictionary of variants, as GetSettings returns it. */
  type VariantObject = map<string, Value>

  /** A property of a partial record: left out, explicitly null, or given. */
  datatype Deletable<+T> = Undefined | Null | Given(value: T)

  datatype NetworkAddress = NetworkAddress(address: string, prefix: nat)

  datatype UpdateIpSettings = UpdateIpSettings(
    ipMethod: Option<string>,
    addressData: Deletable<seq<NetworkAddress>>,
    gateway: Deletable<string>,
    dnsData: Deletable<seq<string>>,
    dnsSearch: Deletable<seq<string>>)
  {
    predicate IsDHCP() { ipMethod == Some("auto") }
    predicate HasAddress() { addressData.Given? && addressData.value != [] }
    predicate HasGateway() { gateway.Given? && gateway.value != "" }
    predicate Accepted() { IsDHCP() || (HasAddress() && HasGateway()) }
  }

  datatype SettingsError = NoStaticIp | NoGateway | GatewayWithoutAddresses

  const DEPRECATED := {"addresses", "dns", "routes"}

  function AddressDataVariant(addresses: seq<NetworkAddress>): Value
  {
    Variant("aa{sv}", Array(seq(|addresses|, i requires 0 <= i < |addresses| =>
      Object(map["address" := Variant("s", Str(addresses[i].address)),
                 "prefix" := Variant("u", Num(addresses[i].prefix))]))))
  }

  function StringsVariant(strings: seq<string>): Value
  {
    Variant("as", Array(seq(|strings|, i requires 0 <= i < |strings| => Str(strings[i]))))
  }

  function StringVariant(s: string): Value
  {
    Variant("s", Str(s))
  }

  class IpSettingsVariantAdapter {
    var variantObject: VariantObject

    constructor (settings: VariantObject)
      ensures variantObject == settings - DEPRECATED
      ensures forall k :: Lookup(variantObject, k) == if k in {"addresses", "dns", "routes"} then None else Lookup(settings, k)
    {
      variantObject := settings;
      new;
      DeleteProperty("addresses");
      DeleteProperty("dns");
      DeleteProperty("routes");
    }

    /**
     * The dictionary ends up as `Applied` says, key by key. Only the two validations can fail: the
     * check inside `SetGateway` is never reached with the address list missing or empty.
     */
    method ApplyChanges(changes: Option<UpdateIpSettings>) returns (r: Result<VariantObject, SettingsError>)
      modifies this
      ensures variantObject == if changes.Some? then Applied(old(variantObject), changes.value) else old(variantObject)
      ensures r.Ok? ==> r.value == variantObject
      ensures r.Ok? <==> changes.None? || changes.value.Accepted()
      ensures r.Err? ==> r.error == if changes.value.HasAddress() then NoGateway else NoStaticIp
    {
      hide AddressDataVariant, StringVariant, StringsVariant, TakesGateway, Applied;
      if changes.Some? {
        var c := changes.value;
        SetDnsData(c.dnsData);
        SetDnsSearch(c.dnsSearch);
        if c.IsDHCP() {
          SetDHCP();
        } else {
          var e := SetManual(c);
          if e.Some? {
            SameEntries(variantObject, Applied(old(variantObject), c));
            return Err(e.value);
          }
        }
        SameEntries(variantObject, Applied(old(variantObject), c));
      }
      r := Ok(variantObject);
    }

    method SetDnsData(dnsData: Deletable<seq<string>>)
      modifies this
      ensures Lookup(variantObject, "dns-data") == EntryOrOld(dnsData, StringsVariant, Lookup(old(variantObject), "dns-data"))
      ensures forall k :: k != "dns-data" ==> Lookup(variantObject, k) == Lookup(old(variantObject), k)
    {
      match dnsData {
        case Undefined =>
        case Null => DeleteProperty("dns-data");
        case Given(dns) => variantObject := variantObject["dns-data" := StringsVariant(dns)];
      }
    }

    method SetDnsSearch(dnsSearch: Deletable<seq<string>>)
      modifies this
      ensures Lookup(variantObject, "dns-search") == EntryOrOld(dnsSearch, StringsVariant, Lookup(old(variantObject), "dns-search"))
      ensures forall k :: k != "dns-search" ==> Lookup(variantObject, k) == Lookup(old(variantObject), k)
    {
      match dnsSearch {
        case Undefined =>
        case Null => DeleteProperty("dns-search");
        case Given(search) => variantObject := variantObject["dns-search" := StringsVariant(search)];
      }
    }

    method SetDHCP()
      modifies this
      ensures variantObject == (old(variantObject) - {"address-data", "gateway"})["method" := StringVariant("auto")]
    {
      DeleteProperty("address-data");
      DeleteProperty("gateway");
      SetMethod("auto");
    }

    method SetManual(changes: UpdateIpSettings) returns (e: Option<SettingsError>)
      modifies this
      ensures e == if !changes.HasAddress() then Some(NoStaticIp)
                   else if !changes.HasGateway() then Some(NoGateway) else None
      ensures e.Some? ==> variantObject == old(variantObject)
      ensures e.None? ==> variantObject == old(variantObject)[
        "address-data" := AddressDataVariant(changes.addressData.value)][
        "gateway" := StringVariant(changes.gateway.value)]["method" := StringVariant("manual")]
    {
      if !changes.HasAddress() {
        return Some(NoStaticIp);
      }
      if !changes.HasGateway() {
        return Some(NoGateway);
      }
      variantObject := variantObject["address-data" := AddressDataVariant(changes.addressData.value)];
      e := SetGateway(changes.gateway.value);
      SetMethod("manual");
    }

    /**
     * Refuses a gateway when `address-data` is missing, has no content, or has one whose length is 0;
     * a content without a length passes.
     */
    method SetGateway(gateway: string) returns (e: Option<SettingsError>)
      modifies this
      ensures e.None? <==> TakesGateway(old(variantObject))
      ensures e.Some? ==> e.value == GatewayWithoutAddresses && variantObject == old(variantObject)
      ensures e.None? ==> variantObject == old(variantObject)["gateway" := StringVariant(gateway)]
    {
      if !TakesGateway(variantObject) {
        return Some(GatewayWithoutAddresses);
      }
      variantObject := variantObject["gateway" := StringVariant(gateway)];
      e := None;
    }

    method SetMethod(name: string)
      modifies this
      ensures variantObject == old(variantObject)["method" := StringVariant(name)]
    {
      variantObject := variantObject["method" := StringVariant(name)];
    }

    method DeleteProperty(name: string)
      modifies this
      ensures variantObject == old(variantObject) - {name}
    {
      variantObject := variantObject - {name};
    }
  }

  // ------------------------------------------------------------------ specification

  function Lookup(settings: VariantObject, key: string): Option<Value>
  {
    if key in settings then Some(settings[key]) else None
  }

  /** `address-data` is there and its content is a non-empty list. */
  predicate HoldsAddresses(settings: VariantObject)
  {
    "address-data" in settings
    && var v := settings["address-data"]; v.Variant? && v.value.Array? && v.value.items != []
  }

  /** The property `value` of an entry. */
  function ContentOf(v: Value): Option<Value>
  {
    if v.Variant? then Some(v.value)
    else if v.Object? && "value" in v.entries then Some(v.entries["value"])
    else None
  }

  /** The property `length` of a value. */
  function LengthOf(v: Value): Option<Value>
  {
    match v
    case Str(s) => Some(Num(|s|))
    case Array(items) => Some(Num(|items|))
    case Object(entries) => Lookup(entries, "length")
    case _ => None
  }

  predicate TakesGateway(settings: VariantObject)
  {
    "address-data" in settings
    && var content := ContentOf(settings["address-data"]);
    content.Some? && LengthOf(content.value) != Some(Num(0))
  }

  function EntryOrOld<T>(change: Deletable<T>, wrap: T -> Value, old_: Option<Value>): Option<Value>
  {
    match change
    case Undefined => old_
    case Null => None
    case Given(x) => Some(wrap(x))
  }

  /** What each key holds after a change; a rejected change reaches the dns keys only. */
  function EntryAfter(before: VariantObject, c: UpdateIpSettings, key: string): Option<Value>
  {
    if key == "dns-data" then EntryOrOld(c.dnsData, StringsVariant, Lookup(before, key))
    else if key == "dns-search" then EntryOrOld(c.dnsSearch, StringsVariant, Lookup(before, key))
    else if key !in {"address-data", "gateway", "method"} || !c.Accepted() then Lookup(before, key)
    else if c.IsDHCP() then (if key == "method" then Some(StringVariant("auto")) else None)
    else if key == "address-data" then Some(AddressDataVariant(c.addressData.value))
    else if key == "gateway" then Some(StringVariant(c.gateway.value))
    else Some(StringVariant("manual"))
  }

  const CHANGEABLE := {"dns-data", "dns-search", "address-data", "gateway", "method"}

  function Applied(before: VariantObject, c: UpdateIpSettings): (after: VariantObject)
    ensures forall k :: Lookup(after, k) == EntryAfter(before, c, k)
  {
    map k | k in before.Keys + CHANGEABLE && EntryAfter(before, c, k).Some? :: EntryAfter(before, c, k).value
  }

  lemma SameEntries(a: VariantObject, b: VariantObject)
    requires forall k :: Lookup(a, k) == Lookup(b, k)
    ensures a == b
  {
    forall k ensures k in a <==> k in b { assert Lookup(a, k) == Lookup(b, k); }
    forall k | k in a ensures a[k] == b[k] { assert Lookup(a, k) == Lookup(b, k); }
  }

  // ------------------------------------------------------------------ properties

  /** Automatic without static parts, or manual with at least one address and a gateway. */
  ghost predicate Coherent(settings: VariantObject)
  {
    || (&& Lookup(settings, "method") == Some(StringVariant("auto"))
        && "address-data" !in settings && "gateway" !in settings)
    || (&& Lookup(settings, "method") == Some(StringVariant("manual"))
        && HoldsAddresses(settings) && "gateway" in settings)
  }

  function ApplyAll(settings: VariantObject, changes: seq<Option<UpdateIpSettings>>): VariantObject
  {
    if changes == [] then settings
    else
      var before := ApplyAll(settings, changes[..|changes| - 1]);
      var last := changes[|changes| - 1];
      if last.Some? then Applied(before, last.value) else before
  }

  ghost predicate AnyAccepted(changes: seq<Option<UpdateIpSettings>>)
  {
    exists i :: 0 <= i < |changes| && changes[i].Some? && changes[i].value.Accepted()
  }

  /**
   * Over any sequence of changes, rejected and absent ones included: the settings end coherent
   * exactly when they started so or some change was accepted, the deprecated keys never come back,
   * and every other key keeps its entry.
   */
  lemma {:induction false} RunOfChanges(settings: VariantObject, changes: seq<Option<UpdateIpSettings>>)
    ensures var after := ApplyAll(settings - DEPRECATED, changes);
            && (Coherent(after) <==> Coherent(settings) || AnyAccepted(changes))
            && after.Keys !! DEPRECATED
            && forall k :: k !in CHANGEABLE + DEPRECATED ==> Lookup(after, k) == Lookup(settings, k)
    decreases |changes|
  {
    hide Applied, Coherent, HoldsAddresses, UpdateIpSettings.Accepted;
    if changes == [] {
      StartCoherence(settings);
    } else {
      var init, last := changes[..|changes| - 1], changes[|changes| - 1];
      RunOfChanges(settings, init);
      var before := ApplyAll(settings - DEPRECATED, init);
      var after := ApplyAll(settings - DEPRECATED, changes);
      if last.Some? {
        ChangeCoherence(before, last.value);
        forall k ensures k in DEPRECATED ==> k !in after {
          assert Lookup(after, k) == EntryAfter(before, last.value, k);
        }
      }
      if AnyAccepted(changes) && !AnyAccepted(init) {
        var i :| 0 <= i < |changes| && changes[i].Some? && changes[i].value.Accepted();
        assert forall j :: 0 <= j < |init| ==> init[j] == changes[j];
        assert i == |changes| - 1;
      }
      if AnyAccepted(init) {
        var i :| 0 <= i < |init| && init[i].Some? && init[i].value.Accepted();
        assert changes[i] == init[i];
      }
    }
  }

  lemma StartCoherence(settings: VariantObject)
    ensures Coherent(settings - DEPRECATED) <==> Coherent(settings)
  {
  }

  /** An accepted change makes the settings coherent; a rejected one does not touch what coherence reads. */
  lemma ChangeCoherence(before: VariantObject, c: UpdateIpSettings)
    ensures Coherent(Applied(before, c)) <==> Coherent(before) || c.Accepted()
    ensures !c.Accepted() ==> forall k :: k !in {"dns-data", "dns-search"} ==> Lookup(Applied(before, c), k) == Lookup(before, k)
  {
    var after := Applied(before, c);
    forall k | k in {"address-data", "gateway", "method"}
      ensures Lookup(after, k) == EntryAfter(before, c, k)
      ensures k in after <==> EntryAfter(before, c, k).Some?
    {
      assert Lookup(after, k) == EntryAfter(before, c, k);
    }
  }

  /** Applying a change twice is applying it once. */
  lemma ChangeAbsorbsItself(before: VariantObject, c: UpdateIpSettings)
    ensures Applied(Applied(before, c), c) == Applied(before, c)
  {
    forall k ensures Lookup(Applied(Applied(before, c), c), k) == Lookup(Applied(before, c), k) {
      assert Lookup(Applied(before, c), k) == EntryAfter(before, c, k);
      assert Lookup(Applied(Applied(before, c), c), k) == EntryAfter(Applied(before, c), c, k);
    }
    SameEntries(Applied(Applied(before, c), c), Applied(before, c));
  }

  /** An accepted change that speaks about every dns key the earlier one spoke about leaves nothing of it. */
  lemma ChangeOverrides(before: VariantObject, earlier: UpdateIpSettings, later: UpdateIpSettings)
    requires later.Accepted()
    requires later.dnsData.Undefined? ==> earlier.dnsData.Undefined?
    requires later.dnsSearch.Undefined? ==> earlier.dnsSearch.Undefined?
    ensures Applied(Applied(before, earlier), later) == Applied(before, later)
  {
    var mid := Applied(before, earlier);
    forall k ensures Lookup(Applied(mid, later), k) == Lookup(Applied(before, later), k) {
      assert Lookup(mid, k) == EntryAfter(before, earlier, k);
      assert Lookup(Applied(mid, later), k) == EntryAfter(mid, later, k);
      assert Lookup(Applied(before, later), k) == EntryAfter(before, later, k);
    }
    SameEntries(Applied(mid, later), Applied(before, later));
  }

  /**
   * Any method name other than `auto` goes down the manual path: `dhcp`, which the IPv6 request
   * offers, is validated and stored exactly as `manual`.
   */
  lemma OtherMethodsAreManual(before: VariantObject, c: UpdateIpSettings, name: string)
    requires name != "auto"
    ensures var named := c.(ipMethod := Some(name));
            var manual := c.(ipMethod := Some("manual"));
            && named.Accepted() == manual.Accepted()
            && Applied(before, named) == Applied(before, manual)
            && (named.Accepted() ==> Lookup(Applied(before, named), "method") == Some(StringVariant("manual")))
  {
    var named, manual := c.(ipMethod := Some(name)), c.(ipMethod := Some("manual"));
    forall k ensures Lookup(Applied(before, named), k) == Lookup(Applied(before, manual), k) {
      assert EntryAfter(before, named, k) == EntryAfter(before, manual, k);
    }
    SameEntries(Applied(before, named), Applied(before, manual));
    assert EntryAfter(before, named, "method") == EntryAfter(before, manual, "method");
  }

  // ------------------------------------------------------------------ types on the bus

  /** The value is one the D-Bus signature allows; signatures that no setter uses are not looked into. */
  ghost predicate Typed(signature: string, v: Value)
    decreases v, 0
  {
    if signature == "s" then v.Str?
    else if signature == "u" then v.Num? && v.n >= 0
    else if signature == "as" then v.Array? && forall i :: 0 <= i < |v.items| ==> v.items[i].Str?
    else if signature == "aa{sv}" then
      v.Array? && forall i :: 0 <= i < |v.items| ==>
        v.items[i].Object? && forall k :: k in v.items[i].entries ==> TypedVariant(v.items[i].entries[k])
    else true
  }

  ghost predicate TypedVariant(v: Value)
    decreases v, 1
  {
    v.Variant? && Typed(v.signature, v.value)
  }

  ghost predicate AllTyped(settings: VariantObject)
  {
    forall k :: k in settings ==> TypedVariant(settings[k])
  }

  /** A string under the signature of strings. */
  predicate SendsString(entry: Option<Value>, s: string)
  {
    entry == Some(Variant("s", Str(s)))
  }

  predicate SendsStrings(entry: Option<Value>, strings: seq<string>)
  {
    && entry.Some? && entry.value.Variant? && entry.value.signature == "as"
    && entry.value.value.Array? && |entry.value.value.items| == |strings|
    && forall i :: 0 <= i < |strings| ==> entry.value.value.items[i] == Str(strings[i])
  }

  predicate SendsAddresses(entry: Option<Value>, addresses: seq<NetworkAddress>)
  {
    && entry.Some? && entry.value.Variant? && entry.value.signature == "aa{sv}"
    && entry.value.value.Array? && |entry.value.value.items| == |addresses|
    && forall i :: 0 <= i < |addresses| ==>
         entry.value.value.items[i] ==
           Object(map["address" := Variant("s", Str(addresses[i].address)), "prefix" := Variant("u", Num(addresses[i].prefix))])
  }

  /** What an accepted change sends, value by value and signature by signature. */
  lemma ChangeSends(before: VariantObject, c: UpdateIpSettings)
    requires c.Accepted()
    ensures var after := Applied(before, c);
            && SendsString(Lookup(after, "method"), if c.ipMethod == Some("auto") then "auto" else "manual")
            && (c.ipMethod == Some("auto") ==> "gateway" !in after && "address-data" !in after)
            && (c.ipMethod != Some("auto") ==>
                  && c.gateway.Given? && SendsString(Lookup(after, "gateway"), c.gateway.value)
                  && c.addressData.Given? && SendsAddresses(Lookup(after, "address-data"), c.addressData.value))
  {
    var after := Applied(before, c);
    forall k | k in {"method", "gateway", "address-data"} ensures Lookup(after, k) == EntryAfter(before, c, k) {}
    hide Applied;
  }

  /** What any change, accepted or not, sends as dns settings. */
  lemma ChangeSendsDns(before: VariantObject, c: UpdateIpSettings)
    ensures var after := Applied(before, c);
            && (c.dnsData.Given? ==> SendsStrings(Lookup(after, "dns-data"), c.dnsData.value))
            && (c.dnsSearch.Given? ==> SendsStrings(Lookup(after, "dns-search"), c.dnsSearch.value))
            && (c.dnsData.Null? ==> "dns-data" !in after) && (c.dnsSearch.Null? ==> "dns-search" !in after)
            && (c.dnsData.Undefined? ==> Lookup(after, "dns-data") == Lookup(before, "dns-data"))
            && (c.dnsSearch.Undefined? ==> Lookup(after, "dns-search") == Lookup(before, "dns-search"))
  {
    var after := Applied(before, c);
    forall k | k in {"dns-data", "dns-search"} ensures Lookup(after, k) == EntryAfter(before, c, k) {}
    hide Applied;
  }

  /** Whatever is changed, a dictionary of typed variants stays one. */
  lemma ChangesStayTyped(before: VariantObject, c: UpdateIpSettings)
    requires AllTyped(before)
    ensures AllTyped(Applied(before, c))
  {
    var after := Applied(before, c);
    hide Applied;
    forall k | k in after ensures TypedVariant(after[k]) {
      assert Lookup(after, k) == EntryAfter(before, c, k);
      EntryIsTyped(before, c, k);
    }
  }

  lemma EntryIsTyped(before: VariantObject, c: UpdateIpSettings, k: string)
    requires AllTyped(before) && EntryAfter(before, c, k).Some?
    ensures TypedVariant(EntryAfter(before, c, k).value)
  {
    if c.addressData.Given? { AddressesAreTyped(c.addressData.value); }
    if c.dnsData.Given? { assert TypedVariant(StringsVariant(c.dnsData.value)); }
    if c.dnsSearch.Given? { assert TypedVariant(StringsVariant(c.dnsSearch.value)); }
    hide AddressDataVariant, StringsVariant;
  }

  lemma AddressesAreTyped(addresses: seq<NetworkAddress>)
    ensures TypedVariant(AddressDataVariant(addresses))
  {
    var items := AddressDataVariant(addresses).value.items;
    forall i, k | 0 <= i < |items| && k in items[i].entries ensures TypedVariant(items[i].entries[k]) {}
  }
}

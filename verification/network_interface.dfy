/**
 * internal/tfschema/network_interface.go: the maas_interface_physical resource's view of
 * the Terraform state, its resource ID "<SystemID>:<InterfaceID>", and the parameters it
 * sends to create or update the interface.
 */
module PhysicalInterface {
  import opened Wrappers
  import opened Strings
  import opened TerraformState

  datatype NetworkInterfacePhysical = NetworkInterfacePhysical(
    interfaceID: Int64, systemID: string, name: string, macAddress: string,
    tags: seq<string>, vlan: string, mtu: Int64, acceptRA: bool, autoconf: bool)

  /** The create_physical parameters: everything but the two identifiers. */
  datatype PhysicalParams = PhysicalParams(
    name: string, macAddress: string, tags: seq<string>, vlan: string,
    mtu: Int64, acceptRA: bool, autoconf: bool)

  /** The attributes the resource declares, with their types. */
  const PhysicalSchema: map<string, ValueType> := map[
    "system_id" := TypeString, "interface_id" := TypeInt, "name" := TypeString,
    "mac_address" := TypeString, "tags" := TypeSet, "vlan" := TypeString, "mtu" := TypeInt,
    "accept_ra" := TypeBool, "autoconf" := TypeBool]

  // ---------------------------------------------------------------- the resource ID

  /** GetID: the resource ID, or the first missing identifier. */
  function GetID(i: NetworkInterfacePhysical): (r: Result<string, string>)
    ensures i.systemID == "" ==> r == Failure("SystemID is empty")
    ensures i.systemID != "" && i.interfaceID == 0 ==> r == Failure("InterfaceID is zero")
    ensures r.Success? <==> i.systemID != "" && i.interfaceID != 0
  {
    if i.systemID == "" then Failure("SystemID is empty")
    else if i.interfaceID == 0 then Failure("InterfaceID is zero")
    else Success(i.systemID + ":" + Itoa(i.interfaceID))
  }

  /**
   * The ID parsing in NewNetworkInterfacePhysical: the text before the first ':' is the
   * system ID, the rest is read as a decimal integer whose parse error is ignored. An ID
   * without ':' slices with index -1, which panics.
   */
  function ParseID(id: string): (r: Result<(string, Int64), Panic>)
    ensures r.Failure? <==> ':' !in id
    ensures r.Success? ==> ':' !in r.value.0 && |r.value.0| < |id|
    ensures r.Success? ==> id == r.value.0 + ":" + id[|r.value.0| + 1..]
    ensures r.Success? ==> r.value.1 == Atoi(id[|r.value.0| + 1..]).0
  {
    match IndexOf(id, ':')
    case None => Failure(Panic("slice bounds out of range [:-1]"))
    case Some(k) =>
      assert id == id[..k] + ":" + id[k + 1..];
      Success((id[..k], Atoi(id[k + 1..]).0))
  }

  /** Parsing an ID that GetID produced gives back both identifiers. */
  lemma IDRoundTrip(i: NetworkInterfacePhysical)
    requires i.systemID != "" && ':' !in i.systemID && i.interfaceID != 0
    ensures GetID(i).Success?
    ensures ParseID(GetID(i).value) == Success((i.systemID, i.interfaceID))
  {
    var id := GetID(i).value;
    var rest := Itoa(i.interfaceID);
    assert id == i.systemID + [':'] + rest;
    IndexOfAfter(i.systemID, ':', rest);
    assert id[..|i.systemID|] == i.systemID;
    assert id[|i.systemID| + 1..] == rest;
    AtoiItoa(i.interfaceID);
  }

  /** A suffix that is not a decimal integer gives InterfaceID 0. */
  lemma NonNumericSuffix(systemID: string, rest: string)
    requires ':' !in systemID && SignedValue(rest).None?
    ensures ParseID(systemID + ":" + rest) == Success((systemID, 0))
  {
    var id := systemID + ":" + rest;
    IndexOfAfter(systemID, ':', rest);
    assert id[..|systemID|] == systemID;
    assert id[|systemID| + 1..] == rest;
    assert Atoi(rest).0 == 0;
    assert ParseID(id) == Success((id[..|systemID|], Atoi(id[|systemID| + 1..]).0));
  }

  // ---------------------------------------------------------------- reading the state

  /** The two identifiers: from the resource ID when system_id is empty, else from the attributes. */
  function Identity(d: ResourceData): (r: Result<(string, Int64), Panic>)
  {
    var systemID :- AsString(Get(d, "system_id"));
    if systemID == "" then ParseID(d.id)
    else
      var interfaceID :- AsInt(Get(d, "interface_id"));
      Success((systemID, interfaceID))
  }

  /** The tags of the set, each asserted to be a string, in list order. */
  function Tags(elems: seq<Value>): (r: Result<seq<string>, Panic>)
    ensures r.Success? <==> forall k :: 0 <= k < |elems| ==> elems[k].Str?
    ensures r.Success? ==> |r.value| == |elems| && forall k :: 0 <= k < |elems| ==> r.value[k] == elems[k].s
    decreases |elems|
  {
    if elems == [] then Success([])
    else
      var front :- Tags(elems[..|elems| - 1]);
      var tag :- AsString(Some(elems[|elems| - 1]));
      Success(front + [tag])
  }

  /** NewNetworkInterfacePhysical, as a function of the state. */
  function FromState(d: ResourceData): Result<NetworkInterfacePhysical, Panic>
  {
    var ident :- Identity(d);
    var name :- AsString(Get(d, "name"));
    var macAddress :- AsString(Get(d, "mac_address"));
    var vlan :- AsString(Get(d, "vlan"));
    var mtu :- AsInt(Get(d, "mtu"));
    var acceptRA :- AsBool(Get(d, "accept_ra"));
    var autoconf :- AsBool(Get(d, "autoconf"));
    var elems :- AsSetList(Get(d, "tags"));
    var tags :- Tags(elems);
    Success(NetworkInterfacePhysical(ident.1, ident.0, name, macAddress, tags, vlan, mtu, acceptRA, autoconf))
  }

  /** The tag strings of a set whose elements are all strings. */
  predicate StringSet(v: Value)
  {
    v.Set? && forall k :: 0 <= k < |v.elems| ==> v.elems[k].Str?
  }

  /**
   * A state that conforms to the resource's schema reads without a panic, unless
   * system_id is empty and the resource ID has no ':'; every attribute is copied.
   */
  lemma FromConformingState(d: ResourceData)
    requires Conforms(d, PhysicalSchema) && StringSet(d.values["tags"])
    ensures FromState(d).Failure? <==> d.values["system_id"].s == "" && ':' !in d.id
    ensures FromState(d).Success? ==>
      var i := FromState(d).value;
      i.name == d.values["name"].s && i.macAddress == d.values["mac_address"].s &&
      i.vlan == d.values["vlan"].s && i.mtu == d.values["mtu"].i &&
      i.acceptRA == d.values["accept_ra"].b && i.autoconf == d.values["autoconf"].b &&
      |i.tags| == |d.values["tags"].elems| &&
      (forall k :: 0 <= k < |i.tags| ==> i.tags[k] == d.values["tags"].elems[k].s)
    ensures d.values["system_id"].s != "" ==>
      FromState(d).Success? &&
      FromState(d).value.systemID == d.values["system_id"].s &&
      FromState(d).value.interfaceID == d.values["interface_id"].i
  {
    assert "system_id" in PhysicalSchema && "interface_id" in PhysicalSchema;
    assert "name" in PhysicalSchema && "mac_address" in PhysicalSchema && "vlan" in PhysicalSchema;
    assert "mtu" in PhysicalSchema && "accept_ra" in PhysicalSchema && "autoconf" in PhysicalSchema;
    assert "tags" in PhysicalSchema;
  }

  /** When system_id is set, the resource ID is not consulted. */
  lemma SystemIDSetIgnoresID(d: ResourceData, otherID: string)
    requires "system_id" in d.values && d.values["system_id"].Str? && d.values["system_id"].s != ""
    ensures FromState(d) == FromState(d.(id := otherID))
  {
    assert Identity(d) == Identity(d.(id := otherID));
  }

  /** An import (empty system_id) of an ID that GetID produced recovers both identifiers. */
  lemma ImportRoundTrip(d: ResourceData, i: NetworkInterfacePhysical)
    requires i.systemID != "" && ':' !in i.systemID && i.interfaceID != 0
    requires GetID(i).Success? && d.id == GetID(i).value
    requires "system_id" in d.values && d.values["system_id"] == Str("")
    ensures Identity(d) == Success((i.systemID, i.interfaceID))
  {
    IDRoundTrip(i);
  }

  /**
   * NewNetworkInterfacePhysical: reads the identifiers and the attributes in the source's
   * order, then appends the tags one by one.
   */
  method NewNetworkInterfacePhysical(d: ResourceData) returns (r: Result<NetworkInterfacePhysical, Panic>)
    ensures r == FromState(d)
  {
    var ident := Identity(d);
    if ident.Failure? { return Failure(ident.error); }
    var name := AsString(Get(d, "name"));
    if name.Failure? { return Failure(name.error); }
    var macAddress := AsString(Get(d, "mac_address"));
    if macAddress.Failure? { return Failure(macAddress.error); }
    var vlan := AsString(Get(d, "vlan"));
    if vlan.Failure? { return Failure(vlan.error); }
    var mtu := AsInt(Get(d, "mtu"));
    if mtu.Failure? { return Failure(mtu.error); }
    var acceptRA := AsBool(Get(d, "accept_ra"));
    if acceptRA.Failure? { return Failure(acceptRA.error); }
    var autoconf := AsBool(Get(d, "autoconf"));
    if autoconf.Failure? { return Failure(autoconf.error); }
    var elems := AsSetList(Get(d, "tags"));
    if elems.Failure? { return Failure(elems.error); }
    var tags := AppendTags(elems.value);
    if tags.Failure? { return Failure(tags.error); }
    r := Success(NetworkInterfacePhysical(ident.value.1, ident.value.0, name.value, macAddress.value,
                                          tags.value, vlan.value, mtu.value, acceptRA.value, autoconf.value));
  }

  /** The tag loop: appends each element, asserted to be a string, in list order. */
  method AppendTags(elems: seq<Value>) returns (r: Result<seq<string>, Panic>)
    ensures r == Tags(elems)
  {
    var tags: seq<string> := [];
    for k := 0 to |elems|
      invariant Tags(elems[..k]) == Success(tags)
    {
      assert elems[..k + 1][..k] == elems[..k];
      var tag := AsString(Some(elems[k]));
      if tag.Failure? {
        assert Tags(elems[..k + 1]).Failure?;
        FailureSticks(elems, k + 1);
        return Failure(tag.error);
      }
      tags := tags + [tag.value];
    }
    assert elems[..|elems|] == elems;
    r := Success(tags);
  }

  /** Once a prefix of the tags fails, the whole list fails with the same panic. */
  lemma {:induction false} FailureSticks(elems: seq<Value>, n: nat)
    requires n <= |elems| && Tags(elems[..n]).Failure?
    ensures Tags(elems) == Tags(elems[..n])
    decreases |elems| - n
  {
    if n < |elems| {
      assert elems[..n + 1][..n] == elems[..n];
      FailureSticks(elems, n + 1);
    } else {
      assert elems[..n] == elems;
    }
  }

  // ---------------------------------------------------------------- parameters

  /** Params: the create/update parameters copy every attribute but the identifiers. */
  function Params(i: NetworkInterfacePhysical): (p: PhysicalParams)
    ensures p.name == i.name && p.macAddress == i.macAddress && p.tags == i.tags
    ensures p.vlan == i.vlan && p.mtu == i.mtu && p.acceptRA == i.acceptRA && p.autoconf == i.autoconf
  {
    PhysicalParams(i.name, i.macAddress, i.tags, i.vlan, i.mtu, i.acceptRA, i.autoconf)
  }

  /** Two interfaces that differ only in their identifiers send the same parameters. */
  lemma ParamsIgnoreIdentity(i: NetworkInterfacePhysical, systemID: string, interfaceID: Int64)
    ensures Params(i) == Params(i.(systemID := systemID, interfaceID := interfaceID))
  {
  }
}

/**
 * internal/tfschema/network_interface_link.go: the maas_interface_link resource's view of
 * the Terraform state, its resource ID "<SystemID>:<InterfaceID>:<SubnetID>", and the
 * parameters it sends to link or unlink a subnet.
 *
 * net.ParseIP is a parameter: it yields None (nil) for text that is not an IP address.
 */
module InterfaceLink {
  import opened Wrappers
  import opened Strings
  import opened TerraformState

  type IP = seq<bv8>
  type IPParser = string -> Option<IP>

  datatype NetworkInterfaceLink = NetworkInterfaceLink(
    systemID: string, interfaceID: Int64, subnetID: Int64, mode: string,
    ipAddress: Option<IP>, force: bool, defaultGateway: Option<IP>)

  /** The link_subnet parameters: the subnet ID under "subnet", then the link attributes. */
  datatype LinkParams = LinkParams(
    subnet: Int64, mode: string, ipAddress: Option<IP>, force: bool, defaultGateway: Option<IP>)

  /** The attributes the maas_interface_link resource declares, with their types. */
  const LinkSchema: map<string, ValueType> := map[
    "system_id" := TypeString, "interface_id" := TypeInt, "subnet_id" := TypeInt,
    "mode" := TypeString, "ip_address" := TypeString, "force" := TypeBool,
    "default_gateway" := TypeString]

  // ---------------------------------------------------------------- the resource ID

  /** GetID: the resource ID, or the first missing identifier. */
  function GetID(l: NetworkInterfaceLink): (r: Result<string, string>)
    ensures l.systemID == "" ==> r == Failure("SystemID is empty")
    ensures l.systemID != "" && l.interfaceID == 0 ==> r == Failure("InterfaceID is zero")
    ensures l.systemID != "" && l.interfaceID != 0 && l.subnetID == 0 ==> r == Failure("SubnetID is zero")
    ensures r.Success? <==> l.systemID != "" && l.interfaceID != 0 && l.subnetID != 0
  {
    if l.systemID == "" then Failure("SystemID is empty")
    else if l.interfaceID == 0 then Failure("InterfaceID is zero")
    else if l.subnetID == 0 then Failure("SubnetID is zero")
    else Success(l.systemID + ":" + Itoa(l.interfaceID) + ":" + Itoa(l.subnetID))
  }

  /**
   * The ID parsing in NewNetworkInterfaceLink: the ID is split at every ':' and parts 0,
   * 1 and 2 are the system ID and the two integers, whose parse errors are ignored. With
   * fewer than two ':' the part index is out of range, which panics.
   */
  function ParseID(id: string): (r: Result<(string, Int64, Int64), Panic>)
    ensures r.Failure? <==> multiset(id)[':'] < 2
    ensures r.Success? ==> var parts := Split(id, ':');
      r.value == (parts[0], Atoi(parts[1]).0, Atoi(parts[2]).0)
  {
    var parts := Split(id, ':');
    if |parts| < 3 then Failure(Panic("index out of range"))
    else Success((parts[0], Atoi(parts[1]).0, Atoi(parts[2]).0))
  }

  /** ':' never appears in a decimal rendering. */
  lemma NoColonInItoa(n: int)
    ensures ':' !in Itoa(n)
  {
  }

  /** Parsing an ID that GetID produced gives back all three identifiers. */
  lemma IDRoundTrip(l: NetworkInterfaceLink)
    requires l.systemID != "" && ':' !in l.systemID && l.interfaceID != 0 && l.subnetID != 0
    ensures GetID(l).Success?
    ensures ParseID(GetID(l).value) == Success((l.systemID, l.interfaceID, l.subnetID))
  {
    var a, b := Itoa(l.interfaceID), Itoa(l.subnetID);
    NoColonInItoa(l.interfaceID);
    NoColonInItoa(l.subnetID);
    SplitThree(l.systemID, a, b);
    AtoiItoa(l.interfaceID);
    AtoiItoa(l.subnetID);
  }

  /** Parts that are not decimal integers become 0. */
  lemma NonNumericParts(systemID: string, a: string, b: string)
    requires ':' !in systemID && ':' !in a && ':' !in b
    requires SignedValue(a).None? && SignedValue(b).None?
    ensures ParseID(systemID + ":" + a + ":" + b) == Success((systemID, 0, 0))
  {
    SplitThree(systemID, a, b);
    assert Atoi(a).0 == 0 && Atoi(b).0 == 0;
  }

  /** Three parts without ':', joined by ':', split back into the same three parts. */
  lemma SplitThree(x: string, a: string, b: string)
    requires ':' !in x && ':' !in a && ':' !in b
    ensures Split(x + ":" + a + ":" + b, ':') == [x, a, b]
  {
    var id, rest := x + ":" + a + ":" + b, a + [':'] + b;
    assert id == x + [':'] + rest;
    SplitFirst(a, ':', b);
    SplitNoSeparator(b, ':');
    assert Split(rest, ':') == [a, b];
    SplitFirst(x, ':', rest);
    assert [x] + [a, b] == [x, a, b];
  }

  // ---------------------------------------------------------------- reading the state

  /** The three identifiers: from the resource ID when system_id is empty, else from the attributes. */
  function Identity(d: ResourceData): Result<(string, Int64, Int64), Panic>
  {
    var systemID :- AsString(Get(d, "system_id"));
    if systemID == "" then ParseID(d.id)
    else
      var interfaceID :- AsInt(Get(d, "interface_id"));
      var subnetID :- AsInt(Get(d, "subnet_id"));
      Success((systemID, interfaceID, subnetID))
  }

  /** NewNetworkInterfaceLink, as a function of the state and of the attribute the mode is read from. */
  function FromState(d: ResourceData, modeKey: string, parseIP: IPParser): Result<NetworkInterfaceLink, Panic>
  {
    var ident :- Identity(d);
    var mode :- AsString(Get(d, modeKey));
    var ipAddress :- AsString(Get(d, "ip_address"));
    var force :- AsBool(Get(d, "force"));
    var defaultGateway :- AsString(Get(d, "default_gateway"));
    Success(NetworkInterfaceLink(ident.0, ident.1, ident.2, mode, parseIP(ipAddress), force, parseIP(defaultGateway)))
  }

  /** NewNetworkInterfaceLink as written: the mode is read from the attribute "name". */
  function NewNetworkInterfaceLinkAsWritten(d: ResourceData, parseIP: IPParser): Result<NetworkInterfaceLink, Panic>
  {
    FromState(d, "name", parseIP)
  }

  /**
   * The link resource declares no attribute "name", so on every state of that resource
   * the code as written panics: it never yields a link.
   */
  lemma AsWrittenAlwaysPanics(d: ResourceData, parseIP: IPParser)
    requires Conforms(d, LinkSchema)
    ensures NewNetworkInterfaceLinkAsWritten(d, parseIP).Failure?
  {
    assert "name" !in LinkSchema;
    UndeclaredPanics(d, LinkSchema, "name");
  }

  /**
   * NewNetworkInterfaceLink with the mode read from "mode": reads the attributes in the
   * source's order, failing at the first panic.
   */
  method NewNetworkInterfaceLink(d: ResourceData, parseIP: IPParser) returns (r: Result<NetworkInterfaceLink, Panic>)
    ensures r == FromState(d, "mode", parseIP)
  {
    var ident := Identity(d);
    if ident.Failure? { return Failure(ident.error); }
    var mode := AsString(Get(d, "mode"));
    if mode.Failure? { return Failure(mode.error); }
    var ipAddress := AsString(Get(d, "ip_address"));
    if ipAddress.Failure? { return Failure(ipAddress.error); }
    var force := AsBool(Get(d, "force"));
    if force.Failure? { return Failure(force.error); }
    var defaultGateway := AsString(Get(d, "default_gateway"));
    if defaultGateway.Failure? { return Failure(defaultGateway.error); }
    r := Success(NetworkInterfaceLink(ident.value.0, ident.value.1, ident.value.2, mode.value,
                                      parseIP(ipAddress.value), force.value, parseIP(defaultGateway.value)));
  }

  /**
   * With the mode read from "mode", a state that conforms to the link resource's schema
   * reads without a panic, unless system_id is empty and the resource ID has fewer than
   * two ':'; every attribute is carried over.
   */
  lemma FromConformingState(d: ResourceData, parseIP: IPParser)
    requires Conforms(d, LinkSchema)
    ensures FromState(d, "mode", parseIP).Failure? <==> d.values["system_id"].s == "" && multiset(d.id)[':'] < 2
    ensures FromState(d, "mode", parseIP).Success? ==>
      var l := FromState(d, "mode", parseIP).value;
      l.mode == d.values["mode"].s && l.force == d.values["force"].b &&
      l.ipAddress == parseIP(d.values["ip_address"].s) &&
      l.defaultGateway == parseIP(d.values["default_gateway"].s)
    ensures d.values["system_id"].s != "" ==>
      FromState(d, "mode", parseIP).Success? &&
      var l := FromState(d, "mode", parseIP).value;
      l.systemID == d.values["system_id"].s && l.interfaceID == d.values["interface_id"].i &&
      l.subnetID == d.values["subnet_id"].i
  {
    assert "system_id" in LinkSchema && "interface_id" in LinkSchema && "subnet_id" in LinkSchema;
    assert "mode" in LinkSchema && "ip_address" in LinkSchema;
    assert "force" in LinkSchema && "default_gateway" in LinkSchema;
  }

  /** When system_id is set, the resource ID is not consulted. */
  lemma SystemIDSetIgnoresID(d: ResourceData, parseIP: IPParser, otherID: string)
    requires "system_id" in d.values && d.values["system_id"].Str? && d.values["system_id"].s != ""
    ensures FromState(d, "mode", parseIP) == FromState(d.(id := otherID), "mode", parseIP)
  {
    assert Identity(d) == Identity(d.(id := otherID));
  }

  /** An import (empty system_id) of an ID that GetID produced recovers all three identifiers. */
  lemma ImportRoundTrip(d: ResourceData, l: NetworkInterfaceLink)
    requires l.systemID != "" && ':' !in l.systemID && l.interfaceID != 0 && l.subnetID != 0
    requires GetID(l).Success? && d.id == GetID(l).value
    requires "system_id" in d.values && d.values["system_id"] == Str("")
    ensures Identity(d) == Success((l.systemID, l.interfaceID, l.subnetID))
  {
    IDRoundTrip(l);
  }

  // ---------------------------------------------------------------- parameters

  /** Params: SubnetID goes under "subnet"; the link attributes are copied unchanged. */
  function Params(l: NetworkInterfaceLink): (p: LinkParams)
    ensures p.subnet == l.subnetID && p.mode == l.mode && p.ipAddress == l.ipAddress
    ensures p.force == l.force && p.defaultGateway == l.defaultGateway
  {
    LinkParams(l.subnetID, l.mode, l.ipAddress, l.force, l.defaultGateway)
  }

  /** The parameters do not depend on the system or interface the link belongs to. */
  lemma ParamsIgnoreOwner(l: NetworkInterfaceLink, systemID: string, interfaceID: Int64)
    ensures Params(l) == Params(l.(systemID := systemID, interfaceID := interfaceID))
  {
  }
}

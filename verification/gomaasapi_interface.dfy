/**
 * vendor/github.com/juju/gomaasapi/interface.go: a machine's network interface as the
 * MAAS client library sees it, with the argument checks, the request parameters, the
 * mapping from server status codes to error kinds, the choice of deserialiser by
 * controller version and the in-place refresh after a successful call.
 *
 * The controller's HTTP calls are network I/O: each operation takes the server as a
 * function from the call it is sent to its reply, and reports the call it sent (none
 * when it stops before contacting the server). The JSON schema coercion done by the
 * 2.0 deserialiser is an opaque partial decode.
 */
module GomaasInterface {
  import opened Wrappers
  import Strings
  import opened UrlValues

  // ---------------------------------------------------------------- versions

  /** A controller or deserialiser version (juju/version.Number without its tag). */
  datatype Version = Version(major: nat, minor: nat, patch: nat, build: nat)

  const Zero := Version(0, 0, 0, 0)
  const TwoDotOh := Version(2, 0, 0, 0)

  /** The versions for which an interface deserialiser is registered. */
  const Registered: seq<Version> := [TwoDotOh]

  /** Version.Compare: lexicographic on major, minor, patch and build. */
  function Compare(a: Version, b: Version): (c: int)
    ensures c == 0 <==> a == b
    ensures c == -1 || c == 0 || c == 1
  {
    if a.major != b.major then (if a.major < b.major then -1 else 1)
    else if a.minor != b.minor then (if a.minor < b.minor then -1 else 1)
    else if a.patch != b.patch then (if a.patch < b.patch then -1 else 1)
    else if a.build != b.build then (if a.build < b.build then -1 else 1)
    else 0
  }

  predicate Below(a: Version, b: Version) {
    Compare(a, b) < 0
  }

  predicate AtMost(a: Version, b: Version) {
    Compare(a, b) <= 0
  }

  lemma CompareFlip(a: Version, b: Version)
    ensures Compare(a, b) == -Compare(b, a)
  {
  }

  lemma AtMostTrans(a: Version, b: Version, c: Version)
    requires AtMost(a, b) && AtMost(b, c)
    ensures AtMost(a, c)
  {
  }

  /**
   * The version the deserialiser loop settles on, taking the registered versions in
   * the given order: a version replaces the one held so far when it is above it and
   * not above the controller's. Zero when none qualifies.
   */
  function Chosen(registered: seq<Version>, controller: Version): (v: Version)
    ensures v == Zero || (v in registered && Below(Zero, v) && AtMost(v, controller))
    ensures forall w :: w in registered && AtMost(w, controller) ==> AtMost(w, v)
    decreases |registered|
  {
    if registered == [] then Zero
    else
      var n := |registered| - 1;
      var prev := Chosen(registered[..n], controller);
      var w := registered[n];
      assert forall u :: u in registered ==> u in registered[..n] || u == w;
      CompareFlip(prev, w);
      forall u | u in registered[..n] && AtMost(u, controller)
        ensures AtMost(u, if Below(prev, w) && AtMost(w, controller) then w else prev)
      {
        if Below(prev, w) && AtMost(w, controller) {
          AtMostTrans(u, prev, w);
        }
      }
      if Below(prev, w) && AtMost(w, controller) then w else prev
  }

  /**
   * getInterfaceDeserializationFunc: the registered version the deserialiser comes from,
   * or an unsupported-version error when no registered version is above zero and not
   * above the controller's.
   */
  function Deserializer(registered: seq<Version>, controller: Version): Result<Version, Error> {
    var v := Chosen(registered, controller);
    if v == Zero then Failure(UnsupportedVersion(controller)) else Success(v)
  }

  /**
   * The choice does not depend on the order in which the map is iterated: it is the
   * largest registered version above zero and not above the controller's, and it fails
   * exactly when there is none.
   */
  lemma DeserializerIsLargestEligible(registered: seq<Version>, controller: Version)
    ensures Deserializer(registered, controller).Failure? <==>
              forall w :: w in registered ==> !(Below(Zero, w) && AtMost(w, controller))
    ensures Deserializer(registered, controller).Failure? ==>
              Deserializer(registered, controller).error == UnsupportedVersion(controller)
    ensures Deserializer(registered, controller).Success? ==>
              var v := Deserializer(registered, controller).value;
              v in registered && Below(Zero, v) && AtMost(v, controller) &&
              forall w :: w in registered && AtMost(w, controller) ==> AtMost(w, v)
  {
    var v := Chosen(registered, controller);
    if v == Zero {
      forall w | w in registered && AtMost(w, controller)
        ensures !Below(Zero, w)
      {
        CompareFlip(w, Zero);
      }
    }
  }

  /** With the 2.0 deserialiser as the only one registered, exactly the controllers from 2.0 up are supported. */
  lemma SupportedControllers(controller: Version)
    ensures Deserializer(Registered, controller) ==
              if AtMost(TwoDotOh, controller) then Success(TwoDotOh) else Failure(UnsupportedVersion(controller))
  {
    assert Registered[..0] == [];
  }

  /** getInterfaceDeserializationFunc's loop over the registered versions. */
  method GetInterfaceDeserializationFunc(registered: seq<Version>, controller: Version) returns (r: Result<Version, Error>)
    ensures r == Deserializer(registered, controller)
  {
    var deserialisationVersion := Zero;
    for i := 0 to |registered|
      invariant deserialisationVersion == Chosen(registered[..i], controller)
    {
      assert registered[..i + 1][..i] == registered[..i];
      var v := registered[i];
      if Compare(v, deserialisationVersion) > 0 && Compare(v, controller) <= 0 {
        deserialisationVersion := v;
      }
      CompareFlip(v, deserialisationVersion);
    }
    assert registered[..|registered|] == registered;
    if deserialisationVersion == Zero {
      return Failure(UnsupportedVersion(controller));
    }
    return Success(deserialisationVersion);
  }

  // ---------------------------------------------------------------- entities and errors

  datatype Controller = Controller(apiVersion: Version)

  datatype Vlan = Vlan(id: int, vid: int, mtu: int, name: string, fabric: string)

  datatype Subnet = Subnet(id: int, name: string, cidr: string)

  datatype Link = Link(id: int, mode: string, subnet: Option<Subnet>, ipAddress: string)

  /** Everything an interface holds besides its controller. */
  datatype InterfaceData = InterfaceData(
    resourceURI: string, id: int, name: string, type_: string, enabled: bool,
    tags: seq<string>, vlan: Option<Vlan>, links: seq<Link>, macAddress: string,
    effectiveMTU: int, parents: seq<string>, children: seq<string>)

  /** The reasons an argument check rejects a call before any request. */
  datatype Invalid =
    | MissingMode
    | UnknownMode(mode: string)
    | MissingSubnet
    | IPAddressNotStatic
    | GatewayNotStatic(mode: string)
    | MissingVLAN
    | UnlinkedSubnet

  /** How a controller call fails: a server status with its body, or any other error. */
  datatype CallError = ServerError(statusCode: int, bodyMessage: string) | OtherError(message: string)

  datatype Error =
    | NoMatch(body: string)
    | Permission(body: string)
    | BadRequest(body: string)
    | CannotComplete(body: string)
    | Unexpected(cause: CallError)
    | NotValid(reason: Invalid)
    | UnsupportedVersion(controller: Version)
    | Deserialization(message: string)

  /** The controller calls the interface makes. */
  datatype Call =
    | Put(uri: string, params: Values)
    | Delete(uri: string)
    | Post(uri: string, op: string, params: Values)

  type Source = seq<bv8>
  type Server = Call -> Result<Source, CallError>
  /** The 2.0 deserialiser's schema check and field extraction. */
  type Decoder = Source -> Result<InterfaceData, string>

  // ---------------------------------------------------------------- status codes

  const StatusBadRequest := 400
  const StatusForbidden := 403
  const StatusNotFound := 404
  const StatusConflict := 409
  const StatusServiceUnavailable := 503

  datatype Operation = UpdateOp | DeleteOp | LinkSubnetOp | UnlinkSubnetOp | CreateVLANOp

  /**
   * The error each operation returns for a failed controller call: 403 is always a
   * permission error; 404 is no-match for Update and Delete and bad-request for the
   * others; 400 is bad-request for LinkSubnet and UnlinkSubnet; 409 is bad-request for
   * CreateVLANInterface; 503 is cannot-complete for LinkSubnet and CreateVLANInterface;
   * anything else, and any error that is not a server status, is unexpected.
   */
  function Classify(op: Operation, e: CallError): (r: Error)
    ensures e.OtherError? ==> r == Unexpected(e)
    ensures e.ServerError? && e.statusCode == StatusForbidden ==> r == Permission(e.bodyMessage)
    ensures e.ServerError? && e.statusCode == StatusNotFound ==>
              r == if op == UpdateOp || op == DeleteOp then NoMatch(e.bodyMessage) else BadRequest(e.bodyMessage)
    ensures e.ServerError? && e.statusCode == StatusBadRequest ==>
              r == if op == LinkSubnetOp || op == UnlinkSubnetOp then BadRequest(e.bodyMessage) else Unexpected(e)
    ensures e.ServerError? && e.statusCode == StatusConflict ==>
              r == if op == CreateVLANOp then BadRequest(e.bodyMessage) else Unexpected(e)
    ensures e.ServerError? && e.statusCode == StatusServiceUnavailable ==>
              r == if op == LinkSubnetOp || op == CreateVLANOp then CannotComplete(e.bodyMessage) else Unexpected(e)
    ensures e.ServerError? && e.statusCode !in {400, 403, 404, 409, 503} ==> r == Unexpected(e)
  {
    match e
    case OtherError(_) => Unexpected(e)
    case ServerError(code, body) =>
      match op
      case UpdateOp | DeleteOp =>
        if code == StatusNotFound then NoMatch(body)
        else if code == StatusForbidden then Permission(body)
        else Unexpected(e)
      case LinkSubnetOp =>
        if code == StatusNotFound || code == StatusBadRequest then BadRequest(body)
        else if code == StatusForbidden then Permission(body)
        else if code == StatusServiceUnavailable then CannotComplete(body)
        else Unexpected(e)
      case UnlinkSubnetOp =>
        if code == StatusNotFound || code == StatusBadRequest then BadRequest(body)
        else if code == StatusForbidden then Permission(body)
        else Unexpected(e)
      case CreateVLANOp =>
        if code == StatusNotFound || code == StatusConflict then BadRequest(body)
        else if code == StatusForbidden then Permission(body)
        else if code == StatusServiceUnavailable then CannotComplete(body)
        else Unexpected(e)
  }

  /**
   * readInterface: pick the deserialiser for the controller's version, then decode; an
   * unsupported version or a decode failure is returned as the error.
   */
  function ReadInterface(controllerVersion: Version, source: Source, decode: Decoder): (r: Result<InterfaceData, Error>)
    ensures Deserializer(Registered, controllerVersion).Failure? ==> r == Failure(UnsupportedVersion(controllerVersion))
    ensures Deserializer(Registered, controllerVersion).Success? && decode(source).Failure? ==>
              r == Failure(Deserialization(decode(source).error))
    ensures Deserializer(Registered, controllerVersion).Success? && decode(source).Success? ==>
              r == Success(decode(source).value)
  {
    match Deserializer(Registered, controllerVersion)
    case Failure(e) => Failure(e)
    case Success(_) =>
      match decode(source)
      case Failure(m) => Failure(Deserialization(m))
      case Success(d) => Success(d)
  }

  /** What a call's reply becomes: the classified call error, or the decoded interface. */
  function Response(op: Operation, reply: Result<Source, CallError>, controllerVersion: Version, decode: Decoder): Result<InterfaceData, Error> {
    match reply
    case Failure(e) => Failure(Classify(op, e))
    case Success(source) => ReadInterface(controllerVersion, source, decode)
  }

  // ---------------------------------------------------------------- URL parameters

  /** URLParams.MaybeAdd: only a non-empty value is added. */
  function MaybeAdd(q: Values, key: string, value: string): (r: Values)
    ensures r.Keys == if value != "" then q.Keys + {key} else q.Keys
    ensures value != "" ==> r[key] == ValuesOf(q, key) + [value]
    ensures forall k :: k in q && k != key ==> r[k] == q[k]
  {
    if value != "" then Add(q, key, value) else q
  }

  /** URLParams.MaybeAddInt: only a non-zero value is added, in decimal. */
  function MaybeAddInt(q: Values, key: string, value: int): (r: Values)
    ensures r.Keys == if value != 0 then q.Keys + {key} else q.Keys
    ensures value != 0 ==> r[key] == ValuesOf(q, key) + [Strings.Itoa(value)]
    ensures forall k :: k in q && k != key ==> r[k] == q[k]
  {
    if value != 0 then Add(q, key, Strings.Itoa(value)) else q
  }

  /** URLParams.MaybeAddBool: only true is added. */
  function MaybeAddBool(q: Values, key: string, value: bool): (r: Values)
    ensures r.Keys == if value then q.Keys + {key} else q.Keys
    ensures value ==> r[key] == ValuesOf(q, key) + ["true"]
    ensures forall k :: k in q && k != key ==> r[k] == q[k]
  {
    if value then Add(q, key, Strings.FormatBool(value)) else q
  }

  // ---------------------------------------------------------------- arguments

  datatype UpdateInterfaceArgs = UpdateInterfaceArgs(name: string, macAddress: string, vlan: Option<Vlan>)

  /** The zero value of UpdateInterfaceArgs. */
  const EmptyUpdate := UpdateInterfaceArgs("", "", None)

  /** UpdateInterfaceArgs.vlanID: a nil VLAN counts as id 0. */
  function VlanID(a: UpdateInterfaceArgs): int
  {
    if a.vlan.None? then 0 else a.vlan.value.id
  }

  function UpdateParams(a: UpdateInterfaceArgs): Values {
    MaybeAddInt(MaybeAdd(MaybeAdd(map[], "name", a.name), "mac_address", a.macAddress), "vlan", VlanID(a))
  }

  /**
   * The update parameters hold a key exactly for each argument that is set, and a VLAN
   * whose id is 0 is not sent: such arguments are not empty, yet the PUT carries no
   * parameters.
   */
  lemma UpdateParamsKeys(a: UpdateInterfaceArgs)
    ensures "name" in UpdateParams(a) <==> a.name != ""
    ensures "mac_address" in UpdateParams(a) <==> a.macAddress != ""
    ensures "vlan" in UpdateParams(a) <==> a.vlan.Some? && a.vlan.value.id != 0
    ensures UpdateParams(a).Keys <= {"name", "mac_address", "vlan"}
    ensures a.name == "" && a.macAddress == "" && a.vlan.Some? && a.vlan.value.id == 0 ==>
              a != EmptyUpdate && UpdateParams(a) == map[]
  {
  }

  datatype LinkSubnetArgs = LinkSubnetArgs(mode: string, subnet: Option<Subnet>, ipAddress: string, defaultGateway: bool)

  const LinkModeDHCP := "DHCP"
  const LinkModeStatic := "STATIC"
  const LinkModeLinkUp := "LINK_UP"

  /** LinkSubnetArgs.Validate: the first failed check, in the order mode, subnet, IP address, gateway. */
  function ValidateLink(a: LinkSubnetArgs): (r: Option<Invalid>)
    ensures a.mode == "" ==> r == Some(MissingMode)
  {
    if a.mode !in {LinkModeDHCP, LinkModeLinkUp, LinkModeStatic} then
      (if a.mode == "" then Some(MissingMode) else Some(UnknownMode(a.mode)))
    else if a.subnet.None? then Some(MissingSubnet)
    else if a.ipAddress != "" && a.mode != LinkModeStatic then Some(IPAddressNotStatic)
    else if a.defaultGateway && a.mode != LinkModeStatic then Some(GatewayNotStatic(a.mode))
    else None
  }

  /**
   * Validate accepts exactly the arguments with mode DHCP, LINK_UP or STATIC and a
   * subnet, where an IP address or a default gateway comes only with STATIC; and each
   * rejection names the first rule broken.
   */
  lemma ValidateLinkAcceptsExactly(a: LinkSubnetArgs)
    ensures ValidateLink(a).None? <==>
              (a.mode == "DHCP" || a.mode == "LINK_UP" || a.mode == "STATIC") && a.subnet.Some? &&
              (a.ipAddress != "" ==> a.mode == "STATIC") && (a.defaultGateway ==> a.mode == "STATIC")
    ensures a.mode != "" && a.mode != "DHCP" && a.mode != "LINK_UP" && a.mode != "STATIC" ==>
              ValidateLink(a) == Some(UnknownMode(a.mode))
    ensures (a.mode == "DHCP" || a.mode == "LINK_UP" || a.mode == "STATIC") && a.subnet.None? ==>
              ValidateLink(a) == Some(MissingSubnet)
    ensures (a.mode == "DHCP" || a.mode == "LINK_UP") && a.subnet.Some? && a.ipAddress != "" ==>
              ValidateLink(a) == Some(IPAddressNotStatic)
    ensures (a.mode == "DHCP" || a.mode == "LINK_UP") && a.subnet.Some? && a.ipAddress == "" && a.defaultGateway ==>
              ValidateLink(a) == Some(GatewayNotStatic(a.mode))
  {
  }

  function LinkParams(a: LinkSubnetArgs): Values
    requires a.subnet.Some?
  {
    var q := Add(Add(map[], "mode", a.mode), "subnet", Strings.Itoa(a.subnet.value.id));
    MaybeAddBool(MaybeAdd(q, "ip_address", a.ipAddress), "default_gateway", a.defaultGateway)
  }

  /**
   * The link_subnet parameters: the mode and the subnet's decimal ID always, one value
   * each; the IP address only when given; default_gateway only when true.
   */
  lemma LinkParamsContent(a: LinkSubnetArgs)
    requires a.subnet.Some?
    ensures var q := LinkParams(a);
            q["mode"] == [a.mode] && q["subnet"] == [Strings.Itoa(a.subnet.value.id)] &&
            ("ip_address" in q <==> a.ipAddress != "") &&
            (a.ipAddress != "" ==> q["ip_address"] == [a.ipAddress]) &&
            ("default_gateway" in q <==> a.defaultGateway) &&
            (a.defaultGateway ==> q["default_gateway"] == ["true"]) &&
            q.Keys <= {"mode", "subnet", "ip_address", "default_gateway"}
  {
  }

  datatype CreateVLANInterfaceArgs = CreateVLANInterfaceArgs(
    vlan: Option<Vlan>, tags: seq<string>, mtu: int, acceptRA: bool, autoconf: bool)

  /** CreateVLANInterfaceArgs.Validate: the VLAN is required. */
  function ValidateVLAN(a: CreateVLANInterfaceArgs): (r: Option<Invalid>)
    ensures r.None? <==> a.vlan.Some?
    ensures r.Some? ==> r.value == MissingVLAN
  {
    if a.vlan.None? then Some(MissingVLAN) else None
  }

  function CreateVLANParams(a: CreateVLANInterfaceArgs, parent: int): Values
    requires a.vlan.Some?
  {
    var q := Add(map[], "vlan", Strings.Itoa(a.vlan.value.id));
    var q := MaybeAdd(MaybeAddInt(q, "parent", parent), "tags", Strings.Join(a.tags, ","));
    MaybeAddBool(MaybeAddBool(MaybeAddInt(q, "mtu", a.mtu), "accept_ra", a.acceptRA), "autoconf", a.autoconf)
  }

  /**
   * The create_vlan parameters: the VLAN's decimal ID always; the parent's ID and the MTU
   * only when non-zero; the tags joined with "," only when that text is non-empty;
   * accept_ra and autoconf only when true.
   */
  lemma CreateVLANParamsContent(a: CreateVLANInterfaceArgs, parent: int)
    requires a.vlan.Some?
    ensures var q := CreateVLANParams(a, parent);
            q["vlan"] == [Strings.Itoa(a.vlan.value.id)] &&
            ("parent" in q <==> parent != 0) && (parent != 0 ==> q["parent"] == [Strings.Itoa(parent)]) &&
            ("tags" in q <==> Strings.Join(a.tags, ",") != "") &&
            (Strings.Join(a.tags, ",") != "" ==> q["tags"] == [Strings.Join(a.tags, ",")]) &&
            ("mtu" in q <==> a.mtu != 0) && (a.mtu != 0 ==> q["mtu"] == [Strings.Itoa(a.mtu)]) &&
            ("accept_ra" in q <==> a.acceptRA) && ("autoconf" in q <==> a.autoconf) &&
            q.Keys <= {"vlan", "parent", "tags", "mtu", "accept_ra", "autoconf"}
  {
    var q2 := MaybeAdd(MaybeAddInt(Add(map[], "vlan", Strings.Itoa(a.vlan.value.id)), "parent", parent), "tags", Strings.Join(a.tags, ","));
    FirstThreeParams(a, parent);
    LastThreeParams(q2, a);
  }

  /** The VLAN, the parent and the tags, as CreateVLANParams adds them first. */
  lemma FirstThreeParams(a: CreateVLANInterfaceArgs, parent: int)
    requires a.vlan.Some?
    ensures var q := MaybeAdd(MaybeAddInt(Add(map[], "vlan", Strings.Itoa(a.vlan.value.id)), "parent", parent), "tags", Strings.Join(a.tags, ","));
            q["vlan"] == [Strings.Itoa(a.vlan.value.id)] &&
            ("parent" in q <==> parent != 0) && (parent != 0 ==> q["parent"] == [Strings.Itoa(parent)]) &&
            ("tags" in q <==> Strings.Join(a.tags, ",") != "") &&
            (Strings.Join(a.tags, ",") != "" ==> q["tags"] == [Strings.Join(a.tags, ",")]) &&
            q.Keys <= {"vlan", "parent", "tags"}
  {
  }

  /** The MTU, accept_ra and autoconf, added last, leave the first three keys alone. */
  lemma LastThreeParams(q: Values, a: CreateVLANInterfaceArgs)
    requires q.Keys <= {"vlan", "parent", "tags"}
    ensures var r := MaybeAddBool(MaybeAddBool(MaybeAddInt(q, "mtu", a.mtu), "accept_ra", a.acceptRA), "autoconf", a.autoconf);
            (forall k :: k in q ==> k in r && r[k] == q[k]) &&
            ("mtu" in r <==> a.mtu != 0) && (a.mtu != 0 ==> r["mtu"] == [Strings.Itoa(a.mtu)]) &&
            ("accept_ra" in r <==> a.acceptRA) && ("autoconf" in r <==> a.autoconf) &&
            r.Keys <= q.Keys + {"mtu", "accept_ra", "autoconf"}
  {
  }

  // ---------------------------------------------------------------- URIs and links

  /** interfacesURI: the first "/<id>/" in the resource URI becomes "/". */
  function InterfacesURI(resourceURI: string, id: int): string {
    Strings.ReplaceFirst(resourceURI, "/" + Strings.Itoa(id) + "/", "/")
  }

  /**
   * When "/<id>/" first occurs right after prefix, exactly that occurrence is cut down
   * to "/" and the rest of the URI, later occurrences included, is kept.
   */
  lemma InterfacesURIStripsFirst(prefix: string, id: int, suffix: string)
    requires forall j :: 0 <= j < |prefix| ==> !Strings.OccursAt(prefix + "/" + Strings.Itoa(id) + "/" + suffix, "/" + Strings.Itoa(id) + "/", j)
    ensures InterfacesURI(prefix + "/" + Strings.Itoa(id) + "/" + suffix, id) == prefix + "/" + suffix
  {
    var pat := "/" + Strings.Itoa(id) + "/";
    var uri := prefix + "/" + Strings.Itoa(id) + "/" + suffix;
    assert uri == prefix + pat + suffix;
    assert uri[|prefix|..|prefix| + |pat|] == pat;
    assert Strings.OccursAt(uri, pat, |prefix|);
    assert Strings.IndexOfSeq(uri, pat) == Some(|prefix|);
    assert uri[..|prefix|] == prefix;
    assert uri[|prefix| + |pat|..] == suffix;
  }

  /** A URI without "/<id>/" is left as it is. */
  lemma InterfacesURIUnchanged(resourceURI: string, id: int)
    requires forall j :: 0 <= j ==> !Strings.OccursAt(resourceURI, "/" + Strings.Itoa(id) + "/", j)
    ensures InterfacesURI(resourceURI, id) == resourceURI
  {
  }

  /** A link is for the subnet when it has a subnet and that subnet's ID is the same. */
  predicate LinkMatches(l: Link, subnet: Subnet) {
    l.subnet.Some? && l.subnet.value.id == subnet.id
  }

  /** linkForSubnet: the first link for the subnet, if any. */
  function FirstLink(links: seq<Link>, subnet: Subnet): (r: Option<Link>)
    ensures r.None? <==> forall i :: 0 <= i < |links| ==> !LinkMatches(links[i], subnet)
    ensures r.Some? ==> exists i :: 0 <= i < |links| && links[i] == r.value && LinkMatches(links[i], subnet) &&
                          forall j :: 0 <= j < i ==> !LinkMatches(links[j], subnet)
  {
    if links == [] then None
    else if LinkMatches(links[0], subnet) then
      assert links[0] == links[0];
      Some(links[0])
    else
      var r := FirstLink(links[1..], subnet);
      if r.Some? then
        var i :| 0 <= i < |links[1..]| && links[1..][i] == r.value && LinkMatches(links[1..][i], subnet) &&
                 forall j :: 0 <= j < i ==> !LinkMatches(links[1..][j], subnet);
        assert links[i + 1] == r.value;
        assert forall j :: 0 <= j < i + 1 ==> !LinkMatches(links[j], subnet) by {
          forall j | 0 <= j < i + 1 ensures !LinkMatches(links[j], subnet) {
            if j > 0 { assert links[j] == links[1..][j - 1]; }
          }
        }
        r
      else
        assert forall i :: 0 <= i < |links| ==> !LinkMatches(links[i], subnet) by {
          forall i | 0 <= i < |links| ensures !LinkMatches(links[i], subnet) {
            if i > 0 { assert links[i] == links[1..][i - 1]; }
          }
        }
        r
  }

  // ---------------------------------------------------------------- the interface

  class Interface {
    const controller: Controller

    var resourceURI: string
    var id: int
    var name: string
    var type_: string
    var enabled: bool
    var tags: seq<string>
    var vlan: Option<Vlan>
    var links: seq<Link>
    var macAddress: string
    var effectiveMTU: int
    var parents: seq<string>
    var children: seq<string>

    /** The interface's fields other than its controller. */
    function Data(): InterfaceData
      reads this
    {
      InterfaceData(resourceURI, id, name, type_, enabled, tags, vlan, links, macAddress,
                    effectiveMTU, parents, children)
    }

    constructor FromData(controller: Controller, d: InterfaceData)
      ensures this.controller == controller && Data() == d
    {
      this.controller := controller;
      resourceURI, id, name, type_, enabled := d.resourceURI, d.id, d.name, d.type_, d.enabled;
      tags, vlan, links, macAddress := d.tags, d.vlan, d.links, d.macAddress;
      effectiveMTU, parents, children := d.effectiveMTU, d.parents, d.children;
    }

    /** updateFrom: every field but the controller is replaced by the other interface's. */
    method UpdateFrom(other: InterfaceData)
      modifies this
      ensures Data() == other
    {
      resourceURI, id, name, type_, enabled := other.resourceURI, other.id, other.name, other.type_, other.enabled;
      tags, vlan, links, macAddress := other.tags, other.vlan, other.links, other.macAddress;
      effectiveMTU, parents, children := other.effectiveMTU, other.parents, other.children;
    }

    /** Refresh from a call's reply: on success the decoded interface replaces this one's fields. */
    method Settle(op: Operation, reply: Result<Source, CallError>, decode: Decoder) returns (err: Option<Error>)
      modifies this
      ensures var r := Response(op, reply, controller.apiVersion, decode);
              (r.Success? ==> err.None? && Data() == r.value) &&
              (r.Failure? ==> err == Some(r.error) && Data() == old(Data()))
    {
      if reply.Failure? {
        return Some(Classify(op, reply.error));
      }
      var response := ReadInterface(controller.apiVersion, reply.value, decode);
      if response.Failure? {
        return Some(response.error);
      }
      UpdateFrom(response.value);
      err := None;
    }

    /**
     * Update: all-empty arguments succeed without contacting the server; otherwise the
     * set arguments are PUT to the resource URI and the reply refreshes the interface.
     */
    method Update(args: UpdateInterfaceArgs, server: Server, decode: Decoder) returns (err: Option<Error>, sent: Option<Call>)
      modifies this
      ensures args == EmptyUpdate ==> sent.None? && err.None? && Data() == old(Data())
      ensures args != EmptyUpdate ==> sent == Some(Put(old(resourceURI), UpdateParams(args)))
      ensures sent.Some? ==>
                var r := Response(UpdateOp, server(sent.value), controller.apiVersion, decode);
                (r.Success? ==> err.None? && Data() == r.value) &&
                (r.Failure? ==> err == Some(r.error) && Data() == old(Data()))
    {
      if args == EmptyUpdate {
        return None, None;
      }
      var call := Put(resourceURI, UpdateParams(args));
      sent := Some(call);
      err := Settle(UpdateOp, server(call), decode);
    }

    /** Delete: a DELETE of the resource URI; the interface itself is not changed. */
    method Delete(server: Server) returns (err: Option<Error>, sent: Call)
      ensures sent == Call.Delete(resourceURI)
      ensures server(sent).Success? ==> err.None?
      ensures server(sent).Failure? ==> err == Some(Classify(DeleteOp, server(sent).error))
    {
      sent := Call.Delete(resourceURI);
      var reply := server(sent);
      if reply.Failure? {
        return Some(Classify(DeleteOp, reply.error)), sent;
      }
      err := None;
    }

    /** LinkSubnet: invalid arguments are rejected before any request is made. */
    method LinkSubnet(args: LinkSubnetArgs, server: Server, decode: Decoder) returns (err: Option<Error>, sent: Option<Call>)
      modifies this
      ensures ValidateLink(args).Some? ==>
                sent.None? && err == Some(NotValid(ValidateLink(args).value)) && Data() == old(Data())
      ensures ValidateLink(args).None? ==> sent == Some(Post(old(resourceURI), "link_subnet", LinkParams(args)))
      ensures sent.Some? ==>
                var r := Response(LinkSubnetOp, server(sent.value), controller.apiVersion, decode);
                (r.Success? ==> err.None? && Data() == r.value) &&
                (r.Failure? ==> err == Some(r.error) && Data() == old(Data()))
    {
      var invalid := ValidateLink(args);
      if invalid.Some? {
        return Some(NotValid(invalid.value)), None;
      }
      var call := Post(resourceURI, "link_subnet", LinkParams(args));
      sent := Some(call);
      err := Settle(LinkSubnetOp, server(call), decode);
    }

    /** linkForSubnet's loop: the first link whose subnet is present and has the same ID. */
    method LinkForSubnet(subnet: Subnet) returns (link: Option<Link>)
      ensures link == FirstLink(links, subnet)
    {
      for i := 0 to |links|
        invariant FirstLink(links, subnet) == FirstLink(links[i..], subnet)
      {
        if LinkMatches(links[i], subnet) {
          FirstLinkSkips(links, subnet, i);
          return Some(links[i]);
        }
        FirstLinkSkips(links, subnet, i);
      }
      return None;
    }

    /**
     * UnlinkSubnet: a nil subnet or a subnet no link is for is rejected before any
     * request; otherwise the matching link's ID is posted to the resource URI.
     */
    method UnlinkSubnet(subnet: Option<Subnet>, server: Server, decode: Decoder) returns (err: Option<Error>, sent: Option<Call>)
      modifies this
      ensures subnet.None? ==> sent.None? && err == Some(NotValid(MissingSubnet)) && Data() == old(Data())
      ensures subnet.Some? && FirstLink(old(links), subnet.value).None? ==>
                sent.None? && err == Some(NotValid(UnlinkedSubnet)) && Data() == old(Data())
      ensures subnet.Some? && FirstLink(old(links), subnet.value).Some? ==>
                sent == Some(Post(old(resourceURI), "unlink_subnet",
                                  Add(map[], "id", Strings.Itoa(FirstLink(old(links), subnet.value).value.id))))
      ensures sent.Some? ==>
                var r := Response(UnlinkSubnetOp, server(sent.value), controller.apiVersion, decode);
                (r.Success? ==> err.None? && Data() == r.value) &&
                (r.Failure? ==> err == Some(r.error) && Data() == old(Data()))
    {
      if subnet.None? {
        return Some(NotValid(MissingSubnet)), None;
      }
      var link := LinkForSubnet(subnet.value);
      if link.None? {
        return Some(NotValid(UnlinkedSubnet)), None;
      }
      var call := Post(resourceURI, "unlink_subnet", Add(map[], "id", Strings.Itoa(link.value.id)));
      sent := Some(call);
      err := Settle(UnlinkSubnetOp, server(call), decode);
    }

    /**
     * CreateVLANInterface: a missing VLAN is rejected before any request; otherwise the
     * request goes to the interfaces URI and, on success, a new interface with the same
     * controller is returned. This interface is not changed.
     */
    method CreateVLANInterface(args: CreateVLANInterfaceArgs, server: Server, decode: Decoder)
      returns (iface: Interface?, err: Option<Error>, sent: Option<Call>)
      ensures args.vlan.None? ==> iface == null && sent.None? && err == Some(NotValid(MissingVLAN))
      ensures args.vlan.Some? ==>
                sent == Some(Post(InterfacesURI(resourceURI, id), "create_vlan", CreateVLANParams(args, id)))
      ensures sent.Some? ==>
                var r := Response(CreateVLANOp, server(sent.value), controller.apiVersion, decode);
                (r.Success? ==> err.None? && iface != null && fresh(iface) &&
                                iface.controller == controller && iface.Data() == r.value) &&
                (r.Failure? ==> err == Some(r.error) && iface == null)
    {
      var invalid := ValidateVLAN(args);
      if invalid.Some? {
        return null, Some(NotValid(invalid.value)), None;
      }
      var call := Post(InterfacesURI(resourceURI, id), "create_vlan", CreateVLANParams(args, id));
      sent := Some(call);
      var reply := server(call);
      if reply.Failure? {
        return null, Some(Classify(CreateVLANOp, reply.error)), sent;
      }
      var response := ReadInterface(controller.apiVersion, reply.value, decode);
      if response.Failure? {
        return null, Some(response.error), sent;
      }
      iface := new Interface.FromData(controller, response.value);
      err := None;
    }
  }

  /** Skipping a link that is not for the subnet does not change the first match. */
  lemma FirstLinkSkips(links: seq<Link>, subnet: Subnet, i: nat)
    requires i < |links|
    ensures LinkMatches(links[i], subnet) ==> FirstLink(links[i..], subnet) == Some(links[i])
    ensures !LinkMatches(links[i], subnet) ==> FirstLink(links[i..], subnet) == FirstLink(links[i + 1..], subnet)
  {
    assert links[i..][1..] == links[i + 1..];
  }
}

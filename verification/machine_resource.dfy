/**
 * resource_maas_machine.go: the local logic of the maas_machine resource. Delete builds
 * the parameters of the release call from the release_erase* flags; convertConstraints
 * turns the configuration into allocation constraints; getSubnets indexes the subnets
 * of every space by name.
 *
 * The machine lookup, the release call and the listing of spaces are network I/O and
 * come in as their results. expandStringList is not part of this model: it is taken to
 * assert `.(string)` on each element of the list, in order (AsStrings).
 */
module MachineResource {
  import opened Wrappers
  import opened Strings
  import opened TerraformState
  import UV = UrlValues

  /** The maas_machine resource's schema: each top-level attribute with its declared type. */
  const MachineSchema: map<string, ValueType> := map[
    "architecture" := TypeString, "boot_type" := TypeString, "cpu_count" := TypeInt,
    "disable_ipv4" := TypeBool, "distro_series" := TypeString, "hostname" := TypeString,
    "deploy_hostname" := TypeString, "deploy_tags" := TypeList, "deploy_interface" := TypeSet,
    "tags" := TypeList, "not_tags" := TypeList,
    "release_erase" := TypeBool, "release_erase_secure" := TypeBool, "release_erase_quick" := TypeBool,
    "ip_addresses" := TypeList, "macaddress_set" := TypeList, "memory" := TypeInt, "netboot" := TypeBool,
    "osystem" := TypeString, "owner" := TypeString, "physicalblockdevice_set" := TypeList,
    "power_state" := TypeString, "power_type" := TypeString, "pxe_mac" := TypeSet,
    "resource_uri" := TypeString, "routers" := TypeList, "status" := TypeInt, "volumes" := TypeSet,
    "swap_size" := TypeInt, "system_id" := TypeString, "tag_names" := TypeList, "zone" := TypeSet,
    "not_zones" := TypeList, "user_data" := TypeString, "hwe_kernel" := TypeString, "comment" := TypeString]

  /** The declared types of the release flags. */
  lemma ReleaseFlagTypes()
    ensures "release_erase" in MachineSchema && MachineSchema["release_erase"] == TypeBool
    ensures "release_erase_secure" in MachineSchema && MachineSchema["release_erase_secure"] == TypeBool
    ensures "release_erase_quick" in MachineSchema && MachineSchema["release_erase_quick"] == TypeBool
  {
  }

  /** The declared types of the attributes convertConstraints reads. */
  lemma ConstraintTypes()
    ensures "hostname" in MachineSchema && MachineSchema["hostname"] == TypeString
    ensures "system_id" in MachineSchema && MachineSchema["system_id"] == TypeString
    ensures "architecture" in MachineSchema && MachineSchema["architecture"] == TypeString
    ensures "comment" in MachineSchema && MachineSchema["comment"] == TypeString
    ensures "cpu_count" in MachineSchema && MachineSchema["cpu_count"] == TypeInt
    ensures "memory" in MachineSchema && MachineSchema["memory"] == TypeInt
    ensures "tags" in MachineSchema && MachineSchema["tags"] == TypeList
    ensures "not_tags" in MachineSchema && MachineSchema["not_tags"] == TypeList
    ensures "not_zones" in MachineSchema && MachineSchema["not_zones"] == TypeList
    ensures "zone" in MachineSchema && MachineSchema["zone"] == TypeSet
    ensures "volumes" in MachineSchema && MachineSchema["volumes"] == TypeSet
  {
  }

  // ---------------------------------------------------------------- release parameters

  /** `d.GetOk(key)` followed by `.(bool)`: None when the flag is not reported. */
  function Flag(d: ResourceData, key: string): (r: Result<Option<bool>, Panic>)
    ensures r.Success? && r.value.Some? ==> r.value.value
  {
    match GetOk(d, key)
    case None => Success(None)
    case Some(v) =>
      var b :- AsBool(Some(v));
      Success(Some(b))
  }

  /**
   * The release parameters for the flags GetOk reported, with Add throughout: the
   * release flag's value under "erase"; for the secure and the quick flag, "true" under
   * "erase" and the flag's value under its own key.
   */
  function ParamsFor(erase: Option<bool>, secure: Option<bool>, quick: Option<bool>): UV.Values
  {
    var q1 := if erase.Some? then UV.Add(map[], "erase", FormatBool(erase.value)) else map[];
    var q2 := if secure.Some? then UV.Add(UV.Add(q1, "erase", FormatBool(true)), "secure_erase", FormatBool(secure.value)) else q1;
    if quick.Some? then UV.Add(UV.Add(q2, "erase", FormatBool(true)), "quick_erase", FormatBool(quick.value)) else q2
  }

  /** The release parameters of resourceMAASMachineDelete: the flags are read in the order release, secure, quick. */
  function ReleaseParams(d: ResourceData): Result<UV.Values, Panic>
  {
    var erase :- Flag(d, "release_erase");
    var secure :- Flag(d, "release_erase_secure");
    var quick :- Flag(d, "release_erase_quick");
    Success(ParamsFor(erase, secure, quick))
  }

  function TrueIf(b: bool): seq<string> {
    if b then ["true"] else []
  }

  /**
   * For flags that GetOk reports only when true: "erase" holds one "true" per flag
   * reported, in the order release, secure, quick; "secure_erase" and "quick_erase" are
   * present exactly when their flag is reported, with the single value "true"; nothing
   * else is sent.
   */
  lemma ParamsForContent(erase: Option<bool>, secure: Option<bool>, quick: Option<bool>)
    requires erase.Some? ==> erase.value
    requires secure.Some? ==> secure.value
    requires quick.Some? ==> quick.value
    ensures var q := ParamsFor(erase, secure, quick);
      UV.ValuesOf(q, "erase") == TrueIf(erase.Some?) + TrueIf(secure.Some?) + TrueIf(quick.Some?) &&
      ("erase" in q <==> erase.Some? || secure.Some? || quick.Some?) &&
      ("secure_erase" in q <==> secure.Some?) && (secure.Some? ==> q["secure_erase"] == ["true"]) &&
      ("quick_erase" in q <==> quick.Some?) && (quick.Some? ==> q["quick_erase"] == ["true"]) &&
      q.Keys <= {"erase", "secure_erase", "quick_erase"}
  {
    var q1: UV.Values := if erase.Some? then UV.Add(map[], "erase", FormatBool(erase.value)) else map[];
    assert UV.ValuesOf(q1, "erase") == TrueIf(erase.Some?);
    assert q1.Keys <= {"erase"};
    var q2 := if secure.Some? then UV.Add(UV.Add(q1, "erase", FormatBool(true)), "secure_erase", FormatBool(secure.value)) else q1;
    assert UV.ValuesOf(q2, "erase") == TrueIf(erase.Some?) + TrueIf(secure.Some?);
    assert q2.Keys <= {"erase", "secure_erase"};
    assert "secure_erase" in q2 <==> secure.Some?;
  }

  /**
   * For a state of the resource's schema the parameters are built without panic, and a
   * flag that is false is never sent, since GetOk does not report it.
   */
  lemma ReleaseParamsContent(d: ResourceData)
    requires Conforms(d, MachineSchema)
    ensures ReleaseParams(d).Success?
    ensures ReleaseParams(d).value == ParamsFor(
      BoolFlag(d, "release_erase"), BoolFlag(d, "release_erase_secure"), BoolFlag(d, "release_erase_quick"))
  {
    ReleaseFlagsAreBools(d);
    FlagOfBool(d, "release_erase");
    FlagOfBool(d, "release_erase_secure");
    FlagOfBool(d, "release_erase_quick");
  }

  /** What GetOk reports for a boolean attribute: Some(true) when it is true, nothing otherwise. */
  function BoolFlag(d: ResourceData, key: string): Option<bool> {
    if key in d.values && d.values[key] == Bool(true) then Some(true) else None
  }

  /** The schema declares the three release flags as booleans. */
  lemma ReleaseFlagsAreBools(d: ResourceData)
    requires Conforms(d, MachineSchema)
    ensures AsBool(Get(d, "release_erase")).Success?
    ensures AsBool(Get(d, "release_erase_secure")).Success?
    ensures AsBool(Get(d, "release_erase_quick")).Success?
  {
    ReleaseFlagTypes();
    ConformingGet(d, MachineSchema, "release_erase");
    ConformingGet(d, MachineSchema, "release_erase_secure");
    ConformingGet(d, MachineSchema, "release_erase_quick");
  }

  /** A boolean attribute is reported by GetOk only when it is true. */
  lemma FlagOfBool(d: ResourceData, key: string)
    requires AsBool(Get(d, key)).Success?
    ensures Flag(d, key) == Success(BoolFlag(d, key))
  {
  }

  datatype DeleteError =
    | LookupError(message: string)
    | NoLongerExists(message: string)
    | Panicked(p: Panic)

  const NoLongerExistsMessage := "[ERROR] [resourceMAASMachineDetele] machine no longer exists"

  /**
   * resourceMAASMachineDelete up to the release call: the lookup's error is returned;
   * anything but exactly one machine is an error; otherwise the release parameters
   * are built with successive Add calls.
   */
  method ReleaseRequest(d: ResourceData, listed: Result<nat, string>) returns (r: Result<UV.Values, DeleteError>)
    ensures listed.Failure? ==> r == Failure(LookupError(listed.error))
    ensures listed.Success? && listed.value != 1 ==> r == Failure(NoLongerExists(NoLongerExistsMessage))
    ensures listed == Success(1) && ReleaseParams(d).Failure? ==> r == Failure(Panicked(ReleaseParams(d).error))
    ensures listed == Success(1) && ReleaseParams(d).Success? ==> r == Success(ReleaseParams(d).value)
  {
    if listed.Failure? {
      return Failure(LookupError(listed.error));
    }
    if listed.value != 1 {
      return Failure(NoLongerExists(NoLongerExistsMessage));
    }
    var params: UV.Values := map[];
    var erase := Flag(d, "release_erase");
    if erase.Failure? {
      return Failure(Panicked(erase.error));
    }
    if erase.value.Some? {
      params := UV.Add(params, "erase", FormatBool(erase.value.value));
    }
    var secure := Flag(d, "release_erase_secure");
    if secure.Failure? {
      return Failure(Panicked(secure.error));
    }
    if secure.value.Some? {
      params := UV.Add(params, "erase", FormatBool(true));
      params := UV.Add(params, "secure_erase", FormatBool(secure.value.value));
    }
    var quick := Flag(d, "release_erase_quick");
    if quick.Failure? {
      return Failure(Panicked(quick.error));
    }
    if quick.value.Some? {
      params := UV.Add(params, "erase", FormatBool(true));
      params := UV.Add(params, "quick_erase", FormatBool(quick.value.value));
    }
    r := Success(params);
  }

  // ---------------------------------------------------------------- allocation constraints

  datatype StorageSpec = StorageSpec(labelText: string, size: Int64, tags: seq<string>)

  /** gomaasapi.AllocateMachineArgs, as convertConstraints fills it. */
  datatype AllocateArgs = AllocateArgs(
    hostname: string, systemID: string, architecture: string,
    minCPUCount: Int64, minMemory: Int64, tags: seq<string>, notTags: seq<string>,
    zone: string, notInZone: seq<string>, storage: seq<StorageSpec>, comment: string)

  /** AllocateMachineArgs{}. */
  const NoConstraints := AllocateArgs("", "", "", 0, 0, [], [], "", [], [], "")

  /** A string attribute read with GetOk: its zero value "" when not reported. */
  function OptString(d: ResourceData, key: string): (r: Result<string, Panic>)
    ensures key in d.values && d.values[key].Str? ==> r == Success(d.values[key].s)
  {
    match GetOk(d, key)
    case None => Success("")
    case Some(v) => AsString(Some(v))
  }

  /** An int attribute read with GetOk: 0 when not reported. */
  function OptInt(d: ResourceData, key: string): (r: Result<Int64, Panic>)
    ensures key in d.values && d.values[key].Int? ==> r == Success(d.values[key].i)
  {
    match GetOk(d, key)
    case None => Success(0)
    case Some(v) => AsInt(Some(v))
  }

  /** A list of strings read with GetOk and expandStringList: nil when not reported. */
  function OptStrings(d: ResourceData, key: string): (r: Result<seq<string>, Panic>)
    ensures key in d.values && d.values[key].List? ==> r == AsStrings(d.values[key].items)
  {
    match GetOk(d, key)
    case None => Success([])
    case Some(v) =>
      var items :- AsList(Some(v));
      AsStrings(items)
  }

  /** `m[key].(string)` on an element of a set of blocks. */
  function Attr(v: Value, key: string): (r: Result<string, Panic>)
    ensures r.Success? <==> v.Map? && key in v.attrs && v.attrs[key].Str?
  {
    if v.Map? && key in v.attrs then AsString(Some(v.attrs[key])) else Failure(NotAString)
  }

  /** The zone constraint: the name of the first zone listed, "" when none is. */
  function FirstZoneName(zones: seq<Value>): (r: Result<string, Panic>)
    ensures zones == [] ==> r == Success("")
  {
    if zones == [] then Success("") else Attr(zones[0], "name")
  }

  /** One storage spec, as written: `v["tags"].([]string)`. */
  function VolumeSpecAsWritten(v: Value): Result<StorageSpec, Panic>
  {
    var labelText :- Attr(v, "label");
    var size :- if v.Map? && "size" in v.attrs then AsInt(Some(v.attrs["size"])) else Failure(Panic("interface conversion: value is not an int"));
    // A list read from the state is a []interface{}; it is never a []string.
    Failure(Panic("interface conversion: interface {} is []interface {}, not []string"))
  }

  /** One storage spec, with the tags read as a list of strings. */
  function VolumeSpec(v: Value): (r: Result<StorageSpec, Panic>)
    ensures r.Success? ==> v.Map? && Attr(v, "label") == Success(r.value.labelText)
    ensures r.Success? ==> v.Map? && "size" in v.attrs && v.attrs["size"] == Int(r.value.size)
    ensures r.Success? ==>
      v.Map? && "tags" in v.attrs && v.attrs["tags"].List? && AsStrings(v.attrs["tags"].items) == Success(r.value.tags)
  {
    var labelText :- Attr(v, "label");
    var size :- if v.Map? && "size" in v.attrs then AsInt(Some(v.attrs["size"])) else Failure(Panic("interface conversion: value is not an int"));
    var tags :- if v.Map? && "tags" in v.attrs then AsList(Some(v.attrs["tags"])) else Failure(Panic("interface conversion: value is not a []interface{}"));
    var names :- AsStrings(tags);
    Success(StorageSpec(labelText, size, names))
  }

  /** As written, no volume converts: the tags assertion panics on every list. */
  lemma VolumeAsWrittenPanics(v: Value)
    ensures VolumeSpecAsWritten(v).Failure?
  {
  }

  /** For instance a volume labelled "root" of size 10 tagged "ssd" panics as written and converts once corrected. */
  lemma VolumeExample()
    ensures var v := Map(map["label" := Str("root"), "size" := Int(10), "tags" := List([Str("ssd")])]);
      VolumeSpecAsWritten(v).Failure? && VolumeSpec(v) == Success(StorageSpec("root", 10, ["ssd"]))
  {
    var v := Map(map["label" := Str("root"), "size" := Int(10), "tags" := List([Str("ssd")])]);
    VolumeAsWrittenPanics(v);
    assert "size"[0] != "tags"[0];
    assert Attr(v, "label") == Success("root");
    assert AsInt(Some(v.attrs["size"])) == Success(10);
    assert AsList(Some(v.attrs["tags"])) == Success([Str("ssd")]);
    var tags := AsStrings([Str("ssd")]);
    assert tags.Success? && |tags.value| == 1 && tags.value[0] == "ssd";
    assert tags.value == ["ssd"];
  }

  /** The storage specs: one per volume, in order; the first volume that panics decides. */
  function Storage(vols: seq<Value>): (r: Result<seq<StorageSpec>, Panic>)
    ensures r.Success? <==> forall k :: 0 <= k < |vols| ==> VolumeSpec(vols[k]).Success?
    ensures r.Success? ==> |r.value| == |vols| && forall k :: 0 <= k < |vols| ==> r.value[k] == VolumeSpec(vols[k]).value
  {
    if vols == [] then Success([])
    else
      var init :- Storage(vols[..|vols| - 1]);
      var last :- VolumeSpec(vols[|vols| - 1]);
      Success(init + [last])
  }

  /** Once a prefix of the volumes panics, the whole list panics the same way. */
  lemma {:induction false} StorageFailureSticks(vols: seq<Value>, n: nat)
    requires n <= |vols| && Storage(vols[..n]).Failure?
    ensures Storage(vols) == Storage(vols[..n])
    decreases |vols|
  {
    if n < |vols| {
      var init := vols[..|vols| - 1];
      assert init[..n] == vols[..n];
      StorageFailureSticks(init, n);
      assert Storage(init).Failure?;
      assert Storage(vols) == Failure(Storage(init).error);
    } else {
      assert vols[..n] == vols;
    }
  }

  /** convertConstraints, attribute by attribute in the order it reads them. */
  function Constraints(d: ResourceData): Result<AllocateArgs, Panic>
  {
    var hostname :- OptString(d, "hostname");
    var systemID :- OptString(d, "system_id");
    var architecture :- OptString(d, "architecture");
    var cpu :- OptInt(d, "cpu_count");
    var memory :- OptInt(d, "memory");
    var tags :- OptStrings(d, "tags");
    var notTags :- OptStrings(d, "not_tags");
    var zones :- AsSetList(Get(d, "zone"));
    var zone :- FirstZoneName(zones);
    var notZones :- OptStrings(d, "not_zones");
    var vols :- AsSetList(Get(d, "volumes"));
    var storage :- Storage(vols);
    var comment :- OptString(d, "comment");
    Success(AllocateArgs(hostname, systemID, architecture, cpu, memory, tags, notTags, zone, notZones, storage, comment))
  }

  /**
   * For a state of the resource's schema that converts: each scalar constraint is the
   * attribute's value (its zero value when unset), the lists are the attributes' strings
   * in order, the zone is the first zone's name, and there is one storage spec per volume.
   */
  lemma ConstraintsReflectState(d: ResourceData)
    requires Conforms(d, MachineSchema) && Constraints(d).Success?
    ensures ConstraintAttrs(d)
    ensures var a := Constraints(d).value;
      a.hostname == d.values["hostname"].s && a.systemID == d.values["system_id"].s &&
      a.architecture == d.values["architecture"].s && a.comment == d.values["comment"].s &&
      a.minCPUCount == d.values["cpu_count"].i && a.minMemory == d.values["memory"].i &&
      Success(a.tags) == AsStrings(d.values["tags"].items) &&
      Success(a.notTags) == AsStrings(d.values["not_tags"].items) &&
      Success(a.notInZone) == AsStrings(d.values["not_zones"].items) &&
      (d.values["zone"].elems == [] ==> a.zone == "") &&
      (d.values["zone"].elems != [] ==> var z := d.values["zone"].elems[0];
        z.Map? && "name" in z.attrs && z.attrs["name"] == Str(a.zone)) &&
      |a.storage| == |d.values["volumes"].elems| &&
      forall k :: 0 <= k < |a.storage| ==> a.storage[k] == VolumeSpec(d.values["volumes"].elems[k]).value
  {
    ConstraintTypes();
    assert HasType(d.values["hostname"], MachineSchema["hostname"]);
    assert HasType(d.values["system_id"], MachineSchema["system_id"]);
    assert HasType(d.values["architecture"], MachineSchema["architecture"]);
    assert HasType(d.values["comment"], MachineSchema["comment"]);
    assert HasType(d.values["cpu_count"], MachineSchema["cpu_count"]);
    assert HasType(d.values["memory"], MachineSchema["memory"]);
    assert HasType(d.values["tags"], MachineSchema["tags"]);
    assert HasType(d.values["not_tags"], MachineSchema["not_tags"]);
    assert HasType(d.values["not_zones"], MachineSchema["not_zones"]);
    assert HasType(d.values["zone"], MachineSchema["zone"]);
    assert HasType(d.values["volumes"], MachineSchema["volumes"]);
  }

  /** The attributes convertConstraints reads are present, each holding a value of its declared type. */
  predicate ConstraintAttrs(d: ResourceData)
  {
    "hostname" in d.values && d.values["hostname"].Str? && "system_id" in d.values && d.values["system_id"].Str? &&
    "architecture" in d.values && d.values["architecture"].Str? && "comment" in d.values && d.values["comment"].Str? &&
    "cpu_count" in d.values && d.values["cpu_count"].Int? && "memory" in d.values && d.values["memory"].Int? &&
    "tags" in d.values && d.values["tags"].List? && "not_tags" in d.values && d.values["not_tags"].List? &&
    "not_zones" in d.values && d.values["not_zones"].List? &&
    "zone" in d.values && d.values["zone"].Set? && "volumes" in d.values && d.values["volumes"].Set?
  }

  /** With nothing set and no zone or volume, the constraints are AllocateMachineArgs{}. */
  lemma NothingSetNoConstraints(d: ResourceData)
    requires Conforms(d, MachineSchema)
    requires forall k :: k in d.values ==> IsZero(d.values[k])
    ensures Constraints(d) == Success(NoConstraints)
  {
    ConstraintTypes();
    assert HasType(d.values["zone"], MachineSchema["zone"]);
    assert HasType(d.values["volumes"], MachineSchema["volumes"]);
    assert HasType(d.values["hostname"], MachineSchema["hostname"]);
  }

  /** The storage specs, appended one volume at a time. */
  method ConvertVolumes(vols: seq<Value>) returns (r: Result<seq<StorageSpec>, Panic>)
    ensures r == Storage(vols)
  {
    var storage: seq<StorageSpec> := [];
    for i := 0 to |vols|
      invariant Storage(vols[..i]) == Success(storage)
    {
      assert vols[..i + 1][..i] == vols[..i];
      var spec := VolumeSpec(vols[i]);
      if spec.Failure? {
        StorageFailureSticks(vols, i + 1);
        return Failure(spec.error);
      }
      storage := storage + [spec.value];
    }
    assert vols[..|vols|] == vols;
    r := Success(storage);
  }

  /** convertConstraints: fills the arguments field by field; a failed type assertion panics. */
  method ConvertConstraints(d: ResourceData) returns (r: Result<AllocateArgs, Panic>)
    ensures r == Constraints(d)
  {
    var args := NoConstraints;
    var hostname := OptString(d, "hostname");
    if hostname.Failure? { return Failure(hostname.error); }
    args := args.(hostname := hostname.value);
    var systemID := OptString(d, "system_id");
    if systemID.Failure? { return Failure(systemID.error); }
    args := args.(systemID := systemID.value);
    var architecture := OptString(d, "architecture");
    if architecture.Failure? { return Failure(architecture.error); }
    args := args.(architecture := architecture.value);
    var cpu := OptInt(d, "cpu_count");
    if cpu.Failure? { return Failure(cpu.error); }
    args := args.(minCPUCount := cpu.value);
    var memory := OptInt(d, "memory");
    if memory.Failure? { return Failure(memory.error); }
    args := args.(minMemory := memory.value);
    var tags := OptStrings(d, "tags");
    if tags.Failure? { return Failure(tags.error); }
    args := args.(tags := tags.value);
    var notTags := OptStrings(d, "not_tags");
    if notTags.Failure? { return Failure(notTags.error); }
    args := args.(notTags := notTags.value);
    var zones := AsSetList(Get(d, "zone"));
    if zones.Failure? { return Failure(zones.error); }
    if |zones.value| > 0 {
      var name := Attr(zones.value[0], "name");
      if name.Failure? { return Failure(name.error); }
      args := args.(zone := name.value);
    }
    var notZones := OptStrings(d, "not_zones");
    if notZones.Failure? { return Failure(notZones.error); }
    args := args.(notInZone := notZones.value);
    var vols := AsSetList(Get(d, "volumes"));
    if vols.Failure? { return Failure(vols.error); }
    var storage := ConvertVolumes(vols.value);
    if storage.Failure? { return Failure(storage.error); }
    args := args.(storage := storage.value);
    var comment := OptString(d, "comment");
    if comment.Failure? { return Failure(comment.error); }
    args := args.(comment := comment.value);
    r := Success(args);
  }

  // ---------------------------------------------------------------- subnets by name

  /** The parts of a gomaasapi.Subnet that getSubnets touches; the name is its key. */
  datatype SpaceSubnet = SpaceSubnet(name: string, id: int, cidr: string)

  /** The subnets of the spaces, space by space, in order. */
  function Flatten(spaces: seq<seq<SpaceSubnet>>): seq<SpaceSubnet>
  {
    if spaces == [] then [] else Flatten(spaces[..|spaces| - 1]) + spaces[|spaces| - 1]
  }

  /** Subnets keyed by name, visited in order, so a later subnet replaces an earlier one of the same name. */
  function ByName(subnets: seq<SpaceSubnet>): (m: map<string, SpaceSubnet>)
    ensures forall k :: k in m ==> m[k].name == k
  {
    if subnets == [] then map[]
    else
      var last := subnets[|subnets| - 1];
      ByName(subnets[..|subnets| - 1])[last.name := last]
  }

  /** The keys are exactly the subnets' names. */
  lemma {:induction false} ByNameKeys(subnets: seq<SpaceSubnet>)
    ensures forall k :: k in ByName(subnets) <==> exists i :: 0 <= i < |subnets| && subnets[i].name == k
  {
    if subnets != [] {
      var n := |subnets| - 1;
      var init := subnets[..n];
      ByNameKeys(init);
      forall k | k in ByName(subnets)
        ensures exists i :: 0 <= i < |subnets| && subnets[i].name == k
      {
        if k != subnets[n].name {
          assert k in ByName(init);
          var i :| 0 <= i < |init| && init[i].name == k;
          assert subnets[i].name == k;
        } else {
          assert subnets[n].name == k;
        }
      }
      forall k | exists i :: 0 <= i < |subnets| && subnets[i].name == k
        ensures k in ByName(subnets)
      {
        var i :| 0 <= i < |subnets| && subnets[i].name == k;
        if i < n {
          assert init[i].name == k;
        }
      }
    }
  }

  /** Each key holds the last subnet listed with that name. */
  lemma {:induction false} ByNameLastWins(subnets: seq<SpaceSubnet>, i: nat)
    requires i < |subnets|
    requires forall j :: i < j < |subnets| ==> subnets[j].name != subnets[i].name
    ensures subnets[i].name in ByName(subnets) && ByName(subnets)[subnets[i].name] == subnets[i]
  {
    var n := |subnets| - 1;
    if i < n {
      var init := subnets[..n];
      assert init[i] == subnets[i];
      ByNameLastWins(init, i);
    }
  }

  /** Visiting one more subnet of a space stores it under its name. */
  lemma ByNameStep(before: seq<SpaceSubnet>, space: seq<SpaceSubnet>, j: nat)
    requires j < |space|
    ensures ByName(before + space[..j + 1]) == ByName(before + space[..j])[space[j].name := space[j]]
  {
    var s := before + space[..j + 1];
    assert s[..|s| - 1] == before + space[..j];
  }

  /** The subnets of one more space follow those of the spaces before it. */
  lemma FlattenStep(sp: seq<seq<SpaceSubnet>>, si: nat)
    requires si < |sp|
    ensures Flatten(sp[..si + 1]) == Flatten(sp[..si]) + sp[si]
  {
    assert sp[..si + 1][..si] == sp[..si];
  }

  /**
   * getSubnets: the error of listing the spaces is returned with no map; otherwise the
   * subnets of every space, keyed by name.
   */
  method GetSubnets(spaces: Result<seq<seq<SpaceSubnet>>, string>) returns (m: Option<map<string, SpaceSubnet>>, err: Option<string>)
    ensures spaces.Failure? ==> m.None? && err == Some(spaces.error)
    ensures spaces.Success? ==> err.None? && m == Some(ByName(Flatten(spaces.value)))
  {
    if spaces.Failure? {
      return None, Some(spaces.error);
    }
    var sp := spaces.value;
    var subnets: map<string, SpaceSubnet> := map[];
    for si := 0 to |sp|
      invariant subnets == ByName(Flatten(sp[..si]))
    {
      var space := sp[si];
      ghost var before := Flatten(sp[..si]);
      assert before + space[..0] == before;
      for j := 0 to |space|
        invariant subnets == ByName(before + space[..j])
      {
        ByNameStep(before, space, j);
        subnets := subnets[space[j].name := space[j]];
      }
      assert space[..|space|] == space;
      FlattenStep(sp, si);
    }
    assert sp[..|sp|] == sp;
    m, err := Some(subnets), None;
  }
}

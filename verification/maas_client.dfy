/**
 * maas_client.go: two helpers of the maas_instance resource. getNodeStatus renders a
 * node's status code as the state string the refresh loop compares; parseConstraints
 * turns the configuration into the url.Values of the acquire call.
 *
 * Looking the node up is network I/O and comes in as its result; the refresh loop that
 * polls getNodeStatus belongs to the Terraform SDK and is not part of this model.
 */
module MaasClient {
  import opened Wrappers
  import opened Strings
  import opened TerraformState
  import UV = UrlValues

  /** NodeInfo.status is a uint16. */
  type Status = n: nat | n < 0x1_0000

  /** getNodeStatus's state string: the decimal status code followed by ":". */
  function StatusString(status: Status): (s: string)
    ensures |s| >= 2 && s[|s| - 1] == ':' && AllDigits(s[..|s| - 1])
  {
    var s := NatToString(status) + ":";
    assert s[..|s| - 1] == NatToString(status);
    s
  }

  /** The digits before the ":" read back as the status, so distinct codes give distinct strings. */
  lemma StatusStringRoundTrip(status: Status)
    ensures var s := StatusString(status); Atoi(s[..|s| - 1]) == (status, None)
  {
    var s := StatusString(status);
    assert s[..|s| - 1] == Itoa(status);
    AtoiItoa(status);
  }

  lemma StatusStringInjective(a: Status, b: Status)
    requires StatusString(a) == StatusString(b)
    ensures a == b
  {
    StatusStringRoundTrip(a);
    StatusStringRoundTrip(b);
  }

  /** The refresh function: the lookup's error with an empty state, or the node's state string. */
  function RefreshStatus(lookup: Result<Status, string>): (r: (string, Option<string>))
    ensures lookup.Failure? ==> r == ("", Some(lookup.error))
    ensures lookup.Success? ==> r.1.None? && r.0 == StatusString(lookup.value)
  {
    match lookup
    case Failure(e) => ("", Some(e))
    case Success(status) => (StatusString(status), None)
  }

  /** The maas_instance resource's schema: each top-level attribute with its declared type. */
  const InstanceSchema: map<string, ValueType> := map[
    "architecture" := TypeString, "boot_type" := TypeString, "cpu_count" := TypeInt,
    "disable_ipv4" := TypeBool, "distro_series" := TypeString, "hostname" := TypeString,
    "deploy_hostname" := TypeString, "deploy_tags" := TypeList, "tags" := TypeList,
    "release_erase" := TypeBool, "release_erase_secure" := TypeBool, "release_erase_quick" := TypeBool,
    "install_kvm" := TypeBool, "install_rackd" := TypeBool, "ip_addresses" := TypeList,
    "macaddress_set" := TypeList, "memory" := TypeInt, "netboot" := TypeBool,
    "osystem" := TypeString, "owner" := TypeString, "physicalblockdevice_set" := TypeList,
    "power_state" := TypeString, "power_type" := TypeString, "pxe_mac" := TypeSet,
    "resource_uri" := TypeString, "routers" := TypeList, "status" := TypeInt,
    "storage" := TypeInt, "swap_size" := TypeInt, "system_id" := TypeString,
    "tag_names" := TypeList, "zone" := TypeSet, "user_data" := TypeString,
    "hwe_kernel" := TypeString, "comment" := TypeString]

  /** The declared types of the attributes parseConstraints reads. */
  lemma InstanceSchemaTypes()
    ensures "hostname" in InstanceSchema && InstanceSchema["hostname"] == TypeString
    ensures "architecture" in InstanceSchema && InstanceSchema["architecture"] == TypeString
    ensures "cpu_count" in InstanceSchema && InstanceSchema["cpu_count"] == TypeInt
    ensures "memory" in InstanceSchema && InstanceSchema["memory"] == TypeInt
    ensures "tags" in InstanceSchema && InstanceSchema["tags"] == TypeList
  {
  }

  /** A string attribute that GetOk reports, split into its whitespace-separated fields. */
  function FieldsIfSet(d: ResourceData, key: string): Result<Option<seq<string>>, Panic>
  {
    match GetOk(d, key)
    case None => Success(None)
    case Some(v) =>
      var s :- AsString(Some(v));
      Success(Some(Fields(s)))
  }

  /** cpu_count and memory as written: a TypeInt attribute asserted to be a string. */
  function IntFieldsAsWritten(d: ResourceData, key: string): Result<Option<seq<string>>, Panic>
  {
    FieldsIfSet(d, key)
  }

  /** cpu_count and memory as intended: the int attribute's decimal text. */
  function IntFieldsIfSet(d: ResourceData, key: string): (r: Result<Option<seq<string>>, Panic>)
    ensures key in d.values && d.values[key].Int? ==>
      r == Success(if d.values[key].i == 0 then None else Some([Itoa(d.values[key].i)]))
  {
    match GetOk(d, key)
    case None => Success(None)
    case Some(v) =>
      var n :- AsInt(Some(v));
      assert forall i :: 0 <= i < |Itoa(n)| ==> !IsSpace(Itoa(n)[i]);
      FieldsOfWord(Itoa(n));
      Success(Some(Fields(Itoa(n))))
  }

  /** The tags, copied one `.(string)` at a time. */
  function TagsIfSet(d: ResourceData): Result<Option<seq<string>>, Panic>
  {
    match GetOk(d, "tags")
    case None => Success(None)
    case Some(v) =>
      var items :- AsList(Some(v));
      var tags :- AsStrings(items);
      Success(Some(tags))
  }

  /** `retVal[key] = values` when the attribute was set. */
  function Put(q: UV.Values, key: string, values: Option<seq<string>>): UV.Values
  {
    if values.Some? then q[key := values.value] else q
  }

  /** The map parseConstraints returns, filled in the order name, arch, cpu_count, memory, tags. */
  function ConstraintMap(name: Option<seq<string>>, arch: Option<seq<string>>, cpu: Option<seq<string>>,
                         memory: Option<seq<string>>, tags: Option<seq<string>>): UV.Values
  {
    Put(Put(Put(Put(Put(map[], "name", name), "arch", arch), "cpu_count", cpu), "memory", memory), "tags", tags)
  }

  /** Each constraint is present exactly when it was set, holding what was set; there are no other keys. */
  lemma ConstraintMapContent(name: Option<seq<string>>, arch: Option<seq<string>>, cpu: Option<seq<string>>,
                             memory: Option<seq<string>>, tags: Option<seq<string>>)
    ensures var q := ConstraintMap(name, arch, cpu, memory, tags);
      q.Keys <= {"name", "arch", "cpu_count", "memory", "tags"} &&
      ("name" in q <==> name.Some?) && (name.Some? ==> q["name"] == name.value) &&
      ("arch" in q <==> arch.Some?) && (arch.Some? ==> q["arch"] == arch.value) &&
      ("cpu_count" in q <==> cpu.Some?) && (cpu.Some? ==> q["cpu_count"] == cpu.value) &&
      ("memory" in q <==> memory.Some?) && (memory.Some? ==> q["memory"] == memory.value) &&
      ("tags" in q <==> tags.Some?) && (tags.Some? ==> q["tags"] == tags.value)
  {
    assert "name"[0] != "arch"[0] && "name"[0] != "tags"[0] && "arch"[0] != "tags"[0];
    var q2 := Put(Put(map[], "name", name), "arch", arch);
    assert q2.Keys <= {"name", "arch"};
    assert ("name" in q2 <==> name.Some?) && (name.Some? ==> q2["name"] == name.value);
    var q4 := Put(Put(q2, "cpu_count", cpu), "memory", memory);
    assert q4.Keys <= {"name", "arch", "cpu_count", "memory"};
    assert ("name" in q4 <==> name.Some?) && (name.Some? ==> q4["name"] == name.value);
    assert ("arch" in q4 <==> arch.Some?) && (arch.Some? ==> q4["arch"] == arch.value);
  }

  /** parseConstraints as written: cpu_count and memory are asserted to be strings. */
  function ParseConstraintsAsWritten(d: ResourceData): Result<UV.Values, Panic>
  {
    var name :- FieldsIfSet(d, "hostname");
    var arch :- FieldsIfSet(d, "architecture");
    var cpu :- IntFieldsAsWritten(d, "cpu_count");
    var memory :- IntFieldsAsWritten(d, "memory");
    var tags :- TagsIfSet(d);
    Success(ConstraintMap(name, arch, cpu, memory, tags))
  }

  /** As written, any instance state that sets cpu_count or memory panics. */
  lemma AsWrittenIntConstraintPanics(d: ResourceData)
    requires Conforms(d, InstanceSchema)
    requires GetOk(d, "cpu_count").Some? || GetOk(d, "memory").Some?
    ensures ParseConstraintsAsWritten(d).Failure?
  {
    InstanceSchemaTypes();
    ConformingGet(d, InstanceSchema, "hostname");
    ConformingGet(d, InstanceSchema, "architecture");
    ConformingGet(d, InstanceSchema, "cpu_count");
    ConformingGet(d, InstanceSchema, "memory");
  }

  /** parseConstraints as intended: cpu_count and memory are rendered in decimal. */
  function ParseConstraints(d: ResourceData): Result<UV.Values, Panic>
  {
    var name :- FieldsIfSet(d, "hostname");
    var arch :- FieldsIfSet(d, "architecture");
    var cpu :- IntFieldsIfSet(d, "cpu_count");
    var memory :- IntFieldsIfSet(d, "memory");
    var tags :- TagsIfSet(d);
    Success(ConstraintMap(name, arch, cpu, memory, tags))
  }

  /**
   * For an instance state: the call panics exactly when a tag is not a string.
   * Otherwise "name" and "arch" are present exactly when the hostname and the
   * architecture are set, holding their whitespace-separated fields; "cpu_count" and
   * "memory" are present exactly when set, holding the decimal value, which reads back
   * as the attribute; "tags" is present exactly when the list is not empty, holding its
   * strings in order; there are no other keys.
   */
  lemma ParseConstraintsContent(d: ResourceData)
    requires Conforms(d, InstanceSchema)
    ensures InstanceStrings(d) && InstanceInts(d) && "tags" in d.values && d.values["tags"].List?
    ensures ParseConstraints(d).Success? <==> AsStrings(d.values["tags"].items).Success?
    ensures ParseConstraints(d).Success? ==>
      var q := ParseConstraints(d).value;
      var host := d.values["hostname"].s;
      var arch := d.values["architecture"].s;
      var cpu := d.values["cpu_count"].i;
      var mem := d.values["memory"].i;
      var tags := d.values["tags"].items;
      ("name" in q <==> host != "") && (host != "" ==> q["name"] == Fields(host)) &&
      ("arch" in q <==> arch != "") && (arch != "" ==> q["arch"] == Fields(arch)) &&
      ("cpu_count" in q <==> cpu != 0) && (cpu != 0 ==> q["cpu_count"] == [Itoa(cpu)] && Atoi(Itoa(cpu)) == (cpu, None)) &&
      ("memory" in q <==> mem != 0) && (mem != 0 ==> q["memory"] == [Itoa(mem)] && Atoi(Itoa(mem)) == (mem, None)) &&
      ("tags" in q <==> tags != []) && (tags != [] ==> Success(q["tags"]) == AsStrings(tags)) &&
      q.Keys <= {"name", "arch", "cpu_count", "memory", "tags"}
  {
    InstanceConstraints(d);
    var tags := d.values["tags"].items;
    if AsStrings(tags).Success? {
      ConstraintMapContent(FieldsIfSet(d, "hostname").value, FieldsIfSet(d, "architecture").value,
        IntFieldsIfSet(d, "cpu_count").value, IntFieldsIfSet(d, "memory").value, TagsIfSet(d).value);
      AtoiItoa(d.values["cpu_count"].i);
      AtoiItoa(d.values["memory"].i);
    }
  }

  /** The hostname and the architecture of a state hold strings. */
  predicate InstanceStrings(d: ResourceData)
  {
    "hostname" in d.values && d.values["hostname"].Str? && "architecture" in d.values && d.values["architecture"].Str?
  }

  /** The cpu_count and the memory of a state hold ints. */
  predicate InstanceInts(d: ResourceData)
  {
    "cpu_count" in d.values && d.values["cpu_count"].Int? && "memory" in d.values && d.values["memory"].Int?
  }

  /** What each constraint reads from an instance state: only the tags can panic, on an element that is not a string. */
  lemma InstanceConstraints(d: ResourceData)
    requires Conforms(d, InstanceSchema)
    ensures InstanceStrings(d) && InstanceInts(d) && "tags" in d.values && d.values["tags"].List?
    ensures FieldsIfSet(d, "hostname") == Success(if d.values["hostname"].s == "" then None else Some(Fields(d.values["hostname"].s)))
    ensures FieldsIfSet(d, "architecture") == Success(if d.values["architecture"].s == "" then None else Some(Fields(d.values["architecture"].s)))
    ensures IntFieldsIfSet(d, "cpu_count") == Success(if d.values["cpu_count"].i == 0 then None else Some([Itoa(d.values["cpu_count"].i)]))
    ensures IntFieldsIfSet(d, "memory") == Success(if d.values["memory"].i == 0 then None else Some([Itoa(d.values["memory"].i)]))
    ensures var tags := d.values["tags"].items;
      TagsIfSet(d) == if tags == [] then Success(None) else if AsStrings(tags).Success? then Success(Some(AsStrings(tags).value)) else Failure(NotAString)
  {
    InstanceSchemaTypes();
    ConformingGet(d, InstanceSchema, "hostname");
    ConformingGet(d, InstanceSchema, "architecture");
    ConformingGet(d, InstanceSchema, "cpu_count");
    ConformingGet(d, InstanceSchema, "memory");
    ConformingGet(d, InstanceSchema, "tags");
  }

  /** Tags that GetOk reports are copied under "tags" with the same length and order. */
  lemma TagsCopied(d: ResourceData)
    requires ParseConstraints(d).Success?
    requires "tags" in d.values && d.values["tags"].List? && d.values["tags"].items != []
    ensures var q := ParseConstraints(d).value; var items := d.values["tags"].items;
      "tags" in q && |q["tags"]| == |items| && forall k :: 0 <= k < |items| ==> items[k] == Str(q["tags"][k])
  {
  }

  /** Keys are only ever those of the five constraints, each present only when its attribute is reported. */
  lemma UnsetConstraintsAbsent(d: ResourceData)
    requires ParseConstraints(d).Success?
    ensures var q := ParseConstraints(d).value;
      q.Keys <= {"name", "arch", "cpu_count", "memory", "tags"} &&
      ("name" in q <==> GetOk(d, "hostname").Some?) && ("arch" in q <==> GetOk(d, "architecture").Some?) &&
      ("cpu_count" in q <==> GetOk(d, "cpu_count").Some?) && ("memory" in q <==> GetOk(d, "memory").Some?) &&
      ("tags" in q <==> GetOk(d, "tags").Some?)
  {
    ConstraintMapContent(FieldsIfSet(d, "hostname").value, FieldsIfSet(d, "architecture").value,
      IntFieldsIfSet(d, "cpu_count").value, IntFieldsIfSet(d, "memory").value, TagsIfSet(d).value);
  }

  /** The tag copy of parseConstraints: a slice of the list's length, filled by index. */
  method CopyTags(items: seq<Value>) returns (r: Result<seq<string>, Panic>)
    ensures r == AsStrings(items)
  {
    var tagStrings: seq<string> := seq(|items|, _ => "");
    for i := 0 to |items|
      invariant |tagStrings| == |items|
      invariant forall k :: 0 <= k < i ==> items[k].Str? && tagStrings[k] == items[k].s
    {
      var s := AsString(Some(items[i]));
      if s.Failure? {
        return Failure(s.error);
      }
      tagStrings := tagStrings[i := s.value];
    }
    assert AsStrings(items).Success?;
    assert tagStrings == AsStrings(items).value;
    r := Success(tagStrings);
  }

  /** parseConstraints: fills the map constraint by constraint; the error it returns is always nil. */
  method ParseConstraintsInto(d: ResourceData) returns (r: Result<UV.Values, Panic>, err: Option<string>)
    ensures err.None? && r == ParseConstraints(d)
  {
    err := None;
    var retVal: UV.Values := map[];
    var name := FieldsIfSet(d, "hostname");
    if name.Failure? { return Failure(name.error), err; }
    retVal := Put(retVal, "name", name.value);
    var arch := FieldsIfSet(d, "architecture");
    if arch.Failure? { return Failure(arch.error), err; }
    retVal := Put(retVal, "arch", arch.value);
    var cpu := IntFieldsIfSet(d, "cpu_count");
    if cpu.Failure? { return Failure(cpu.error), err; }
    retVal := Put(retVal, "cpu_count", cpu.value);
    var memory := IntFieldsIfSet(d, "memory");
    if memory.Failure? { return Failure(memory.error), err; }
    retVal := Put(retVal, "memory", memory.value);
    var tags := GetOk(d, "tags");
    if tags.Some? {
      var items := AsList(tags);
      if items.Failure? { return Failure(items.error), err; }
      var copied := CopyTags(items.value);
      if copied.Failure? { return Failure(copied.error), err; }
      retVal := retVal["tags" := copied.value];
    }
    r := Success(retVal);
  }
}

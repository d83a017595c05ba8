/**
 * internal/tfschema/resource.go: a Resource maps the lower-cased name of each field of
 * an endpoint struct to the Schema parsed from that field. The fields of the endpoint's
 * metadata struct are parsed too, and can fail the conversion, but are not kept.
 */
module ResourceSchema {
  import opened Wrappers
  import opened Strings
  import opened Reflect
  import TS = TerraformState
  import SP = SchemaParsing

  /** An endpoint struct type: its fields, and the fields of the struct GetMetadata returns. */
  datatype Endpoint = Endpoint(fields: seq<StructField>, metadata: seq<StructField>)

  /** The Terraform schema parsed from one field, starting from an empty schema. */
  function FieldSchema(f: StructField): Result<TS.Schema, string>
  {
    var (s, err) := SP.ParseSpec(TS.EmptySchema, f);
    if err.Some? then Failure(err.value) else Success(s)
  }

  /** How one field becomes a schema; the resource uses FieldSchema. */
  type FieldParser = StructField -> Result<TS.Schema, string>

  /** The fields parsed in order into a map keyed by lower-cased name; the first error stops the loop. */
  function ParseFields(fs: seq<StructField>, parse: FieldParser): (r: Result<map<string, TS.Schema>, string>)
    decreases |fs|
  {
    if fs == [] then Success(map[])
    else
      var f := fs[|fs| - 1];
      match ParseFields(fs[..|fs| - 1], parse)
      case Failure(e) => Failure(e)
      case Success(m) =>
        match parse(f)
        case Failure(e) => Failure(e)
        case Success(s) => Success(m[Lower(f.name) := s])
  }

  /** The fields parse exactly when each of them does, into one entry per lower-cased name. */
  lemma {:induction false} ParseFieldsOutcome(fs: seq<StructField>, parse: FieldParser)
    ensures ParseFields(fs, parse).Success? <==> forall i :: 0 <= i < |fs| ==> parse(fs[i]).Success?
    ensures ParseFields(fs, parse).Success? ==> ParseFields(fs, parse).value.Keys == set i | 0 <= i < |fs| :: Lower(fs[i].name)
    decreases |fs|
  {
    if fs != [] {
      var front, f := fs[..|fs| - 1], fs[|fs| - 1];
      ParseFieldsOutcome(front, parse);
      assert forall i :: 0 <= i < |front| ==> front[i] == fs[i];
      if ParseFields(fs, parse).Success? {
        assert (set i | 0 <= i < |fs| :: Lower(fs[i].name)) ==
               (set i | 0 <= i < |front| :: Lower(front[i].name)) + {Lower(f.name)};
      }
    }
  }

  /** The error is that of the first field that fails to parse. */
  lemma {:induction false} FirstError(fs: seq<StructField>, parse: FieldParser) returns (i: nat)
    requires ParseFields(fs, parse).Failure?
    ensures i < |fs| && parse(fs[i]) == Failure(ParseFields(fs, parse).error)
    ensures forall j :: 0 <= j < i ==> parse(fs[j]).Success?
    decreases |fs|
  {
    var front := fs[..|fs| - 1];
    assert forall k :: 0 <= k < |front| ==> front[k] == fs[k];
    if ParseFields(front, parse).Failure? {
      i := FirstError(front, parse);
    } else {
      ParseFieldsOutcome(front, parse);
      i := |fs| - 1;
    }
  }

  /** NewResource, as a function of the endpoint. */
  function NewResourceSpec(e: Endpoint): Result<map<string, TS.Schema>, string>
  {
    var resource :- ParseFields(e.fields, FieldSchema);
    var _ :- ParseFields(e.metadata, FieldSchema);
    Success(resource)
  }

  /**
   * NewResource succeeds exactly when every field and every metadata field parses; the
   * result has one entry per lower-cased field name and none from the metadata.
   */
  lemma NewResourceOutcome(e: Endpoint)
    ensures NewResourceSpec(e).Success? <==>
      (forall i :: 0 <= i < |e.fields| ==> FieldSchema(e.fields[i]).Success?) &&
      (forall i :: 0 <= i < |e.metadata| ==> FieldSchema(e.metadata[i]).Success?)
    ensures NewResourceSpec(e).Success? ==>
      NewResourceSpec(e).value.Keys == set i | 0 <= i < |e.fields| :: Lower(e.fields[i].name)
  {
    ParseFieldsOutcome(e.fields, FieldSchema);
    ParseFieldsOutcome(e.metadata, FieldSchema);
  }

  /** Of two fields whose names lower-case alike, the later one's schema is kept. */
  lemma {:induction false} LaterFieldWins(fs: seq<StructField>, parse: FieldParser, i: nat)
    requires i < |fs| && forall j :: 0 <= j < |fs| ==> parse(fs[j]).Success?
    requires forall j :: i < j < |fs| ==> Lower(fs[j].name) != Lower(fs[i].name)
    ensures ParseFields(fs, parse).Success?
    ensures var m := ParseFields(fs, parse).value;
      Lower(fs[i].name) in m && m[Lower(fs[i].name)] == parse(fs[i]).value
    decreases |fs|
  {
    ParseFieldsOutcome(fs, parse);
    var front := fs[..|fs| - 1];
    assert forall k :: 0 <= k < |front| ==> front[k] == fs[k];
    if i < |fs| - 1 {
      LaterFieldWins(front, parse, i);
    }
  }

  /** A failure in a prefix of the fields is the failure of all of them. */
  lemma {:induction false} FailureSticks(fs: seq<StructField>, parse: FieldParser, n: nat)
    requires n <= |fs| && ParseFields(fs[..n], parse).Failure?
    ensures ParseFields(fs, parse) == ParseFields(fs[..n], parse)
    decreases |fs| - n
  {
    if n < |fs| {
      assert fs[..n + 1][..n] == fs[..n];
      FailureSticks(fs, parse, n + 1);
    } else {
      assert fs[..n] == fs;
    }
  }

  /** One field: a new Schema, parsed from the field. */
  method ParseField(f: StructField) returns (sch: SP.Schema, err: Option<string>)
    ensures fresh(sch)
    ensures err.None? <==> FieldSchema(f).Success?
    ensures err.None? ==> sch.schema == FieldSchema(f).value
    ensures err.Some? ==> err.value == FieldSchema(f).error
  {
    sch := new SP.Schema(f);
    err := sch.Parse(f);
  }

  /** The loop over a struct's fields: each parsed schema stored under the lower-cased field name. */
  method ParseFieldsInto(fs: seq<StructField>) returns (resource: map<string, SP.Schema>, err: Option<string>)
    ensures err.None? <==> ParseFields(fs, FieldSchema).Success?
    ensures err.Some? ==> err.value == ParseFields(fs, FieldSchema).error
    ensures err.None? ==> resource.Keys == ParseFields(fs, FieldSchema).value.Keys
    ensures err.None? ==> forall k :: k in resource ==> resource[k].schema == ParseFields(fs, FieldSchema).value[k]
    ensures forall k :: k in resource ==> fresh(resource[k])
  {
    resource := map[];
    for i := 0 to |fs|
      invariant ParseFields(fs[..i], FieldSchema).Success?
      invariant resource.Keys == ParseFields(fs[..i], FieldSchema).value.Keys
      invariant forall k :: k in resource ==> resource[k].schema == ParseFields(fs[..i], FieldSchema).value[k]
      invariant forall k :: k in resource ==> fresh(resource[k])
    {
      assert fs[..i + 1][..i] == fs[..i];
      var sch, e := ParseField(fs[i]);
      if e.Some? {
        FailureSticks(fs, FieldSchema, i + 1);
        return map[], e;
      }
      resource := resource[Lower(fs[i].name) := sch];
    }
    assert fs[..|fs|] == fs;
    err := None;
  }

  /**
   * NewResource: parses the endpoint's fields, then its metadata fields; on any error it
   * returns no resource. The metadata schemas are discarded.
   */
  method NewResource(e: Endpoint) returns (resource: map<string, SP.Schema>, err: Option<string>)
    ensures err.None? <==> NewResourceSpec(e).Success?
    ensures err.Some? ==> resource == map[] && err.value == NewResourceSpec(e).error
    ensures err.None? ==> resource.Keys == NewResourceSpec(e).value.Keys
    ensures err.None? ==> forall k :: k in resource ==> resource[k].schema == NewResourceSpec(e).value[k]
  {
    resource, err := ParseFieldsInto(e.fields);
    if err.Some? {
      return map[], err;
    }
    var mdResource, mdErr := ParseFieldsInto(e.metadata);
    if mdErr.Some? {
      return map[], mdErr;
    }
  }

  /** TFResource: the same keys, each with the underlying Terraform schema. */
  method TFResource(s: map<string, SP.Schema>) returns (res: map<string, TS.Schema>)
    ensures res.Keys == s.Keys
    ensures forall k :: k in res ==> res[k] == s[k].schema
  {
    res := map[];
    var keys := s.Keys;
    while keys != {}
      invariant keys <= s.Keys
      invariant res.Keys == s.Keys - keys
      invariant forall k :: k in res ==> res[k] == s[k].schema
      decreases keys
    {
      var k :| k in keys;
      res := res[k := s[k].TFSchema()];
      keys := keys - {k};
    }
  }
}

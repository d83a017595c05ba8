/**
 * internal/tfschema/resource_test.go: the sample endpoint struct with five tagged fields
 * and the Terraform schema map it is expected to convert to, with the conversion proved
 * for it through small lemmas about one field and one tag at a time.
 */
module ResourceTest {
  import opened Wrappers
  import opened Reflect
  import opened Strings
  import TS = TerraformState
  import SP = SchemaParsing
  import opened ResourceSchema

  /** The fields of the sample struct, with their kinds and struct tags. */
  const IDField := StructField("ID", Int, [TagEntry("computed", "true")])
  const NameField := StructField("Name", String, [TagEntry("required", "true"), TagEntry("forcenew", "true")])
  const TriesField := StructField("Tries", Uint8, [TagEntry("default", "3"), TagEntry("optional", "true")])
  const PasswordField := StructField("Password", String, [TagEntry("sensitive", "true")])
  const DoStuffField := StructField("DoStuff", Bool, [TagEntry("default", "true"), TagEntry("description", "Whether or not to do stuff")])

  const SimpleStruct := Endpoint([IDField, NameField, TriesField, PasswordField, DoStuffField], [])

  /** The schema expected for each field. */
  const IDSchema := TS.EmptySchema.(valueType := TS.TypeInt, computed := true)
  const NameSchema := TS.EmptySchema.(valueType := TS.TypeString, required := true, forceNew := true)
  const TriesSchema := TS.EmptySchema.(valueType := TS.TypeInt, default := Some(TS.DefaultInt(3)), optional := true)
  const PasswordSchema := TS.EmptySchema.(valueType := TS.TypeString, sensitive := true)
  const DoStuffSchema := TS.EmptySchema.(valueType := TS.TypeBool, default := Some(TS.DefaultBool(true)), description := "Whether or not to do stuff")

  /** The expected map, keyed by lower-cased field name. */
  const SimpleSchema: map<string, TS.Schema> := map[
    "id" := IDSchema, "name" := NameSchema, "tries" := TriesSchema,
    "password" := PasswordSchema, "dostuff" := DoStuffSchema]

  /** The properties of expected are those the tags set on an empty schema. */
  predicate FromTags(expected: TS.Schema, tag: StructTag)
  {
    expected.required == SP.BoolTag(tag, "required", false) &&
    expected.optional == SP.BoolTag(tag, "optional", false) &&
    expected.forceNew == SP.BoolTag(tag, "forcenew", false) &&
    expected.computed == SP.BoolTag(tag, "computed", false) &&
    expected.sensitive == SP.BoolTag(tag, "sensitive", false) &&
    expected.description == SP.StringTag(tag, "description", "") &&
    expected.deprecated == SP.StringTag(tag, "deprecated", "") &&
    expected.removed == SP.StringTag(tag, "removed", "")
  }

  /** Each property of a freshly tagged schema is read from its own tag, defaulting to false or empty. */
  lemma TaggedRequired(tag: StructTag, vt: TS.ValueType)
    ensures SP.ApplyTags(TS.EmptySchema.(valueType := vt), tag).required == SP.BoolTag(tag, "required", false)
  {
    assert SP.BoolProperty(SP.ApplyTags(TS.EmptySchema.(valueType := vt), tag), SP.Required) == SP.BoolTag(tag, "required", false);
  }

  lemma TaggedOptional(tag: StructTag, vt: TS.ValueType)
    ensures SP.ApplyTags(TS.EmptySchema.(valueType := vt), tag).optional == SP.BoolTag(tag, "optional", false)
  {
    assert SP.BoolProperty(SP.ApplyTags(TS.EmptySchema.(valueType := vt), tag), SP.Optional) == SP.BoolTag(tag, "optional", false);
  }

  lemma TaggedForceNew(tag: StructTag, vt: TS.ValueType)
    ensures SP.ApplyTags(TS.EmptySchema.(valueType := vt), tag).forceNew == SP.BoolTag(tag, "forcenew", false)
  {
    assert SP.BoolProperty(SP.ApplyTags(TS.EmptySchema.(valueType := vt), tag), SP.ForceNew) == SP.BoolTag(tag, "forcenew", false);
  }

  lemma TaggedComputed(tag: StructTag, vt: TS.ValueType)
    ensures SP.ApplyTags(TS.EmptySchema.(valueType := vt), tag).computed == SP.BoolTag(tag, "computed", false)
  {
    assert SP.BoolProperty(SP.ApplyTags(TS.EmptySchema.(valueType := vt), tag), SP.Computed) == SP.BoolTag(tag, "computed", false);
  }

  lemma TaggedSensitive(tag: StructTag, vt: TS.ValueType)
    ensures SP.ApplyTags(TS.EmptySchema.(valueType := vt), tag).sensitive == SP.BoolTag(tag, "sensitive", false)
  {
    assert SP.BoolProperty(SP.ApplyTags(TS.EmptySchema.(valueType := vt), tag), SP.Sensitive) == SP.BoolTag(tag, "sensitive", false);
  }

  lemma TaggedStrings(tag: StructTag, vt: TS.ValueType)
    ensures var t := SP.ApplyTags(TS.EmptySchema.(valueType := vt), tag);
      t.description == SP.StringTag(tag, "description", "") &&
      t.deprecated == SP.StringTag(tag, "deprecated", "") &&
      t.removed == SP.StringTag(tag, "removed", "") &&
      t.valueType == vt && t.default == None && t.stateFunc == None
  {
    var t := SP.ApplyTags(TS.EmptySchema.(valueType := vt), tag);
    assert SP.StringProperty(t, SP.Description) == SP.StringTag(tag, "description", "");
    assert SP.StringProperty(t, SP.Deprecated) == SP.StringTag(tag, "deprecated", "");
    assert SP.StringProperty(t, SP.Removed) == SP.StringTag(tag, "removed", "");
  }

  /** Two schemas that agree on every attribute are equal. */
  lemma SchemaEq(a: TS.Schema, b: TS.Schema)
    requires a.valueType == b.valueType && a.default == b.default && a.stateFunc == b.stateFunc
    requires a.required == b.required && a.optional == b.optional && a.forceNew == b.forceNew
    requires a.computed == b.computed && a.sensitive == b.sensitive
    requires a.description == b.description && a.deprecated == b.deprecated && a.removed == b.removed
    ensures a == b
  {
  }

  /** A field converts to expected when its kind, tags and default tag all say so. */
  lemma FieldSchemaIs(f: StructField, expected: TS.Schema)
    requires SP.KindType(f.kind) == Some(expected.valueType)
    requires FromTags(expected, f.tag) && expected.stateFunc == None
    requires Lookup(f.tag, "default").None? ==> expected.default == None
    requires Lookup(f.tag, "default").Some? ==>
      SP.DefaultSpec(expected.(default := None), Lookup(f.tag, "default").value) == (expected, None)
    ensures FieldSchema(f) == Success(expected)
  {
    var t := SP.ApplyTags(TS.EmptySchema.(valueType := expected.valueType), f.tag);
    TaggedRequired(f.tag, expected.valueType);
    TaggedOptional(f.tag, expected.valueType);
    TaggedForceNew(f.tag, expected.valueType);
    TaggedComputed(f.tag, expected.valueType);
    TaggedSensitive(f.tag, expected.valueType);
    TaggedStrings(f.tag, expected.valueType);
    SchemaEq(t, expected.(default := None));
  }

  /** What the struct tags of the sample fields hold for each tag name the parser reads. */
  lemma NameLookups()
    ensures Lookup(NameField.tag, "required") == Some("true")
    ensures Lookup(NameField.tag, "forcenew") == Some("true")
    ensures Lookup(NameField.tag, "optional") == None
    ensures Lookup(NameField.tag, "computed") == None
    ensures Lookup(NameField.tag, "sensitive") == None
    ensures Lookup(NameField.tag, "description") == None
    ensures Lookup(NameField.tag, "deprecated") == None
    ensures Lookup(NameField.tag, "removed") == None
    ensures Lookup(NameField.tag, "default") == None
  {
    var tag := NameField.tag;
    assert tag[1..] == [TagEntry("forcenew", "true")];
  }

  lemma TriesLookups()
    ensures Lookup(TriesField.tag, "required") == None
    ensures Lookup(TriesField.tag, "optional") == Some("true")
    ensures Lookup(TriesField.tag, "forcenew") == None
    ensures Lookup(TriesField.tag, "computed") == None
    ensures Lookup(TriesField.tag, "sensitive") == None
    ensures Lookup(TriesField.tag, "description") == None
    ensures Lookup(TriesField.tag, "deprecated") == None
    ensures Lookup(TriesField.tag, "removed") == None
    ensures Lookup(TriesField.tag, "default") == Some("3")
  {
    assert TriesField.tag[1..] == [TagEntry("optional", "true")];
  }

  lemma DoStuffLookups()
    ensures Lookup(DoStuffField.tag, "required") == None
    ensures Lookup(DoStuffField.tag, "optional") == None
    ensures Lookup(DoStuffField.tag, "forcenew") == None
    ensures Lookup(DoStuffField.tag, "computed") == None
    ensures Lookup(DoStuffField.tag, "sensitive") == None
    ensures Lookup(DoStuffField.tag, "description") == Some("Whether or not to do stuff")
    ensures Lookup(DoStuffField.tag, "deprecated") == None
    ensures Lookup(DoStuffField.tag, "removed") == None
    ensures Lookup(DoStuffField.tag, "default") == Some("true")
  {
    assert DoStuffField.tag[1..] == [TagEntry("description", "Whether or not to do stuff")];
  }

  /** The default tag "3" parses as the int 3. */
  lemma AtoiThree()
    ensures Atoi("3") == (3, None)
  {
    assert Itoa(3) == "3" by {
      assert NatToString(3) == [DigitChar(3)];
    }
    AtoiItoa(3);
  }

  /** Each sample field parses to its expected schema. */
  lemma IDFieldSchema(f: StructField)
    requires f == IDField
    ensures FieldSchema(f) == Success(IDSchema)
  {
    FieldSchemaIs(f, IDSchema);
  }

  lemma NameFieldSchema(f: StructField)
    requires f == NameField
    ensures FieldSchema(f) == Success(NameSchema)
  {
    NameLookups();
    FieldSchemaIs(f, NameSchema);
  }

  lemma TriesFieldSchema(f: StructField)
    requires f == TriesField
    ensures FieldSchema(f) == Success(TriesSchema)
  {
    TriesLookups();
    AtoiThree();
    FieldSchemaIs(f, TriesSchema);
  }

  lemma PasswordFieldSchema(f: StructField)
    requires f == PasswordField
    ensures FieldSchema(f) == Success(PasswordSchema)
  {
    FieldSchemaIs(f, PasswordSchema);
  }

  lemma DoStuffFieldSchema(f: StructField)
    requires f == DoStuffField
    ensures FieldSchema(f) == Success(DoStuffSchema)
  {
    DoStuffLookups();
    FieldSchemaIs(f, DoStuffSchema);
  }

  /** ParseFields over one more field adds that field's schema under its lower-cased name. */
  lemma ParseFieldsStep(fs: seq<StructField>, parse: FieldParser, k: nat, m: map<string, TS.Schema>, v: TS.Schema)
    requires 0 < k <= |fs| && ParseFields(fs[..k - 1], parse) == Success(m)
    requires parse(fs[k - 1]) == Success(v)
    ensures ParseFields(fs[..k], parse) == Success(m[Lower(fs[k - 1].name) := v])
  {
    assert fs[..k][..k - 1] == fs[..k - 1];
  }

  /** The map ParseFields builds from the first k fields of SimpleStruct. */
  const Fields0: map<string, TS.Schema> := map[]
  const Fields1 := Fields0["id" := IDSchema]
  const Fields2 := Fields1["name" := NameSchema]
  const Fields3 := Fields2["tries" := TriesSchema]
  const Fields4 := Fields3["password" := PasswordSchema]
  const Fields5 := Fields4["dostuff" := DoStuffSchema]

  /** Any parser that gives the five expected schemas builds the expected map. */
  lemma ParseFive(fs: seq<StructField>, parse: FieldParser)
    requires |fs| == 5
    requires parse(fs[0]) == Success(IDSchema) && Lower(fs[0].name) == "id"
    requires parse(fs[1]) == Success(NameSchema) && Lower(fs[1].name) == "name"
    requires parse(fs[2]) == Success(TriesSchema) && Lower(fs[2].name) == "tries"
    requires parse(fs[3]) == Success(PasswordSchema) && Lower(fs[3].name) == "password"
    requires parse(fs[4]) == Success(DoStuffSchema) && Lower(fs[4].name) == "dostuff"
    ensures ParseFields(fs, parse) == Success(Fields5)
  {
    assert fs[..0] == [];
    ParseFieldsStep(fs, parse, 1, Fields0, IDSchema);
    ParseFieldsStep(fs, parse, 2, Fields1, NameSchema);
    ParseFieldsStep(fs, parse, 3, Fields2, TriesSchema);
    ParseFieldsStep(fs, parse, 4, Fields3, PasswordSchema);
    ParseFieldsStep(fs, parse, 5, Fields4, DoStuffSchema);
    assert fs[..5] == fs;
  }

  /** The lower-cased names of the sample struct's fields. */
  lemma SimpleNames(fs: seq<StructField>)
    requires fs == SimpleStruct.fields
    ensures Lower(fs[0].name) == "id"
    ensures Lower(fs[1].name) == "name"
    ensures Lower(fs[2].name) == "tries"
    ensures Lower(fs[3].name) == "password"
    ensures Lower(fs[4].name) == "dostuff"
  {
  }

  /** An endpoint without metadata converts to what its fields parse to. */
  lemma NoMetadata(e: Endpoint, m: map<string, TS.Schema>)
    requires e.metadata == [] && ParseFields(e.fields, FieldSchema) == Success(m)
    ensures NewResourceSpec(e) == Success(m)
  {
    assert ParseFields(e.metadata, FieldSchema) == Success(map[]);
  }

  /** resource_test.go: the sample struct converts to the expected map. */
  lemma SimpleStructConverts(e: Endpoint)
    requires e == SimpleStruct
    ensures NewResourceSpec(e) == Success(SimpleSchema)
  {
    var fs := e.fields;
    SimpleNames(fs);
    IDFieldSchema(fs[0]);
    NameFieldSchema(fs[1]);
    TriesFieldSchema(fs[2]);
    PasswordFieldSchema(fs[3]);
    DoStuffFieldSchema(fs[4]);
    ParseFive(fs, FieldSchema);
    NoMetadata(e, Fields5);
  }
}

/**
 * internal/tfschema/schema.go: a Schema wraps the Terraform schema.Schema of one struct
 * field and fills it from the field's kind and struct tag. The boolean and string tag
 * tables point into the wrapped schema; writing through them is modelled as updating
 * the property the tag names.
 */
module SchemaParsing {
  import opened Wrappers
  import opened Strings
  import opened Reflect
  import TS = TerraformState

  /** The properties the boolean tag table points to. */
  datatype BoolProp = Required | Optional | ForceNew | Computed | Sensitive

  /** The properties the string tag table points to. */
  datatype StringProp = Description | Deprecated | Removed

  /** BoolTags: the tag that sets each boolean property, in the order the model visits them. */
  const BoolTags: seq<BoolProp> := [Required, Optional, ForceNew, Computed, Sensitive]

  /** StringTags: the tag that sets each string property, in the order the model visits them. */
  const StringTags: seq<StringProp> := [Description, Deprecated, Removed]

  function BoolTagName(p: BoolProp): string
  {
    match p
    case Required => "required"
    case Optional => "optional"
    case ForceNew => "forcenew"
    case Computed => "computed"
    case Sensitive => "sensitive"
  }

  function StringTagName(p: StringProp): string
  {
    match p
    case Description => "description"
    case Deprecated => "deprecated"
    case Removed => "removed"
  }

  const NoValueType: string := "no ValueType equivalent"

  /** SetValueType's table: the Terraform type of a Go kind, None for a kind with no equivalent. */
  function KindType(k: Kind): (r: Option<TS.ValueType>)
    ensures r == Some(TS.TypeString) <==> k == String
    ensures r == Some(TS.TypeInt) <==> k in {Int, Int8, Int16, Int32, Int64, Uint, Uint8, Uint16, Uint32, Uint64}
    ensures r == Some(TS.TypeBool) <==> k == Bool
    ensures r == Some(TS.TypeFloat) <==> k in {Float32, Float64}
    ensures r.Some? ==> r.value in {TS.TypeString, TS.TypeInt, TS.TypeBool, TS.TypeFloat}
  {
    match k
    case String => Some(TS.TypeString)
    case Int | Int8 | Int16 | Int32 | Int64 => Some(TS.TypeInt)
    case Uint | Uint8 | Uint16 | Uint32 | Uint64 => Some(TS.TypeInt)
    case Bool => Some(TS.TypeBool)
    case Float32 | Float64 => Some(TS.TypeFloat)
    case _ => None
  }

  /** The write through a boolean tag's pointer. */
  function SetBoolProperty(s: TS.Schema, p: BoolProp, b: bool): TS.Schema
  {
    match p
    case Required => s.(required := b)
    case Optional => s.(optional := b)
    case ForceNew => s.(forceNew := b)
    case Computed => s.(computed := b)
    case Sensitive => s.(sensitive := b)
  }

  /** The write through a string tag's pointer. */
  function SetStringProperty(s: TS.Schema, p: StringProp, v: string): TS.Schema
  {
    match p
    case Description => s.(description := v)
    case Deprecated => s.(deprecated := v)
    case Removed => s.(removed := v)
  }

  /** A boolean property, read back. */
  function BoolProperty(s: TS.Schema, p: BoolProp): bool
  {
    match p
    case Required => s.required
    case Optional => s.optional
    case ForceNew => s.forceNew
    case Computed => s.computed
    case Sensitive => s.sensitive
  }

  /** A string property, read back. */
  function StringProperty(s: TS.Schema, p: StringProp): string
  {
    match p
    case Description => s.description
    case Deprecated => s.deprecated
    case Removed => s.removed
  }

  /** The boolean tags of props, visited in order. */
  function ApplyBoolTags(s: TS.Schema, tag: StructTag, props: seq<BoolProp>): TS.Schema
    decreases |props|
  {
    if props == [] then s
    else
      var before := ApplyBoolTags(s, tag, props[..|props| - 1]);
      var p := props[|props| - 1];
      match Lookup(tag, BoolTagName(p))
      case None => before
      case Some(v) => SetBoolProperty(before, p, v == "true")
  }

  /** The string tags of props, visited in order. */
  function ApplyStringTags(s: TS.Schema, tag: StructTag, props: seq<StringProp>): TS.Schema
    decreases |props|
  {
    if props == [] then s
    else
      var before := ApplyStringTags(s, tag, props[..|props| - 1]);
      var p := props[|props| - 1];
      match Lookup(tag, StringTagName(p))
      case None => before
      case Some(v) => SetStringProperty(before, p, v)
  }

  /** A property set by a boolean tag: (value == "true") when the tag is present, else unchanged. */
  function BoolTag(tag: StructTag, name: string, current: bool): bool
  {
    match Lookup(tag, name)
    case None => current
    case Some(v) => v == "true"
  }

  /** A property set by a string tag: the value verbatim when the tag is present, else unchanged. */
  function StringTag(tag: StructTag, name: string, current: string): string
  {
    match Lookup(tag, name)
    case None => current
    case Some(v) => v
  }

  /** One visited boolean tag: its property becomes BoolTag of the tag, over its previous value. */
  lemma BoolTagStep(s: TS.Schema, tag: StructTag, props: seq<BoolProp>)
    requires props != []
    ensures var p := props[|props| - 1];
      var before := ApplyBoolTags(s, tag, props[..|props| - 1]);
      ApplyBoolTags(s, tag, props) == SetBoolProperty(before, p, BoolTag(tag, BoolTagName(p), BoolProperty(before, p)))
  {
    var p := props[|props| - 1];
    var before := ApplyBoolTags(s, tag, props[..|props| - 1]);
    if Lookup(tag, BoolTagName(p)).None? {
      assert SetBoolProperty(before, p, BoolProperty(before, p)) == before by {
        match p {
          case Required => case Optional => case ForceNew => case Computed => case Sensitive =>
        }
      }
    }
  }

  /** Writing one boolean property changes that property only. */
  lemma SetBoolPropertyOnly(s: TS.Schema, p: BoolProp, b: bool, q: BoolProp)
    ensures BoolProperty(SetBoolProperty(s, p, b), q) == if p == q then b else BoolProperty(s, q)
    ensures var r := SetBoolProperty(s, p, b);
      r.description == s.description && r.deprecated == s.deprecated && r.removed == s.removed &&
      r.valueType == s.valueType && r.default == s.default && r.stateFunc == s.stateFunc
  {
  }

  /** Visiting boolean tags sets each visited property from its tag, and touches nothing else. */
  lemma {:induction false} ApplyBoolTagsReads(s: TS.Schema, tag: StructTag, props: seq<BoolProp>, q: BoolProp)
    ensures BoolProperty(ApplyBoolTags(s, tag, props), q) ==
      if q in props then BoolTag(tag, BoolTagName(q), BoolProperty(s, q)) else BoolProperty(s, q)
    ensures var r := ApplyBoolTags(s, tag, props);
      r.description == s.description && r.deprecated == s.deprecated && r.removed == s.removed &&
      r.valueType == s.valueType && r.default == s.default && r.stateFunc == s.stateFunc
    decreases |props|
  {
    if props != [] {
      var front, p := props[..|props| - 1], props[|props| - 1];
      assert props == front + [p];
      assert q in props <==> q in front || q == p;
      ApplyBoolTagsReads(s, tag, front, q);
      BoolTagStep(s, tag, props);
      var before := ApplyBoolTags(s, tag, front);
      SetBoolPropertyOnly(before, p, BoolTag(tag, BoolTagName(p), BoolProperty(before, p)), q);
    }
  }

  /** One visited string tag: its property becomes StringTag of the tag, over its previous value. */
  lemma StringTagStep(s: TS.Schema, tag: StructTag, props: seq<StringProp>)
    requires props != []
    ensures var p := props[|props| - 1];
      var before := ApplyStringTags(s, tag, props[..|props| - 1]);
      ApplyStringTags(s, tag, props) == SetStringProperty(before, p, StringTag(tag, StringTagName(p), StringProperty(before, p)))
  {
    var p := props[|props| - 1];
    var before := ApplyStringTags(s, tag, props[..|props| - 1]);
    if Lookup(tag, StringTagName(p)).None? {
      assert SetStringProperty(before, p, StringProperty(before, p)) == before by {
        match p {
          case Description => case Deprecated => case Removed =>
        }
      }
    }
  }

  /** Writing one string property changes that property only. */
  lemma SetStringPropertyOnly(s: TS.Schema, p: StringProp, v: string, q: StringProp)
    ensures StringProperty(SetStringProperty(s, p, v), q) == if p == q then v else StringProperty(s, q)
    ensures var r := SetStringProperty(s, p, v);
      r.required == s.required && r.optional == s.optional && r.forceNew == s.forceNew &&
      r.computed == s.computed && r.sensitive == s.sensitive &&
      r.valueType == s.valueType && r.default == s.default && r.stateFunc == s.stateFunc
  {
  }

  /** Visiting string tags sets each visited property from its tag, and touches nothing else. */
  lemma {:induction false} ApplyStringTagsReads(s: TS.Schema, tag: StructTag, props: seq<StringProp>, q: StringProp)
    ensures StringProperty(ApplyStringTags(s, tag, props), q) ==
      if q in props then StringTag(tag, StringTagName(q), StringProperty(s, q)) else StringProperty(s, q)
    ensures var r := ApplyStringTags(s, tag, props);
      r.required == s.required && r.optional == s.optional && r.forceNew == s.forceNew &&
      r.computed == s.computed && r.sensitive == s.sensitive &&
      r.valueType == s.valueType && r.default == s.default && r.stateFunc == s.stateFunc
    decreases |props|
  {
    ApplyStringTagsKeeps(s, tag, props);
    if props != [] {
      var front, p := props[..|props| - 1], props[|props| - 1];
      assert q in props <==> q in front || q == p by {
        assert props == front + [p];
      }
      ApplyStringTagsReads(s, tag, front, q);
      StringTagStep(s, tag, props);
      var before := ApplyStringTags(s, tag, front);
      SetStringPropertyOnly(before, p, StringTag(tag, StringTagName(p), StringProperty(before, p)), q);
    }
  }

  /** Visiting string tags leaves the boolean properties, the type, the default and the statefunc alone. */
  lemma {:induction false} ApplyStringTagsKeeps(s: TS.Schema, tag: StructTag, props: seq<StringProp>)
    ensures var r := ApplyStringTags(s, tag, props);
      r.required == s.required && r.optional == s.optional && r.forceNew == s.forceNew &&
      r.computed == s.computed && r.sensitive == s.sensitive &&
      r.valueType == s.valueType && r.default == s.default && r.stateFunc == s.stateFunc
    decreases |props|
  {
    if props != [] {
      var front, p := props[..|props| - 1], props[|props| - 1];
      ApplyStringTagsKeeps(s, tag, front);
      StringTagStep(s, tag, props);
      var before := ApplyStringTags(s, tag, front);
      SetStringPropertyOnly(before, p, StringTag(tag, StringTagName(p), StringProperty(before, p)), p);
    }
  }

  /** ParseTags, as a function of the schema before it. */
  function ApplyTags(s: TS.Schema, tag: StructTag): (r: TS.Schema)
    ensures forall q :: BoolProperty(r, q) == BoolTag(tag, BoolTagName(q), BoolProperty(s, q))
    ensures forall q :: StringProperty(r, q) == StringTag(tag, StringTagName(q), StringProperty(s, q))
    ensures r.valueType == s.valueType && r.default == s.default && r.stateFunc == s.stateFunc
  {
    ApplyTagsReads(s, tag);
    ApplyStringTags(ApplyBoolTags(s, tag, BoolTags), tag, StringTags)
  }

  /** Every property has its tag in the tables, so the tag sets it. */
  lemma ApplyTagsReads(s: TS.Schema, tag: StructTag)
    ensures var r := ApplyStringTags(ApplyBoolTags(s, tag, BoolTags), tag, StringTags);
      (forall q :: BoolProperty(r, q) == BoolTag(tag, BoolTagName(q), BoolProperty(s, q))) &&
      (forall q :: StringProperty(r, q) == StringTag(tag, StringTagName(q), StringProperty(s, q))) &&
      r.valueType == s.valueType && r.default == s.default && r.stateFunc == s.stateFunc
  {
    var b := ApplyBoolTags(s, tag, BoolTags);
    var r := ApplyStringTags(b, tag, StringTags);
    forall q: BoolProp
      ensures BoolProperty(r, q) == BoolTag(tag, BoolTagName(q), BoolProperty(s, q))
    {
      assert q == BoolTags[0] || q == BoolTags[1] || q == BoolTags[2] || q == BoolTags[3] || q == BoolTags[4];
      ApplyBoolTagsReads(s, tag, BoolTags, q);
      ApplyStringTagsReads(b, tag, StringTags, Description);
      assert BoolProperty(r, q) == BoolProperty(b, q);
    }
    forall q: StringProp
      ensures StringProperty(r, q) == StringTag(tag, StringTagName(q), StringProperty(s, q))
    {
      assert q == StringTags[0] || q == StringTags[1] || q == StringTags[2];
      ApplyBoolTagsReads(s, tag, BoolTags, Required);
      ApplyStringTagsReads(b, tag, StringTags, q);
      assert StringProperty(b, q) == StringProperty(s, q);
    }
    ApplyBoolTagsReads(s, tag, BoolTags, Required);
    ApplyStringTagsReads(b, tag, StringTags, Description);
  }

  /** The error strconv.Atoi reports for text that is not a decimal int. */
  function AtoiError(val: string): string {
    "strconv.Atoi: parsing " + val + ": invalid syntax or out of range"
  }

  /** SetDefault, as a function of the schema before it: the new schema and the error, if any. */
  function DefaultSpec(s: TS.Schema, val: string): (r: (TS.Schema, Option<string>))
    ensures r.0 == s.(default := r.0.default)
    ensures s.valueType in {TS.TypeString, TS.TypeBool, TS.TypeFloat} ==> r.1.None?
    ensures s.valueType == TS.TypeString ==> r.0 == s.(default := Some(TS.DefaultString(val)))
    ensures s.valueType == TS.TypeBool ==> r.0 == s.(default := Some(TS.DefaultBool(val == "true")))
    ensures s.valueType == TS.TypeInt ==>
      r.0 == s.(default := Some(TS.DefaultInt(Atoi(val).0))) && (r.1.None? <==> Atoi(val).1.None?)
    ensures s.valueType !in {TS.TypeString, TS.TypeInt, TS.TypeBool, TS.TypeFloat} ==> r.0 == s && r.1.Some?
  {
    match s.valueType
    case TypeString => (s.(default := Some(TS.DefaultString(val))), None)
    case TypeInt =>
      var (n, e) := Atoi(val);
      (s.(default := Some(TS.DefaultInt(n))), if e.Some? then Some(AtoiError(val)) else None)
    case TypeBool => (s.(default := Some(TS.DefaultBool(val == "true"))), None)
    case TypeFloat => (s.(default := Some(TS.DefaultFloat(val))), None)
    case _ => (s, Some("default only valid for str, bool, num"))
  }

  /** An int default written in decimal is read back exactly, without an error. */
  lemma IntDefaultRoundTrip(s: TS.Schema, n: Strings.Int64)
    requires s.valueType == TS.TypeInt
    ensures DefaultSpec(s, Itoa(n)) == (s.(default := Some(TS.DefaultInt(n))), None)
  {
    AtoiItoa(n);
  }

  /** An int default that is not decimal text is an error, and the default is left at 0. */
  lemma IntDefaultRejectsText(s: TS.Schema, val: string)
    requires s.valueType == TS.TypeInt && SignedValue(val).None?
    ensures DefaultSpec(s, val).1.Some?
    ensures DefaultSpec(s, val).0.default == Some(TS.DefaultInt(0))
  {
  }

  /** Parse, as a function of the schema before it: the new schema and the error, if any. */
  function ParseSpec(s: TS.Schema, f: StructField): (r: (TS.Schema, Option<string>))
  {
    match KindType(f.kind)
    case None => (s, Some(NoValueType))
    case Some(t) =>
      var tagged := ApplyTags(s.(valueType := t), f.tag);
      match Lookup(f.tag, "default")
      case None => (tagged, None)
      case Some(v) => DefaultSpec(tagged, v)
  }

  /**
   * Parse fails exactly on a kind with no Terraform type, or on an int field whose
   * default tag is not a decimal int; an unsupported kind leaves the schema untouched,
   * so no tag is read.
   */
  lemma ParseOutcome(s: TS.Schema, f: StructField)
    ensures ParseSpec(s, f).1.Some? <==>
      KindType(f.kind).None? ||
      (KindType(f.kind) == Some(TS.TypeInt) && Lookup(f.tag, "default").Some? &&
       Atoi(Lookup(f.tag, "default").value).1.Some?)
    ensures KindType(f.kind).None? ==> ParseSpec(s, f).0 == s
    ensures KindType(f.kind).Some? ==> ParseSpec(s, f).0.valueType == KindType(f.kind).value
  {
  }

  /** The default is set only when the field has a default tag. */
  lemma DefaultOnlyFromTag(s: TS.Schema, f: StructField)
    requires Lookup(f.tag, "default").None?
    ensures ParseSpec(s, f).0.default == s.default
  {
  }

  /** After a successful kind, every property a tag sets is read from the tag as ParseTags reads it. */
  lemma ParseReadsTags(s: TS.Schema, f: StructField)
    requires KindType(f.kind).Some?
    ensures forall q :: BoolProperty(ParseSpec(s, f).0, q) == BoolTag(f.tag, BoolTagName(q), BoolProperty(s, q))
    ensures forall q :: StringProperty(ParseSpec(s, f).0, q) == StringTag(f.tag, StringTagName(q), StringProperty(s, q))
  {
    var tagged := ApplyTags(s.(valueType := KindType(f.kind).value), f.tag);
    var r := ParseSpec(s, f).0;
    assert r == tagged.(default := r.default);
    PropertiesIgnoreDefault(tagged, r.default);
  }

  /** The default is not one of the properties the tags set. */
  lemma PropertiesIgnoreDefault(s: TS.Schema, d: Option<TS.Default>)
    ensures forall q :: BoolProperty(s.(default := d), q) == BoolProperty(s, q)
    ensures forall q :: StringProperty(s.(default := d), q) == StringProperty(s, q)
  {
  }

  class Schema {
    /** The wrapped Terraform schema, which the tag tables point into. */
    var schema: TS.Schema

    /** NewSchema: an empty Terraform schema. */
    constructor (f: StructField)
      ensures schema == TS.EmptySchema && TFSchema() == TS.EmptySchema
    {
      schema := TS.EmptySchema;
    }

    /** TFSchema: the underlying Terraform schema. */
    function TFSchema(): TS.Schema
      reads this
    {
      schema
    }

    /** SetValueType: sets the type from the kind, or fails leaving the schema as it was. */
    method SetValueType(t: Kind) returns (err: Option<string>)
      modifies this
      ensures err.None? <==> KindType(t).Some?
      ensures KindType(t).Some? ==> schema == old(schema).(valueType := KindType(t).value)
      ensures KindType(t).None? ==> schema == old(schema) && err == Some(NoValueType)
    {
      var vt := KindType(t);
      if vt.None? {
        return Some(NoValueType);
      }
      schema := schema.(valueType := vt.value);
      err := None;
    }

    /** SetDefault: sets the default from its text according to the schema's type. */
    method SetDefault(val: string) returns (err: Option<string>)
      modifies this
      ensures (schema, err) == DefaultSpec(old(schema), val)
    {
      ghost var spec := DefaultSpec(schema, val);
      match schema.valueType {
        case TypeString =>
          schema := schema.(default := Some(TS.DefaultString(val)));
          err := None;
        case TypeInt =>
          var (n, e) := Atoi(val);
          schema := schema.(default := Some(TS.DefaultInt(n)));
          err := if e.Some? then Some(AtoiError(val)) else None;
        case TypeBool =>
          schema := schema.(default := Some(TS.DefaultBool(val == "true")));
          err := None;
        case TypeFloat =>
          schema := schema.(default := Some(TS.DefaultFloat(val)));
          err := None;
        case _ =>
          err := Some("default only valid for str, bool, num");
      }
      assert (schema, err) == spec;
    }

    /** ParseTags: writes every boolean and string tag present into its property; never fails. */
    method ParseTags(tag: StructTag) returns (err: Option<string>)
      modifies this
      ensures schema == ApplyTags(old(schema), tag)
      ensures err.None?
    {
      var start := schema;
      for k := 0 to |BoolTags|
        invariant schema == ApplyBoolTags(start, tag, BoolTags[..k])
      {
        assert BoolTags[..k + 1][..k] == BoolTags[..k];
        var val := Lookup(tag, BoolTagName(BoolTags[k]));
        if val.Some? {
          schema := SetBoolProperty(schema, BoolTags[k], val.value == "true");
        }
      }
      assert BoolTags[..|BoolTags|] == BoolTags;
      var tagged := schema;
      for k := 0 to |StringTags|
        invariant schema == ApplyStringTags(tagged, tag, StringTags[..k])
      {
        assert StringTags[..k + 1][..k] == StringTags[..k];
        var val := Lookup(tag, StringTagName(StringTags[k]));
        if val.Some? {
          schema := SetStringProperty(schema, StringTags[k], val.value);
        }
      }
      assert StringTags[..|StringTags|] == StringTags;
      err := None;
    }

    /** Parse: the type, then the tags, then the default when a default tag exists. */
    method Parse(f: StructField) returns (err: Option<string>)
      modifies this
      ensures (schema, err) == ParseSpec(old(schema), f)
    {
      err := SetValueType(f.kind);
      if err.Some? {
        return;
      }
      err := ParseTags(f.tag);
      var val := Lookup(f.tag, "default");
      if val.Some? {
        err := SetDefault(val.value);
      }
    }
  }
}

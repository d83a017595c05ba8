/**
 * internal/provider/toschema.go: the provider's own conversion of a struct's fields into
 * a Terraform schema map. Unlike internal/tfschema, it keys the map by the exact Go field
 * name, reads only the required, optional, forcenew, computed and statefunc tags, and
 * leaves the type unset for a kind it does not know instead of failing.
 *
 * The struct value's methods, which reflect's MethodByName searches, are a parameter:
 * each method name found maps to whether the method's type is func(interface{}) string,
 * the signature of schema.SchemaStateFunc.
 */
module ProviderSchema {
  import opened Wrappers
  import opened Reflect
  import TS = TerraformState
  import SP = SchemaParsing

  /** The method set of the struct value: name to "has the signature of a StateFunc". */
  type Methods = map<string, bool>

  /** toSchema's error for a missing method, or a Go panic from a failed type assertion. */
  datatype FieldError = MissingMethod(message: string) | Panic(reason: string)

  const StateFuncPanic := "interface conversion: interface {} is not schema.SchemaStateFunc"

  /** The type switch on the field's kind; a kind it does not list leaves the zero ValueType. */
  function FieldType(k: Kind): (t: TS.ValueType)
    ensures t == TS.TypeString <==> k == String
    ensures t == TS.TypeInt <==> k in {Int, Int8, Int16, Int32, Int64, Uint, Uint8, Uint16, Uint32, Uint64}
    ensures t == TS.TypeBool <==> k == Bool
    ensures t == TS.TypeFloat <==> k in {Float32, Float64}
    ensures t in {TS.TypeInvalid, TS.TypeString, TS.TypeInt, TS.TypeBool, TS.TypeFloat}
  {
    match k
    case String => TS.TypeString
    case Int => TS.TypeInt
    case Int8 => TS.TypeInt
    case Int16 => TS.TypeInt
    case Int32 => TS.TypeInt
    case Int64 => TS.TypeInt
    case Uint => TS.TypeInt
    case Uint8 => TS.TypeInt
    case Uint16 => TS.TypeInt
    case Uint32 => TS.TypeInt
    case Uint64 => TS.TypeInt
    case Bool => TS.TypeBool
    case Float32 => TS.TypeFloat
    case Float64 => TS.TypeFloat
    case _ => TS.TypeInvalid
  }

  /**
   * Both conversions map kinds to the same types; where tfschema has no type and fails,
   * this one leaves the type invalid and goes on.
   */
  lemma KindTypesAgree(k: Kind)
    ensures SP.KindType(k).Some? ==> FieldType(k) == SP.KindType(k).value
    ensures SP.KindType(k).None? <==> FieldType(k) == TS.TypeInvalid
  {
  }

  /** The schema after the type switch and the four boolean tags, before the statefunc tag. */
  function Tagged(f: StructField): (s: TS.Schema)
    ensures s.valueType == FieldType(f.kind)
    ensures s.required <==> Lookup(f.tag, "required") == Some("true")
    ensures s.optional <==> Lookup(f.tag, "optional") == Some("true")
    ensures s.forceNew <==> Lookup(f.tag, "forcenew") == Some("true")
    ensures s.computed <==> Lookup(f.tag, "computed") == Some("true")
    ensures !s.sensitive && s.description == "" && s.deprecated == "" && s.removed == ""
    ensures s.default == None && s.stateFunc == None
  {
    TS.EmptySchema.(
      valueType := FieldType(f.kind),
      required := SP.BoolTag(f.tag, "required", false),
      optional := SP.BoolTag(f.tag, "optional", false),
      forceNew := SP.BoolTag(f.tag, "forcenew", false),
      computed := SP.BoolTag(f.tag, "computed", false))
  }

  /** The name of the method a statefunc tag asks for. */
  function StateFuncName(f: StructField): string {
    f.name + "StateFunc"
  }

  /**
   * The statefunc tag as written: a method that is found is asserted to the defined type
   * schema.SchemaStateFunc, but a method value's dynamic type is the unnamed func type,
   * so the assertion panics whenever the method exists.
   */
  function BindStateFuncAsWritten(f: StructField, methods: Methods): Result<Option<string>, FieldError>
  {
    if Lookup(f.tag, "statefunc").None? then Success(None)
    else if StateFuncName(f) !in methods then Failure(MissingMethod("Cannot find method " + StateFuncName(f)))
    else Failure(Panic(StateFuncPanic))
  }

  /** As written, no field with a statefunc tag converts: the method is either missing or panics. */
  lemma AsWrittenNeverBinds(f: StructField, methods: Methods)
    requires Lookup(f.tag, "statefunc").Some?
    ensures BindStateFuncAsWritten(f, methods).Failure?
    ensures StateFuncName(f) in methods ==> BindStateFuncAsWritten(f, methods) == Failure(Panic(StateFuncPanic))
  {
  }

  /**
   * The statefunc tag as intended: a method of the StateFunc signature is bound by name;
   * a missing method is an error, and a method of another signature fails the assertion.
   */
  function BindStateFunc(f: StructField, methods: Methods): (r: Result<Option<string>, FieldError>)
    ensures Lookup(f.tag, "statefunc").None? ==> r == Success(None)
    ensures Lookup(f.tag, "statefunc").Some? && StateFuncName(f) !in methods ==>
      r == Failure(MissingMethod("Cannot find method " + StateFuncName(f)))
    ensures Lookup(f.tag, "statefunc").Some? && StateFuncName(f) in methods ==>
      (r.Success? <==> methods[StateFuncName(f)]) &&
      (r.Success? ==> r.value == Some(StateFuncName(f)))
  {
    if Lookup(f.tag, "statefunc").None? then Success(None)
    else if StateFuncName(f) !in methods then Failure(MissingMethod("Cannot find method " + StateFuncName(f)))
    else if methods[StateFuncName(f)] then Success(Some(StateFuncName(f)))
    else Failure(Panic(StateFuncPanic))
  }

  /** The intended binding only differs from the code as written where a method of the right signature exists. */
  lemma BindingDiffersOnlyOnFoundMethod(f: StructField, methods: Methods)
    ensures BindStateFunc(f, methods) != BindStateFuncAsWritten(f, methods) <==>
      Lookup(f.tag, "statefunc").Some? && StateFuncName(f) in methods && methods[StateFuncName(f)]
  {
  }

  /** toSchema, as a function of the field: the schema (returned even on error) and the error. */
  function ToSchemaSpec(f: StructField, methods: Methods): (TS.Schema, Option<FieldError>)
  {
    match BindStateFunc(f, methods)
    case Success(sf) => (Tagged(f).(stateFunc := sf), None)
    case Failure(e) => (Tagged(f), Some(e))
  }

  /**
   * A field fails exactly when it has a statefunc tag and no method of the StateFunc
   * signature named after it; the schema holds the type and the four flags either way,
   * and the bound method only on success.
   */
  lemma ToSchemaOutcome(f: StructField, methods: Methods)
    ensures ToSchemaSpec(f, methods).1.Some? <==>
      Lookup(f.tag, "statefunc").Some? && (StateFuncName(f) !in methods || !methods[StateFuncName(f)])
    ensures ToSchemaSpec(f, methods).0.(stateFunc := None) == Tagged(f)
    ensures ToSchemaSpec(f, methods).0.stateFunc.Some? <==>
      Lookup(f.tag, "statefunc").Some? && StateFuncName(f) in methods && methods[StateFuncName(f)]
  {
  }

  /** The tag names toSchema reads. */
  const ReadTags: set<string> := {"required", "optional", "forcenew", "computed", "statefunc"}

  /**
   * Two fields of the same name and kind whose tags agree on the five tags read convert
   * alike: tags such as default, description or sensitive are ignored.
   */
  lemma OnlyReadTagsMatter(f: StructField, g: StructField, methods: Methods)
    requires f.name == g.name && f.kind == g.kind
    requires forall key :: key in ReadTags ==> Lookup(f.tag, key) == Lookup(g.tag, key)
    ensures ToSchemaSpec(f, methods) == ToSchemaSpec(g, methods)
  {
    assert "required" in ReadTags && "optional" in ReadTags && "forcenew" in ReadTags;
    assert "computed" in ReadTags && "statefunc" in ReadTags;
  }

  /** The switch on the field's kind. */
  method TypeSwitch(k: Kind) returns (t: TS.ValueType)
    ensures t == FieldType(k)
  {
    t := TS.TypeInvalid;
    match k {
      case String => t := TS.TypeString;
      case Int => t := TS.TypeInt;
      case Int8 => t := TS.TypeInt;
      case Int16 => t := TS.TypeInt;
      case Int32 => t := TS.TypeInt;
      case Int64 => t := TS.TypeInt;
      case Uint => t := TS.TypeInt;
      case Uint8 => t := TS.TypeInt;
      case Uint16 => t := TS.TypeInt;
      case Uint32 => t := TS.TypeInt;
      case Uint64 => t := TS.TypeInt;
      case Bool => t := TS.TypeBool;
      case Float32 => t := TS.TypeFloat;
      case Float64 => t := TS.TypeFloat;
      case _ =>
    }
  }

  /** toSchema up to the statefunc tag: the type switch, then the four boolean tags. */
  method ReadFlags(f: StructField) returns (s: TS.Schema)
    ensures s == Tagged(f)
  {
    var t := TypeSwitch(f.kind);
    s := TS.EmptySchema.(valueType := t);
    var val := Lookup(f.tag, "required");
    if val.Some? {
      s := s.(required := val.value == "true");
    }
    val := Lookup(f.tag, "optional");
    if val.Some? {
      s := s.(optional := val.value == "true");
    }
    assert s.required == SP.BoolTag(f.tag, "required", false);
    val := Lookup(f.tag, "forcenew");
    if val.Some? {
      s := s.(forceNew := val.value == "true");
    }
    val := Lookup(f.tag, "computed");
    if val.Some? {
      s := s.(computed := val.value == "true");
    }
  }

  /** toSchema: the type switch, the four boolean tags, then the statefunc tag. */
  method ToSchema(f: StructField, methods: Methods) returns (s: TS.Schema, err: Option<FieldError>)
    ensures (s, err) == ToSchemaSpec(f, methods)
  {
    s := ReadFlags(f);
    err := None;
    if Lookup(f.tag, "statefunc").Some? {
      var name := f.name + "StateFunc";
      if name !in methods {
        return s, Some(MissingMethod("Cannot find method " + name));
      }
      if !methods[name] {
        return s, Some(Panic(StateFuncPanic));
      }
      s := s.(stateFunc := Some(name));
    }
  }

  /** How one field becomes a schema and an error; ToSchemaMap uses Converter. */
  type FieldConverter = StructField -> (TS.Schema, Option<FieldError>)

  function Converter(methods: Methods): FieldConverter {
    f => ToSchemaSpec(f, methods)
  }

  /** The field loop of ToSchemaMap: each schema under the exact field name; the first error stops it. */
  function SchemaMap(fs: seq<StructField>, conv: FieldConverter): Result<map<string, TS.Schema>, FieldError>
    decreases |fs|
  {
    if fs == [] then Success(map[])
    else
      var f := fs[|fs| - 1];
      match SchemaMap(fs[..|fs| - 1], conv)
      case Failure(e) => Failure(e)
      case Success(m) =>
        match conv(f)
        case (_, Some(e)) => Failure(e)
        case (s, None) => Success(m[f.name := s])
  }

  /** The map is built exactly when every field converts, with one entry per field name, not lower-cased. */
  lemma {:induction false} SchemaMapOutcome(fs: seq<StructField>, conv: FieldConverter)
    ensures SchemaMap(fs, conv).Success? <==> forall i :: 0 <= i < |fs| ==> conv(fs[i]).1.None?
    ensures SchemaMap(fs, conv).Success? ==> SchemaMap(fs, conv).value.Keys == set i | 0 <= i < |fs| :: fs[i].name
    decreases |fs|
  {
    if fs != [] {
      var front, f := fs[..|fs| - 1], fs[|fs| - 1];
      SchemaMapOutcome(front, conv);
      assert forall i :: 0 <= i < |front| ==> front[i] == fs[i];
      if SchemaMap(fs, conv).Success? {
        assert (set i | 0 <= i < |fs| :: fs[i].name) == (set i | 0 <= i < |front| :: front[i].name) + {f.name};
      }
    }
  }

  /** The entry of a field is the schema converted from it (Go field names are distinct). */
  lemma {:induction false} SchemaMapEntry(fs: seq<StructField>, conv: FieldConverter, i: nat)
    requires SchemaMap(fs, conv).Success? && i < |fs|
    requires forall j :: i < j < |fs| ==> fs[j].name != fs[i].name
    ensures fs[i].name in SchemaMap(fs, conv).value
    ensures SchemaMap(fs, conv).value[fs[i].name] == conv(fs[i]).0
    decreases |fs|
  {
    var front := fs[..|fs| - 1];
    assert forall k :: 0 <= k < |front| ==> front[k] == fs[k];
    if i < |fs| - 1 {
      SchemaMapEntry(front, conv, i);
    }
  }

  /** The error returned is that of the first field that fails. */
  lemma {:induction false} SchemaMapFirstError(fs: seq<StructField>, conv: FieldConverter) returns (i: nat)
    requires SchemaMap(fs, conv).Failure?
    ensures i < |fs| && conv(fs[i]).1 == Some(SchemaMap(fs, conv).error)
    ensures forall j :: 0 <= j < i ==> conv(fs[j]).1.None?
    decreases |fs|
  {
    var front := fs[..|fs| - 1];
    assert forall k :: 0 <= k < |front| ==> front[k] == fs[k];
    if SchemaMap(front, conv).Failure? {
      i := SchemaMapFirstError(front, conv);
    } else {
      SchemaMapOutcome(front, conv);
      i := |fs| - 1;
    }
  }

  /** A failure in a prefix of the fields is the failure of all of them. */
  lemma {:induction false} SchemaMapFailureSticks(fs: seq<StructField>, conv: FieldConverter, n: nat)
    requires n <= |fs| && SchemaMap(fs[..n], conv).Failure?
    ensures SchemaMap(fs, conv) == SchemaMap(fs[..n], conv)
    decreases |fs| - n
  {
    if n < |fs| {
      assert fs[..n + 1][..n] == fs[..n];
      SchemaMapFailureSticks(fs, conv, n + 1);
    } else {
      assert fs[..n] == fs;
    }
  }

  /** ToSchemaMap: the fields of the struct in order; the first error gives a nil map. */
  method ToSchemaMap(fs: seq<StructField>, methods: Methods) returns (sch: Option<map<string, TS.Schema>>, err: Option<FieldError>)
    ensures err.None? <==> SchemaMap(fs, Converter(methods)).Success?
    ensures err.Some? ==> sch.None? && err.value == SchemaMap(fs, Converter(methods)).error
    ensures err.None? ==> sch == Some(SchemaMap(fs, Converter(methods)).value)
  {
    var m: map<string, TS.Schema> := map[];
    for i := 0 to |fs|
      invariant SchemaMap(fs[..i], Converter(methods)) == Success(m)
    {
      assert fs[..i + 1][..i] == fs[..i];
      var res, e := ToSchema(fs[i], methods);
      if e.Some? {
        SchemaMapFailureSticks(fs, Converter(methods), i + 1);
        return None, e;
      }
      m := m[fs[i].name := res];
    }
    assert fs[..|fs|] == fs;
    return Some(m), None;
  }
}

/**
 * The part of the Terraform plugin SDK's ResourceData that the provider's helpers read:
 * the resource ID, and the value held for each attribute of the resource's schema.
 *
 * An attribute the schema declares always holds a value (its zero value when unset); a
 * name the schema does not declare reads as Go's nil. A Go type assertion on the value
 * read (`d.Get(k).(string)`) panics on nil or on a value of another type: that panic is
 * the Failure of the accessors below.
 */
module TerraformState {
  import opened Wrappers
  import Strings

  /**
   * The values an attribute can hold; a Map is also how the SDK hands over one element
   * of a nested block. Floating-point values are not part of this model.
   */
  datatype Value =
    | Str(s: string)
    | Int(i: Strings.Int64)
    | Bool(b: bool)
    | List(items: seq<Value>)
    | Set(elems: seq<Value>)
    | Map(attrs: map<string, Value>)

  /** schema.ValueType: the type an attribute is declared with. */
  datatype ValueType = TypeInvalid | TypeBool | TypeInt | TypeFloat | TypeString | TypeList | TypeMap | TypeSet

  /** A schema.Schema's Default: a string, an int, a bool, or the text of a float. */
  datatype Default = DefaultString(s: string) | DefaultInt(i: Strings.Int64) | DefaultBool(b: bool) | DefaultFloat(text: string)

  /**
   * The attributes of a schema.Schema that the provider sets; stateFunc names the method
   * bound as its StateFunc.
   */
  datatype Schema = Schema(
    valueType: ValueType,
    required: bool, optional: bool, forceNew: bool, computed: bool, sensitive: bool,
    description: string, deprecated: string, removed: string,
    default: Option<Default>, stateFunc: Option<string>)

  /** schema.Schema{}: Go's zero value. */
  const EmptySchema: Schema := Schema(TypeInvalid, false, false, false, false, false, "", "", "", None, None)

  /** A Go run-time panic, such as a failed type assertion or a slice index out of range. */
  datatype Panic = Panic(reason: string)

  datatype ResourceData = ResourceData(id: string, values: map<string, Value>)

  predicate HasType(v: Value, t: ValueType)
  {
    match t
    case TypeInvalid => false
    case TypeFloat => false
    case TypeString => v.Str?
    case TypeInt => v.Int?
    case TypeBool => v.Bool?
    case TypeList => v.List?
    case TypeSet => v.Set?
    case TypeMap => v.Map?
  }

  /** The state holds a value of the declared type for every attribute of the schema, and nothing else. */
  predicate Conforms(d: ResourceData, schema: map<string, ValueType>)
  {
    d.values.Keys == schema.Keys &&
    forall k :: k in schema ==> HasType(d.values[k], schema[k])
  }

  /** Go's zero value of each kind: "", 0, false, an empty collection. */
  predicate IsZero(v: Value)
  {
    match v
    case Str(s) => s == ""
    case Int(i) => i == 0
    case Bool(b) => !b
    case List(xs) => xs == []
    case Set(xs) => xs == []
    case Map(m) => m == map[]
  }

  /** d.Get: the value held for a name, None (nil) for a name outside the schema. */
  function Get(d: ResourceData, key: string): (r: Option<Value>)
    ensures r.Some? <==> key in d.values
    ensures r.Some? ==> r.value == d.values[key]
  {
    if key in d.values then Some(d.values[key]) else None
  }

  /** d.GetOk: the value, reported only when it is not the zero value of its type. */
  function GetOk(d: ResourceData, key: string): (r: Option<Value>)
    ensures r.Some? <==> key in d.values && !IsZero(d.values[key])
    ensures r.Some? ==> r.value == d.values[key]
  {
    if key in d.values && !IsZero(d.values[key]) then Some(d.values[key]) else None
  }

  /** `.(string)` on a value read from the state. */
  function AsString(v: Option<Value>): (r: Result<string, Panic>)
    ensures r.Success? <==> v.Some? && v.value.Str?
    ensures r.Success? ==> r.value == v.value.s
  {
    if v.Some? && v.value.Str? then Success(v.value.s) else Failure(NotAString)
  }

  /** `.(int)` on a value read from the state. */
  function AsInt(v: Option<Value>): (r: Result<Strings.Int64, Panic>)
    ensures r.Success? <==> v.Some? && v.value.Int?
    ensures r.Success? ==> r.value == v.value.i
  {
    if v.Some? && v.value.Int? then Success(v.value.i) else Failure(Panic("interface conversion: value is not an int"))
  }

  /** `.(bool)` on a value read from the state. */
  function AsBool(v: Option<Value>): (r: Result<bool, Panic>)
    ensures r.Success? <==> v.Some? && v.value.Bool?
    ensures r.Success? ==> r.value == v.value.b
  {
    if v.Some? && v.value.Bool? then Success(v.value.b) else Failure(Panic("interface conversion: value is not a bool"))
  }

  /** `.(*schema.Set).List()`: the set's elements, in the order the SDK lists them. */
  function AsSetList(v: Option<Value>): (r: Result<seq<Value>, Panic>)
    ensures r.Success? <==> v.Some? && v.value.Set?
    ensures r.Success? ==> r.value == v.value.elems
  {
    if v.Some? && v.value.Set? then Success(v.value.elems) else Failure(Panic("interface conversion: value is not a *schema.Set"))
  }

  /** `.([]interface{})` on a value read from the state. */
  function AsList(v: Option<Value>): (r: Result<seq<Value>, Panic>)
    ensures r.Success? <==> v.Some? && v.value.List?
    ensures r.Success? ==> r.value == v.value.items
  {
    if v.Some? && v.value.List? then Success(v.value.items) else Failure(Panic("interface conversion: value is not a []interface{}"))
  }

  const NotAString := Panic("interface conversion: value is not a string")

  /** `.(string)` on each element of a []interface{}, in order. */
  function AsStrings(items: seq<Value>): (r: Result<seq<string>, Panic>)
    ensures r.Success? <==> forall k :: 0 <= k < |items| ==> items[k].Str?
    ensures r.Success? ==> |r.value| == |items| && forall k :: 0 <= k < |items| ==> r.value[k] == items[k].s
    ensures r.Failure? ==> r.error == NotAString
  {
    if items == [] then Success([])
    else
      var head :- AsString(Some(items[0]));
      var rest :- AsStrings(items[1..]);
      assert forall k :: 1 <= k < |items| ==> items[k] == items[1..][k - 1];
      Success([head] + rest)
  }

  /** A state that conforms to a schema answers every declared attribute with a value of its type. */
  lemma ConformingGet(d: ResourceData, schema: map<string, ValueType>, key: string)
    requires Conforms(d, schema) && key in schema
    ensures schema[key] == TypeString ==> AsString(Get(d, key)).Success?
    ensures schema[key] == TypeInt ==> AsInt(Get(d, key)).Success?
    ensures schema[key] == TypeBool ==> AsBool(Get(d, key)).Success?
    ensures schema[key] == TypeSet ==> AsSetList(Get(d, key)).Success?
    ensures schema[key] == TypeList ==> AsList(Get(d, key)).Success?
  {
  }

  /** A name outside a conforming state's schema reads as nil, and every type assertion on it panics. */
  lemma UndeclaredPanics(d: ResourceData, schema: map<string, ValueType>, key: string)
    requires Conforms(d, schema) && key !in schema
    ensures Get(d, key) == None
    ensures AsString(Get(d, key)).Failure? && AsInt(Get(d, key)).Failure? && AsBool(Get(d, key)).Failure?
  {
  }
}

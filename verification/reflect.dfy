/**
 * The part of Go's reflect package that the provider inspects: the kind of a
 * field's type and the key:"value" pairs of its struct tag.
 */
module Reflect {
  import opened Wrappers

  /** reflect.Kind. */
  datatype Kind =
    | Invalid | Bool
    | Int | Int8 | Int16 | Int32 | Int64
    | Uint | Uint8 | Uint16 | Uint32 | Uint64 | Uintptr
    | Float32 | Float64 | Complex64 | Complex128
    | Array | Chan | Func | Interface | Map | Ptr | Slice | String | Struct | UnsafePointer

  /** One key:"value" pair of a struct tag. */
  datatype TagEntry = TagEntry(key: string, value: string)

  /** A struct tag, as the sequence of its key:"value" pairs in the order they are written. */
  type StructTag = seq<TagEntry>

  /** The position of the first pair with the given key. */
  function FirstWithKey(tag: StructTag, key: string): (r: Option<nat>)
    ensures r.Some? ==> r.value < |tag| && tag[r.value].key == key
    ensures r.Some? ==> forall j :: 0 <= j < r.value ==> tag[j].key != key
    ensures r.None? ==> forall j :: 0 <= j < |tag| ==> tag[j].key != key
  {
    if tag == [] then None
    else if tag[0].key == key then Some(0)
    else match FirstWithKey(tag[1..], key)
      case None => None
      case Some(i) => Some(i + 1)
  }

  /** reflect.StructTag.Lookup: the value of the first pair with the given key. */
  function Lookup(tag: StructTag, key: string): Option<string> {
    match FirstWithKey(tag, key)
    case None => None
    case Some(i) => Some(tag[i].value)
  }

  /** reflect.StructField: the name, the kind of the type and the tag of a struct field. */
  datatype StructField = StructField(name: string, kind: Kind, tag: StructTag)
}

/**
 * pkg/maas/maas.go: ToQSP, which encodes a flat record as query-string
 * parameters (url.Values).
 */
module QueryString {
  import opened Wrappers
  import Strings
  import opened UrlValues
  import Reflect

  /**
   * The value of one field as fmt.Sprint renders it: a single text for a scalar,
   * one text per element for an array or a slice.
   */
  datatype FieldValue = Scalar(text: string) | Elements(items: seq<string>)

  /** One field of the record: its Go name, its struct tag and its value. */
  datatype Field = Field(name: string, tag: Reflect.StructTag, value: FieldValue)

  /**
   * The argument of ToQSP: a struct value, a pointer to one, or a nil pointer to a struct
   * type, whose fields give only their names and tags (their values are never read).
   */
  datatype Input = StructValue(fields: seq<Field>) | PointerTo(fields: seq<Field>) | NilPointer(fields: seq<Field>)

  /** The panic of reading a field through a nil pointer. */
  const NilDereference := "reflect: call of reflect.Value.Field on zero Value"

  /** Some field of the record is encoded, so ToQSP reads its value. */
  predicate ReadsAField(fs: seq<Field>) {
    exists i :: 0 <= i < |fs| && Key(fs[i]).Some?
  }

  /** The texts a field value contributes, in order. */
  function Texts(v: FieldValue): seq<string> {
    match v
    case Scalar(t) => [t]
    case Elements(items) => items
  }

  /**
   * The query-string key of a field: none when its json tag is exactly "-",
   * otherwise the whole json tag (or, without one, the field name), lower-cased.
   */
  function Key(f: Field): Option<string> {
    match Reflect.Lookup(f.tag, "json")
    case Some(t) => if t == "-" then None else Some(Strings.Lower(t))
    case None => Some(Strings.Lower(f.name))
  }

  /** A field reduced to what the encoding uses: its key (none when excluded) and its value. */
  datatype Entry = Entry(key: Option<string>, value: FieldValue)

  function Entries(fs: seq<Field>): (es: seq<Entry>)
    ensures |es| == |fs|
    ensures forall i :: 0 <= i < |fs| ==> es[i] == Entry(Key(fs[i]), fs[i].value)
  {
    if fs == [] then [] else Entries(fs[..|fs| - 1]) + [Entry(Key(fs[|fs| - 1]), fs[|fs| - 1].value)]
  }

  /** What one field does to the parameters built so far: Set for a scalar, one Add per element. */
  function Step(q: Values, e: Entry): Values {
    match e.key
    case None => q
    case Some(k) =>
      match e.value
      case Scalar(t) => Set(q, k, t)
      case Elements(items) => AddAll(q, k, items)
  }

  /** The parameters produced by the entries, taken in order. */
  function EncodeEntries(es: seq<Entry>): Values {
    if es == [] then map[] else Step(EncodeEntries(es[..|es| - 1]), es[|es| - 1])
  }

  /** The parameters produced by the fields of a record, in declaration order. */
  function Encode(fs: seq<Field>): Values {
    EncodeEntries(Entries(fs))
  }

  lemma EncodeEntriesStep(es: seq<Entry>, i: nat)
    requires i < |es|
    ensures EncodeEntries(es[..i + 1]) == Step(EncodeEntries(es[..i]), es[i])
  {
    assert es[..i + 1][..i] == es[..i];
  }

  /** One Add per element, in order. */
  method AddEach(q: Values, key: string, items: seq<string>) returns (r: Values)
    ensures r == AddAll(q, key, items)
  {
    r := q;
    for j := 0 to |items|
      invariant r == AddAll(q, key, items[..j])
    {
      assert items[..j + 1][..j] == items[..j];
      r := Add(r, key, items[j]);
    }
    assert items[..|items|] == items;
  }

  /**
   * The body of ToQSP's loop for one field: the key is worked out first, so an excluded
   * field is skipped without its value being read; reading a value through a nil
   * pointer panics.
   */
  method EncodeField(q: Values, f: Field, isNil: bool) returns (r: Result<Values, string>)
    ensures Key(f).None? ==> r == Success(q)
    ensures Key(f).Some? && isNil ==> r == Failure(NilDereference)
    ensures Key(f).Some? && !isNil ==> r == Success(Step(q, Entry(Key(f), f.value)))
  {
    var key := f.name;
    var tag := Reflect.Lookup(f.tag, "json");
    if tag.Some? {
      if tag.value == "-" {
        return Success(q);
      }
      key := tag.value;
    }
    key := Strings.Lower(key);
    if isNil {
      return Failure(NilDereference);
    }
    match f.value {
      case Elements(items) =>
        var added := AddEach(q, key, items);
        r := Success(added);
      case Scalar(text) =>
        r := Success(Set(q, key, text));
    }
  }

  /**
   * ToQSP: a pointer is dereferenced first, so it encodes like the struct it points to;
   * a nil pointer panics at the first field that is encoded, and gives no parameters
   * when every field is excluded.
   */
  method ToQSP(t: Input) returns (r: Result<Values, string>)
    ensures t.NilPointer? && ReadsAField(t.fields) ==> r == Failure(NilDereference)
    ensures !(t.NilPointer? && ReadsAField(t.fields)) ==> r == Success(Encode(t.fields))
  {
    var fs := t.fields;
    ghost var es := Entries(fs);
    var qsp: Values := map[];
    for i := 0 to |fs|
      invariant qsp == EncodeEntries(es[..i])
      invariant t.NilPointer? ==> forall j :: 0 <= j < i ==> Key(fs[j]).None?
    {
      EncodeEntriesStep(es, i);
      var next := EncodeField(qsp, fs[i], t.NilPointer?);
      if next.Failure? {
        return next;
      }
      qsp := next.value;
    }
    assert es[..|fs|] == es;
    r := Success(qsp);
  }

  /** A record whose every field is excluded encodes to no parameters. */
  lemma {:induction false} NothingEncoded(fs: seq<Field>)
    requires !ReadsAField(fs)
    ensures Encode(fs) == map[]
  {
    if fs != [] {
      var init := fs[..|fs| - 1];
      assert Entries(fs)[..|fs| - 1] == Entries(init);
      assert !ReadsAField(init) by {
        forall i | 0 <= i < |init|
          ensures Key(init[i]).None?
        {
          assert init[i] == fs[i];
        }
      }
      NothingEncoded(init);
      assert Key(fs[|fs| - 1]).None?;
    }
  }

  /** No two entries that are encoded share a key. */
  predicate DistinctKeys(es: seq<Entry>) {
    forall i, j :: 0 <= i < j < |es| && es[i].key.Some? ==> es[i].key != es[j].key
  }

  /** Every key of the result is the key of some entry. */
  lemma {:induction false} EncodeKeysFromEntries(es: seq<Entry>)
    ensures forall k :: k in EncodeEntries(es) ==> exists i :: 0 <= i < |es| && es[i].key == Some(k)
  {
    if es != [] {
      var n := |es| - 1;
      EncodeKeysFromEntries(es[..n]);
      forall k | k in EncodeEntries(es)
        ensures exists i :: 0 <= i < |es| && es[i].key == Some(k)
      {
        if k in EncodeEntries(es[..n]) {
          var i :| 0 <= i < n && es[..n][i].key == Some(k);
          assert es[i].key == Some(k);
        } else {
          assert es[n].key == Some(k);
        }
      }
    }
  }

  /** An entry whose key is new puts exactly its texts under that key, or nothing when it has none. */
  lemma StepNewKey(q: Values, e: Entry)
    requires e.key.Some? && e.key.value !in q
    ensures Step(q, e) == if Texts(e.value) == [] then q else q[e.key.value := Texts(e.value)]
  {
    var k := e.key.value;
    if e.value.Elements? && e.value.items != [] {
      var r, expected := Step(q, e), q[k := e.value.items];
      assert r.Keys == expected.Keys;
      assert forall x | x in r :: r[x] == expected[x];
    }
  }

  /**
   * When keys do not clash, an entry's key holds exactly that entry's texts, in order;
   * an entry with no texts (an empty slice) leaves its key out entirely.
   */
  lemma {:induction false} EncodeByEntry(es: seq<Entry>)
    requires DistinctKeys(es)
    ensures forall i :: 0 <= i < |es| && es[i].key.Some? ==>
              (es[i].key.value in EncodeEntries(es) <==> Texts(es[i].value) != [])
    ensures forall i :: 0 <= i < |es| && es[i].key.Some? && es[i].key.value in EncodeEntries(es) ==>
              EncodeEntries(es)[es[i].key.value] == Texts(es[i].value)
  {
    forall i | 0 <= i < |es| && es[i].key.Some?
      ensures es[i].key.value in EncodeEntries(es) <==> Texts(es[i].value) != []
      ensures es[i].key.value in EncodeEntries(es) ==> EncodeEntries(es)[es[i].key.value] == Texts(es[i].value)
    {
      EntryEncoded(es, i);
    }
  }

  /** EncodeByEntry for one entry, by induction on the entries that follow it. */
  lemma {:induction false} EntryEncoded(es: seq<Entry>, i: nat)
    requires DistinctKeys(es) && i < |es| && es[i].key.Some?
    ensures es[i].key.value in EncodeEntries(es) <==> Texts(es[i].value) != []
    ensures es[i].key.value in EncodeEntries(es) ==> EncodeEntries(es)[es[i].key.value] == Texts(es[i].value)
  {
    var n := |es| - 1;
    var pre, e, k := es[..n], es[n], es[i].key.value;
    if i == n {
      LastKeyNew(es);
      StepNewKey(EncodeEntries(pre), e);
    } else {
      DistinctKeysPrefix(es, n);
      assert pre[i] == es[i];
      EntryEncoded(pre, i);
      assert e.key != Some(k);
      StepOtherKey(EncodeEntries(pre), e, k);
    }
  }

  /** A prefix of entries with distinct keys has distinct keys. */
  lemma DistinctKeysPrefix(es: seq<Entry>, n: nat)
    requires DistinctKeys(es) && n <= |es|
    ensures DistinctKeys(es[..n])
  {
    forall i, j | 0 <= i < j < n && es[..n][i].key.Some?
      ensures es[..n][i].key != es[..n][j].key
    {
      assert es[..n][i] == es[i] && es[..n][j] == es[j];
    }
  }

  /** An entry leaves every other key as it was. */
  lemma StepOtherKey(q: Values, e: Entry, k: string)
    requires e.key != Some(k)
    ensures k in Step(q, e) <==> k in q
    ensures k in q ==> Step(q, e)[k] == q[k]
  {
  }

  /** The key of the last entry, when distinct from the others, is not yet among the parameters. */
  lemma LastKeyNew(es: seq<Entry>)
    requires DistinctKeys(es) && es != [] && es[|es| - 1].key.Some?
    ensures es[|es| - 1].key.value !in EncodeEntries(es[..|es| - 1])
  {
    var n := |es| - 1;
    var pre, k := es[..n], es[n].key.value;
    forall i | 0 <= i < n
      ensures pre[i].key != Some(k)
    {
      assert pre[i] == es[i];
    }
    EncodeKeysFromEntries(pre);
  }

  /** No two encoded fields of a record share a key. */
  predicate DistinctFieldKeys(fs: seq<Field>) {
    forall i, j :: 0 <= i < j < |fs| && Key(fs[i]).Some? ==> Key(fs[i]) != Key(fs[j])
  }

  /**
   * ToQSP's contract field by field, for a record whose encoded fields have distinct
   * keys: the result holds a key only if some field has it; a field's key holds that
   * field's texts in order (exactly one for a scalar, whatever its value); and an empty
   * slice leaves its key absent.
   */
  lemma EncodeByField(fs: seq<Field>)
    requires DistinctFieldKeys(fs)
    ensures forall k :: k in Encode(fs) ==> exists i :: 0 <= i < |fs| && Key(fs[i]) == Some(k)
    ensures forall i :: 0 <= i < |fs| && Key(fs[i]).Some? ==>
              (Key(fs[i]).value in Encode(fs) <==> Texts(fs[i].value) != [])
    ensures forall i :: 0 <= i < |fs| && Key(fs[i]).Some? && Key(fs[i]).value in Encode(fs) ==>
              Encode(fs)[Key(fs[i]).value] == Texts(fs[i].value)
  {
    var es := Entries(fs);
    assert DistinctKeys(es);
    EncodeKeysFromEntries(es);
    EncodeByEntry(es);
  }

  /** A field tagged json:"-" has no effect, wherever it stands. */
  lemma ExcludedFieldIgnored(pre: seq<Field>, f: Field, post: seq<Field>)
    requires Reflect.Lookup(f.tag, "json") == Some("-")
    ensures Encode(pre + [f] + post) == Encode(pre + post)
  {
    var e := Entry(Key(f), f.value);
    EntriesAppend(pre, [f]);
    EntriesAppend(pre + [f], post);
    EntriesAppend(pre, post);
    SkipEntry(Entries(pre), e, Entries(post));
  }

  /** Entries works field by field. */
  lemma EntriesAppend(a: seq<Field>, b: seq<Field>)
    ensures Entries(a + b) == Entries(a) + Entries(b)
  {
    assert forall i :: 0 <= i < |a + b| ==> Entries(a + b)[i] == (Entries(a) + Entries(b))[i];
  }

  lemma {:induction false} SkipEntry(pre: seq<Entry>, e: Entry, post: seq<Entry>)
    requires e.key.None?
    ensures EncodeEntries(pre + [e] + post) == EncodeEntries(pre + post)
  {
    if post == [] {
      assert (pre + [e] + post)[..|pre|] == pre;
      assert pre + post == pre;
    } else {
      var m := |post| - 1;
      SkipEntry(pre, e, post[..m]);
      assert (pre + [e] + post)[..|pre + [e] + post| - 1] == pre + [e] + post[..m];
      assert (pre + post)[..|pre + post| - 1] == pre + post[..m];
    }
  }

  /** The json tag is used whole: options after a comma stay in the key. */
  lemma KeyKeepsTagOptions(f: Field, name: string, options: string)
    requires Reflect.Lookup(f.tag, "json") == Some(name + "," + options)
    ensures Key(f) == Some(Strings.Lower(name) + "," + Strings.Lower(options))
  {
    var t := name + "," + options;
    assert t != "-" by {
      if |name| == 0 { assert t[0] == ','; } else { assert |t| > 1; }
    }
    assert Strings.Lower(t) == Strings.Lower(name) + "," + Strings.Lower(options);
  }
}

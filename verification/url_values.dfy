/** Go's url.Values: a map from a key to the list of its values, with Add and Set. */
module UrlValues {

  type Values = map<string, seq<string>>

  /** The values held under key; none when the key is absent. */
  function ValuesOf(q: Values, key: string): seq<string> {
    if key in q then q[key] else []
  }

  /** url.Values.Add: appends value to the list under key, creating the key if needed. */
  function Add(q: Values, key: string, value: string): (r: Values)
    ensures r.Keys == q.Keys + {key}
    ensures r[key] == ValuesOf(q, key) + [value]
    ensures forall k :: k in q && k != key ==> r[k] == q[k]
  {
    q[key := ValuesOf(q, key) + [value]]
  }

  /** url.Values.Set: replaces whatever is under key with the single value. */
  function Set(q: Values, key: string, value: string): (r: Values)
    ensures r.Keys == q.Keys + {key}
    ensures r[key] == [value]
    ensures forall k :: k in q && k != key ==> r[k] == q[k]
  {
    q[key := [value]]
  }

  /** Successive Add calls, one per value, in order. */
  function AddAll(q: Values, key: string, values: seq<string>): (r: Values)
    ensures values == [] ==> r == q
    ensures values != [] ==> r.Keys == q.Keys + {key} && r[key] == ValuesOf(q, key) + values
    ensures forall k :: k in q && k != key ==> k in r && r[k] == q[k]
    ensures forall k :: k in r ==> k in q || k == key
  {
    if values == [] then q
    else
      var init, last := values[..|values| - 1], values[|values| - 1];
      var before := AddAll(q, key, init);
      assert ValuesOf(before, key) == ValuesOf(q, key) + init;
      assert init + [last] == values;
      Add(before, key, last)
  }
}

/** An already-parsed TOML value (`toml::Value`). The text-to-value parser is a
    foreign component and is not modelled; the manifest readers start from a
    value of this type. A table is the sequence of its entries in iteration
    order. */
module Toml {
  import opened Wrappers

  datatype Value =
    | Str(s: string)
    | Int(i: int)
    | Bool(b: bool)
    | Other                       // floats and datetimes: never read by the core
    | Array(items: seq<Value>)
    | Table(entries: seq<Entry>)

  datatype Entry = Entry(key: string, value: Value)

  /** A well-formed table: no key occurs twice. */
  predicate KeysDistinct(es: seq<Entry>) {
    forall i, j | 0 <= i < j < |es| :: es[i].key != es[j].key
  }

  /** A table's keys, in iteration order. */
  function Keys(es: seq<Entry>): seq<string> {
    seq(|es|, i requires 0 <= i < |es| => es[i].key)
  }

  /** The value stored under `key` in a table's entries. */
  function Lookup(es: seq<Entry>, key: string): (r: Option<Value>)
    ensures r.None? <==> forall i | 0 <= i < |es| :: es[i].key != key
    ensures r.Some? ==> exists i | 0 <= i < |es| :: es[i].key == key && es[i].value == r.value
  {
    if |es| == 0 then None
    else if es[0].key == key then Some(es[0].value)
    else
      var r := Lookup(es[1..], key);
      assert r.Some? ==> exists i | 0 <= i < |es[1..]| :: es[1..][i].key == key && es[1..][i].value == r.value;
      r
  }

  /** In a well-formed table every entry is what a lookup of its key finds. */
  lemma {:induction false} LookupFindsEntry(es: seq<Entry>, i: int)
    requires KeysDistinct(es)
    requires 0 <= i < |es|
    ensures Lookup(es, es[i].key) == Some(es[i].value)
  {
    if i > 0 {
      assert es[0].key != es[i].key;
      assert KeysDistinct(es[1..]) by {
        forall p, q | 0 <= p < q < |es[1..]|
          ensures es[1..][p].key != es[1..][q].key
        {
          assert es[1..][p] == es[p + 1] && es[1..][q] == es[q + 1];
        }
      }
      LookupFindsEntry(es[1..], i - 1);
    }
  }

  /** A lookup finds the first entry with its key. */
  lemma {:induction false} LookupFirst(es: seq<Entry>, i: int, key: string)
    requires 0 <= i < |es| && es[i].key == key
    requires forall j | 0 <= j < i :: es[j].key != key
    ensures Lookup(es, key) == Some(es[i].value)
  {
    if i > 0 {
      LookupFirst(es[1..], i - 1, key);
    }
  }

  /** `Value::get(key)`: the entry of a table, nothing for any other value. */
  function Get(v: Value, key: string): Option<Value> {
    if v.Table? then Lookup(v.entries, key) else None
  }

  /** `.and_then(|v| v.get(key))`. */
  function GetIn(v: Option<Value>, key: string): Option<Value> {
    if v.Some? then Get(v.value, key) else None
  }

  /** `.and_then(|v| v.as_str())`. */
  function AsStr(v: Option<Value>): Option<string> {
    if v.Some? && v.value.Str? then Some(v.value.s) else None
  }

  /** `.and_then(|v| v.as_table())`. */
  function AsTable(v: Option<Value>): Option<seq<Entry>> {
    if v.Some? && v.value.Table? then Some(v.value.entries) else None
  }

  /** `.and_then(|v| v.as_array())`. */
  function AsArray(v: Option<Value>): Option<seq<Value>> {
    if v.Some? && v.value.Array? then Some(v.value.items) else None
  }

  /** `.and_then(|v| v.as_integer())`. */
  function AsInteger(v: Option<Value>): Option<int> {
    if v.Some? && v.value.Int? then Some(v.value.i) else None
  }
}

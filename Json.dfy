/**
 * The slice of `serde_json::Value` the core reads and builds.  An object is an
 * association list, so that "the first key" of an object and the position a
 * key keeps when `Map::insert` replaces its value (insertion-ordered maps)
 * are both defined.  Numbers are integers: the core only builds and copies
 * JSON numbers, it never computes with them.
 */
module Json {
  import opened Wrappers

  datatype Json =
    | JNull
    | JBool(b: bool)
    | JNumber(n: int)
    | JString(s: string)
    | JArray(items: seq<Json>)
    | JObject(fields: seq<(string, Json)>)

  /** The value stored under `key` in an association list: the first pair with that key. */
  function Lookup(fields: seq<(string, Json)>, key: string): (r: Option<Json>)
    ensures r.Some? <==> key in KeySet(fields)
    ensures r.Some? ==> (key, r.value) in fields
  {
    if fields == [] then None
    else if fields[0].0 == key then Some(fields[0].1)
    else Lookup(fields[1..], key)
  }

  /** `Value::get(key)`: the value under `key` when `v` is an object holding it, `None` otherwise. */
  function Get(v: Json, key: string): (r: Option<Json>)
    ensures r.Some? <==> v.JObject? && key in KeySet(v.fields)
  {
    if v.JObject? then Lookup(v.fields, key) else None
  }

  /** The keys of an association list, in order. */
  function Keys(fields: seq<(string, Json)>): (ks: seq<string>)
    ensures |ks| == |fields|
    ensures forall i :: 0 <= i < |fields| ==> ks[i] == fields[i].0
  {
    if fields == [] then [] else [fields[0].0] + Keys(fields[1..])
  }

  /** The set of keys of an association list. */
  function KeySet(fields: seq<(string, Json)>): set<string>
  {
    if fields == [] then {} else {fields[0].0} + KeySet(fields[1..])
  }

  /** No key occurs twice, as in every `serde_json::Map`. */
  predicate UniqueKeys(fields: seq<(string, Json)>)
  {
    forall i, j :: 0 <= i < j < |fields| ==> fields[i].0 != fields[j].0
  }

  /**
   * `serde_json::Map::insert` on an insertion-ordered map: a key already
   * present keeps its position and takes the new value; a new key goes last.
   */
  function Insert(fields: seq<(string, Json)>, key: string, value: Json): (r: seq<(string, Json)>)
    ensures key in KeySet(fields) ==> Keys(r) == Keys(fields)
    ensures key !in KeySet(fields) ==> Keys(r) == Keys(fields) + [key]
  {
    if fields == [] then [(key, value)]
    else if fields[0].0 == key then [(key, value)] + fields[1..]
    else
      var rest := Insert(fields[1..], key, value);
      assert ([fields[0]] + rest)[1..] == rest;
      [fields[0]] + rest
  }

  /** After the insert, `key` holds the new value and every other key what it held before. */
  lemma {:induction false} InsertLookup(fields: seq<(string, Json)>, key: string, value: Json, k: string)
    ensures Lookup(Insert(fields, key, value), k) == if k == key then Some(value) else Lookup(fields, k)
  {
    if fields != [] && fields[0].0 != key {
      var rest := Insert(fields[1..], key, value);
      assert ([fields[0]] + rest)[1..] == rest;
      InsertLookup(fields[1..], key, value, k);
    }
  }

  /** The keys are the old keys plus `key`, and a map without repeated keys keeps none. */
  lemma {:induction false} InsertKeys(fields: seq<(string, Json)>, key: string, value: Json)
    ensures KeySet(Insert(fields, key, value)) == KeySet(fields) + {key}
    ensures UniqueKeys(fields) ==> UniqueKeys(Insert(fields, key, value))
  {
    KeySetIsKeys(fields);
    KeySetIsKeys(Insert(fields, key, value));
    if UniqueKeys(fields) {
      var r := Insert(fields, key, value);
      var ks := Keys(fields);
      if key !in KeySet(fields) {
        assert Keys(r) == ks + [key];
        forall i, j | 0 <= i < j < |r| ensures r[i].0 != r[j].0 {
          assert r[i].0 == Keys(r)[i] && r[j].0 == Keys(r)[j];
          if j < |fields| {
            assert fields[i].0 == ks[i] && fields[j].0 == ks[j];
          } else {
            assert ks[i] in ks;
          }
        }
      } else {
        forall i, j | 0 <= i < j < |r| ensures r[i].0 != r[j].0 {
          assert r[i].0 == Keys(r)[i] && r[j].0 == Keys(r)[j];
          assert fields[i].0 == ks[i] && fields[j].0 == ks[j];
        }
      }
    }
  }

  /** The key set is the set of the key list. */
  lemma {:induction false} KeySetIsKeys(fields: seq<(string, Json)>)
    ensures KeySet(fields) == set k | k in Keys(fields)
  {
    if fields != [] {
      KeySetIsKeys(fields[1..]);
      assert Keys(fields) == [fields[0].0] + Keys(fields[1..]);
    }
  }

  /** A JSON array of the given strings. */
  function StringArray(ss: seq<string>): (r: Json)
    ensures r.JArray? && |r.items| == |ss|
    ensures forall i :: 0 <= i < |ss| ==> r.items[i] == JString(ss[i])
  {
    JArray(seq(|ss|, i requires 0 <= i < |ss| => JString(ss[i])))
  }

  /** The array of an object's keys holds each key as a string, and no string twice when the keys are unique. */
  lemma KeyStrings(fields: seq<(string, Json)>)
    requires UniqueKeys(fields)
    ensures var req := StringArray(Keys(fields));
            (forall k :: JString(k) in req.items <==> k in KeySet(fields))
            && (forall i, j :: 0 <= i < j < |req.items| ==> req.items[i] != req.items[j])
  {
    var req := StringArray(Keys(fields));
    KeySetIsKeys(fields);
    forall k ensures JString(k) in req.items <==> k in KeySet(fields) {
      if JString(k) in req.items {
        var i :| 0 <= i < |req.items| && req.items[i] == JString(k);
        assert Keys(fields)[i] == k;
      }
      if k in KeySet(fields) {
        var i :| 0 <= i < |Keys(fields)| && Keys(fields)[i] == k;
        assert req.items[i] == JString(k);
      }
    }
    forall i, j | 0 <= i < j < |req.items| ensures req.items[i] != req.items[j] {
      assert fields[i].0 != fields[j].0;
    }
  }
}

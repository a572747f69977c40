/** JSON-like values as the Solargis clients build and receive them, the parts of
    Python's semantics the clients rely on (truthiness, hashability, `dict.get`),
    the exceptions they raise, and insertion-ordered dictionaries. */
module Documents {

  datatype Option<+T> = None | Some(value: T)

  /** The outcome of a Python operation that may raise. */
  datatype Result<+T> = Ok(value: T) | Err(error: Error)

  /** The Python exceptions the modelled code can raise. */
  datatype Error =
    | KeyError(key: string)   // subscript or `pop` of a missing dict key
    | TypeError               // a missing argument, an unhashable dict key, `in` on a non-container
    | AttributeError          // `replace` or `append` called on a value that has no such method
    | ValueError              // raised by the poll loop on a status response without "status"
    | NotATable               // "data" in a shape the model does not read as a table

  /** A parsed JSON value. Numbers are kept as opaque reals: nothing here computes with them. */
  datatype JsonValue =
    | JNull
    | JBool(b: bool)
    | JNum(n: real)
    | JString(s: string)
    | JArray(items: seq<JsonValue>)
    | JObject(fields: map<string, JsonValue>)

  /** A JSON object, i.e. a Python dict with string keys (key order is not modelled). */
  type Document = map<string, JsonValue>

  /** Python's `bool(v)`: None, False, 0, "", [] and {} are false. */
  predicate Truthy(v: JsonValue)
  {
    match v
    case JNull => false
    case JBool(b) => b
    case JNum(n) => n != 0.0
    case JString(s) => s != ""
    case JArray(items) => items != []
    case JObject(fields) => fields != map[]
  }

  /** Whether `v` may be used as a dict key: Python lists and dicts are unhashable. */
  predicate Hashable(v: JsonValue)
  {
    !v.JArray? && !v.JObject?
  }

  /** Python's `d.get(k)`, with None for a missing key. */
  function Get(d: Document, k: string): JsonValue
  {
    if k in d then d[k] else JNull
  }

  /** Python's `d.pop(k)` followed by `d[into] = <popped value>`: moves an entry to a new key. */
  function Rename(d: Document, k: string, into: string): (r: Document)
    requires k in d
    ensures into in r && r[into] == d[k]
    ensures k != into ==> k !in r
  {
    (d - {k})[into := d[k]]
  }

  /** Every key other than the two named ones is untouched by `Rename`. */
  lemma RenameElsewhere(d: Document, k: string, into: string, x: string)
    requires k in d && x != k && x != into
    ensures x in Rename(d, k, into) <==> x in d
    ensures x in d ==> Rename(d, k, into)[x] == d[x]
  {
  }

  // ---------------------------------------------------------------------------
  // Insertion-ordered dictionaries (Python dicts whose order the code relies on)
  // ---------------------------------------------------------------------------

  /** The keys of an ordered dict, in insertion order. */
  function Names<V>(entries: seq<(string, V)>): (r: seq<string>)
    ensures |r| == |entries|
    ensures forall i :: 0 <= i < |entries| ==> r[i] == entries[i].0
  {
    if entries == [] then [] else [entries[0].0] + Names(entries[1..])
  }

  /** No key occurs twice, as in every Python dict. */
  predicate DistinctNames<V>(entries: seq<(string, V)>)
  {
    forall i, j :: 0 <= i < j < |entries| ==> entries[i].0 != entries[j].0
  }

  /** `d.get(k)` on an ordered dict. */
  function Lookup<V>(entries: seq<(string, V)>, k: string): (r: Option<V>)
    ensures r.None? <==> k !in Names(entries)
    ensures r.Some? ==> exists i :: 0 <= i < |entries| && entries[i] == (k, r.value)
  {
    if entries == [] then None
    else if entries[0].0 == k then Some(entries[0].1)
    else Lookup(entries[1..], k)
  }

  /** `d[k] = v`: an existing key keeps its position and gets the new value, a new key goes last. */
  function Put<V>(entries: seq<(string, V)>, k: string, v: V): (r: seq<(string, V)>)
  {
    if entries == [] then [(k, v)]
    else if entries[0].0 == k then [(k, v)] + entries[1..]
    else [entries[0]] + Put(entries[1..], k, v)
  }

  /** After `d[k] = v`, `k` maps to `v` and every other key to what it mapped to before. */
  lemma {:induction false} PutLookup<V>(entries: seq<(string, V)>, k: string, v: V, x: string)
    ensures Lookup(Put(entries, k, v), x) == if x == k then Some(v) else Lookup(entries, x)
  {
    if entries != [] && entries[0].0 != k {
      PutLookup(entries[1..], k, v, x);
    }
  }

  /** The same, for every key at once; distinct keys stay distinct. */
  lemma PutKeepsOthers<V>(entries: seq<(string, V)>, k: string, v: V)
    ensures Lookup(Put(entries, k, v), k) == Some(v)
    ensures forall x :: x != k ==> Lookup(Put(entries, k, v), x) == Lookup(entries, x)
    ensures DistinctNames(entries) ==> DistinctNames(Put(entries, k, v))
  {
    forall x {
      PutLookup(entries, k, v, x);
    }
    PutNames(entries, k, v);
  }

  /** `d[k] = v` keeps the key order, appending `k` only when it is new, and keeps keys distinct. */
  lemma {:induction false} PutNames<V>(entries: seq<(string, V)>, k: string, v: V)
    ensures Names(Put(entries, k, v)) == if k in Names(entries) then Names(entries) else Names(entries) + [k]
    ensures DistinctNames(entries) ==> DistinctNames(Put(entries, k, v))
  {
    if entries == [] {
    } else if entries[0].0 == k {
      assert Names(Put(entries, k, v)) == [k] + Names(entries[1..]);
    } else {
      PutNames(entries[1..], k, v);
      assert Names(Put(entries, k, v)) == [entries[0].0] + Names(Put(entries[1..], k, v));
      if DistinctNames(entries) {
        var r := Put(entries, k, v);
        var names := Names(Put(entries[1..], k, v));
        assert entries[0].0 !in Names(entries[1..]) by {
          forall i | 0 <= i < |entries[1..]| ensures Names(entries[1..])[i] != entries[0].0 {
            assert entries[1..][i] == entries[i + 1];
          }
        }
        forall i, j | 0 <= i < j < |r| ensures r[i].0 != r[j].0 {
          if i == 0 {
            assert r[j].0 == names[j - 1];
          }
        }
      }
    }
  }
}

/** JSON (and TOML) documents as values, and the dictionary a sequence of
    key/value pairs denotes once loaded into a Python `dict`. */
module Json {
  import opened Base

  /** A parsed document. Numbers keep their literal text: nothing in this
      model does arithmetic on them. An object keeps its members in document
      order, duplicates included. */
  datatype Value =
    | Null
    | Bool(b: bool)
    | Num(literal: string)
    | Str(s: string)
    | Arr(items: seq<Value>)
    | Obj(fields: seq<(string, Value)>)

  /** What reading and `json.load`-ing a resource produced: a value, or the
      decoder's error message. */
  datatype JsonDoc = Parsed(value: Value) | SyntaxError(message: string)

  /** The set of keys that occur in `pairs`. */
  function KeysOf<V>(pairs: seq<(string, V)>): set<string>
  {
    set i | 0 <= i < |pairs| :: pairs[i].0
  }

  /** The dictionary obtained by inserting `pairs` in order: a later pair
      with the same key replaces the value of an earlier one. */
  function DictOf<V>(pairs: seq<(string, V)>): (d: map<string, V>)
    ensures d.Keys == KeysOf(pairs)
    decreases |pairs|
  {
    if pairs == [] then map[]
    else
      var n := |pairs| - 1;
      var d := DictOf(pairs[..n]);
      assert KeysOf(pairs) == KeysOf(pairs[..n]) + {pairs[n].0} by {
        assert forall i | 0 <= i < n :: pairs[..n][i] == pairs[i];
      }
      d[pairs[n].0 := pairs[n].1]
  }

  /** `i` is the position of the last pair whose key is `k`. */
  predicate IsLastFor<V>(pairs: seq<(string, V)>, k: string, i: int)
  {
    0 <= i < |pairs| && pairs[i].0 == k
    && forall j | i < j < |pairs| :: pairs[j].0 != k
  }

  /** Every key of the dictionary holds the value of the last pair with that key. */
  lemma {:induction false} DictOfLastWins<V>(pairs: seq<(string, V)>, k: string)
    requires k in DictOf(pairs)
    ensures exists i :: IsLastFor(pairs, k, i) && DictOf(pairs)[k] == pairs[i].1
    decreases |pairs|
  {
    var n := |pairs| - 1;
    if pairs[n].0 == k {
      assert IsLastFor(pairs, k, n);
    } else {
      DictOfLastWins(pairs[..n], k);
      var i :| IsLastFor(pairs[..n], k, i) && DictOf(pairs[..n])[k] == pairs[..n][i].1;
      assert IsLastFor(pairs, k, i);
    }
  }

  /** No key occurs twice. */
  predicate DistinctKeys<V>(pairs: seq<(string, V)>)
  {
    forall i, j | 0 <= i < j < |pairs| :: pairs[i].0 != pairs[j].0
  }

  /** With distinct keys, every pair survives into the dictionary unchanged. */
  lemma {:induction false} DictOfDistinct<V>(pairs: seq<(string, V)>, i: int)
    requires DistinctKeys(pairs)
    requires 0 <= i < |pairs|
    ensures pairs[i].0 in DictOf(pairs) && DictOf(pairs)[pairs[i].0] == pairs[i].1
    decreases |pairs|
  {
    var n := |pairs| - 1;
    if i < n {
      assert DistinctKeys(pairs[..n]) by {
        forall a, b | 0 <= a < b < n ensures pairs[..n][a].0 != pairs[..n][b].0 {
          assert pairs[..n][a] == pairs[a] && pairs[..n][b] == pairs[b];
        }
      }
      DictOfDistinct(pairs[..n], i);
      assert pairs[..n][i] == pairs[i];
    }
  }

  /** Python's `obj.get(key)` on the dictionary a JSON/TOML object loads into. */
  function Get(fields: seq<(string, Value)>, key: string): (r: Option<Value>)
    ensures r.Some? <==> key in KeysOf(fields)
    ensures r.Some? ==> exists i :: IsLastFor(fields, key, i) && r.value == fields[i].1
  {
    var d := DictOf(fields);
    if key in d then DictOfLastWins(fields, key); Some(d[key]) else None
  }
}

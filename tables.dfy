/** The source's module-level dictionaries, as sequences of (key, value)
    entries in insertion order, and the dictionary lookup the tools perform. */
module Tables {
  import opened Text

  datatype Option<T> = None | Some(value: T)

  /** `list(t.keys())`, in insertion order. */
  function Keys<V>(t: seq<(string, V)>): (ks: seq<string>)
    ensures |ks| == |t|
    ensures forall i :: 0 <= i < |t| ==> ks[i] == t[i].0
  {
    if t == [] then [] else [t[0].0] + Keys(t[1..])
  }

  /** A dictionary has each key at most once. */
  predicate KeysUnique<V>(t: seq<(string, V)>) {
    forall i, j :: 0 <= i < j < |t| ==> t[i].0 != t[j].0
  }

  /** Every stored key is already in the form `Normalize` produces. */
  predicate KeysNormalized<V>(t: seq<(string, V)>) {
    forall i :: 0 <= i < |t| ==> NormalForm(t[i].0)
  }

  predicate WellFormed<V>(t: seq<(string, V)>) {
    KeysUnique(t) && KeysNormalized(t)
  }

  /** `t.get(key)`: the value stored under `key`, or `None` when `key not in t`. */
  function Lookup<V>(t: seq<(string, V)>, key: string): (r: Option<V>)
    ensures r.Some? <==> key in Keys(t)
    ensures r.Some? ==> exists i :: 0 <= i < |t| && t[i].0 == key && t[i].1 == r.value
  {
    if t == [] then None
    else if t[0].0 == key then Some(t[0].1)
    else
      assert Keys(t) == [t[0].0] + Keys(t[1..]);
      var r := Lookup(t[1..], key);
      if r.Some? then
        ghost var i :| 0 <= i < |t[1..]| && t[1..][i].0 == key && t[1..][i].1 == r.value;
        assert t[i + 1].0 == key && t[i + 1].1 == r.value;
        r
      else r
  }

  /** With unique keys, looking up the key of an entry yields that entry's value. */
  lemma {:induction false} LookupEntry<V>(t: seq<(string, V)>, i: int)
    requires KeysUnique(t)
    requires 0 <= i < |t|
    ensures Lookup(t, t[i].0) == Some(t[i].1)
  {
    if i > 0 {
      assert t[0].0 != t[i].0;
      assert t[1..][i - 1] == t[i];
      LookupEntry(t[1..], i - 1);
    }
  }
}

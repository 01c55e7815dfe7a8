/** PHP's ordered arrays: a sequence of key/value entries in insertion order,
    each key at most once. Only the operations the database layer uses are
    modelled: lookup, `$a[$k] = $v`, `unset($a[$k])` and the union `$a + $b`. */
module PhpArray {
  import opened Results

  /** An array key. PHP turns decimal-integer strings into integer keys on
      insertion; keys are taken here as already normalised. */
  datatype Key = IntKey(i: int) | StrKey(s: string)

  datatype Entry<V> = Entry(key: Key, value: V)

  /** `array_keys($m)` */
  function Keys<V>(m: seq<Entry<V>>): seq<Key> {
    seq(|m|, i requires 0 <= i < |m| => m[i].key)
  }

  /** Every PHP array satisfies this. */
  ghost predicate UniqueKeys<V>(m: seq<Entry<V>>) {
    forall i, j :: 0 <= i < j < |m| ==> m[i].key != m[j].key
  }

  /** `$m[$k]`, with `None` for a missing key. */
  function Get<V>(m: seq<Entry<V>>, k: Key): (r: Option<V>)
    ensures r.Some? <==> k in Keys(m)
  {
    if m == [] then None
    else if m[0].key == k then
      assert Keys(m)[0] == k;
      Some(m[0].value)
    else
      assert Keys(m) == [m[0].key] + Keys(m[1..]);
      Get(m[1..], k)
  }

  /** `$m[$k] = $v`: overwrites in place, or appends a new entry. */
  function Put<V>(m: seq<Entry<V>>, k: Key, v: V): seq<Entry<V>> {
    if m == [] then [Entry(k, v)]
    else if m[0].key == k then [Entry(k, v)] + m[1..]
    else [m[0]] + Put(m[1..], k, v)
  }

  /** `unset($m[$k])` */
  function Unset<V>(m: seq<Entry<V>>, k: Key): seq<Entry<V>> {
    if m == [] then []
    else (if m[0].key == k then [] else [m[0]]) + Unset(m[1..], k)
  }

  /** `$a + $b`: the entries of `$a`, then those of `$b` whose key is not yet present. */
  function Union<V>(a: seq<Entry<V>>, b: seq<Entry<V>>): seq<Entry<V>>
    decreases |b|
  {
    if b == [] then a
    else Union(if b[0].key in Keys(a) then a else a + [b[0]], b[1..])
  }

  lemma KeysAppend<V>(a: seq<Entry<V>>, b: seq<Entry<V>>)
    ensures Keys(a + b) == Keys(a) + Keys(b)
  {
  }

  /** In a PHP array, entry i is what `$m[key_i]` reads. */
  lemma {:induction false} GetAt<V>(m: seq<Entry<V>>, i: nat)
    requires UniqueKeys(m) && i < |m|
    ensures Get(m, m[i].key) == Some(m[i].value)
  {
    if i > 0 {
      assert m[0].key != m[i].key;
      assert m[1..][i - 1] == m[i];
      GetAt(m[1..], i - 1);
    }
  }

  lemma {:induction false} GetAppend<V>(m: seq<Entry<V>>, e: Entry<V>, x: Key)
    ensures Get(m + [e], x) == if x in Keys(m) then Get(m, x) else if x == e.key then Some(e.value) else None
  {
    if m == [] {
      assert [e][1..] == [];
    } else {
      assert (m + [e])[1..] == m[1..] + [e];
      assert Keys(m) == [m[0].key] + Keys(m[1..]);
      if m[0].key != x {
        GetAppend(m[1..], e, x);
      }
    }
  }

  /** Assigning a key that is not present appends it. */
  lemma {:induction false} PutFresh<V>(m: seq<Entry<V>>, k: Key, v: V)
    requires k !in Keys(m)
    ensures Put(m, k, v) == m + [Entry(k, v)]
  {
    if m != [] {
      assert Keys(m) == [m[0].key] + Keys(m[1..]);
      PutFresh(m[1..], k, v);
      assert m == [m[0]] + m[1..];
    }
  }

  /** After `unset($m[$k])`, `$k` is gone and every other key reads as before. */
  lemma {:induction false} GetUnset<V>(m: seq<Entry<V>>, k: Key, x: Key)
    ensures Get(Unset(m, k), x) == if x == k then None else Get(m, x)
  {
    if m != [] {
      GetUnset(m[1..], k, x);
      if m[0].key == k {
        assert Unset(m, k) == Unset(m[1..], k);
      } else {
        assert Unset(m, k) == [m[0]] + Unset(m[1..], k);
      }
    }
  }

  /** Unsetting a missing key changes nothing. */
  lemma {:induction false} UnsetMissing<V>(m: seq<Entry<V>>, k: Key)
    requires k !in Keys(m)
    ensures Unset(m, k) == m
  {
    if m != [] {
      assert Keys(m) == [m[0].key] + Keys(m[1..]);
      UnsetMissing(m[1..], k);
      assert m == [m[0]] + m[1..];
    }
  }

  /** Removing the first entry by its own key, when the key occurs nowhere else. */
  lemma UnsetHead<V>(e: Entry<V>, rest: seq<Entry<V>>)
    requires e.key !in Keys(rest)
    ensures Unset([e] + rest, e.key) == rest
  {
    assert ([e] + rest)[1..] == rest;
    UnsetMissing(rest, e.key);
  }

  /** The union keeps every key of `$a` with its value; keys only in `$b` take `$b`'s value. */
  lemma {:induction false} GetUnion<V>(a: seq<Entry<V>>, b: seq<Entry<V>>, x: Key)
    ensures Get(Union(a, b), x) == if x in Keys(a) then Get(a, x) else Get(b, x)
    decreases |b|
  {
    if b != [] {
      assert Keys(b) == [b[0].key] + Keys(b[1..]);
      var a' := if b[0].key in Keys(a) then a else a + [b[0]];
      GetUnion(a', b[1..], x);
      KeysAppend(a, [b[0]]);
      if b[0].key !in Keys(a) {
        GetAppend(a, b[0], x);
      }
    }
  }

  /** Union with an empty array is the identity. */
  lemma UnionEmpty<V>(a: seq<Entry<V>>)
    ensures Union(a, []) == a
  {
  }

  /** With disjoint keys, the union is a concatenation. */
  lemma {:induction false} UnionDisjoint<V>(a: seq<Entry<V>>, b: seq<Entry<V>>)
    requires UniqueKeys(b)
    requires forall i :: 0 <= i < |b| ==> b[i].key !in Keys(a)
    ensures Union(a, b) == a + b
    decreases |b|
  {
    if b != [] {
      KeysAppend(a, [b[0]]);
      forall i | 0 <= i < |b[1..]|
        ensures b[1..][i].key !in Keys(a + [b[0]])
      {
        assert b[1..][i] == b[i + 1];
      }
      UnionDisjoint(a + [b[0]], b[1..]);
      assert a + [b[0]] + b[1..] == a + b;
    }
  }
}

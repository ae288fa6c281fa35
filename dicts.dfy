/** Python's insertion-ordered `dict` with string keys, as a sequence of
    (key, value) pairs: lookup, `d[k] = v`, `d.pop(k)` and the union `a | b`. */
module Dicts {
  import opened Wire

  function Keys<V>(es: seq<(string, V)>): (ks: seq<string>)
    ensures |ks| == |es|
    ensures forall i :: 0 <= i < |es| ==> ks[i] == es[i].0
  {
    if es == [] then [] else [es[0].0] + Keys(es[1..])
  }

  /** No key occurs twice, as in every Python dict. */
  predicate UniqueKeys<V>(es: seq<(string, V)>) {
    forall i, j :: 0 <= i < j < |es| ==> es[i].0 != es[j].0
  }

  /** `d.get(k)`. */
  function Lookup<V>(es: seq<(string, V)>, k: string): Option<V> {
    if es == [] then None else if es[0].0 == k then Some(es[0].1) else Lookup(es[1..], k)
  }

  predicate HasKey<V>(es: seq<(string, V)>, k: string) {
    Lookup(es, k).Some?
  }

  /** The keys of `ks` that are not in `seen`, in their order. */
  function NewKeys(ks: seq<string>, seen: seq<string>): seq<string> {
    if ks == [] then [] else (if ks[0] in seen then [] else [ks[0]]) + NewKeys(ks[1..], seen)
  }

  /** What `NewKeys` holds, for reading the key-order clauses of `KeysUnion`,
      `KeysRemove` and the header contracts: exactly the keys of `ks` that are
      not in `seen`. */
  lemma {:induction false} NewKeysMembers(ks: seq<string>, seen: seq<string>, k: string)
    ensures k in NewKeys(ks, seen) <==> k in ks && k !in seen
  {
    if ks != [] {
      NewKeysMembers(ks[1..], seen, k);
      assert ks == [ks[0]] + ks[1..];
    }
  }

  /** `d[k] = v`: replaces the value in place, or appends a new entry. */
  function SetItem<V>(es: seq<(string, V)>, k: string, v: V): seq<(string, V)> {
    if es == [] then [(k, v)]
    else if es[0].0 == k then [(k, v)] + es[1..]
    else [es[0]] + SetItem(es[1..], k, v)
  }

  /** The removal done by `d.pop(k)`. */
  function Remove<V>(es: seq<(string, V)>, k: string): seq<(string, V)> {
    if es == [] then []
    else if es[0].0 == k then es[1..]
    else [es[0]] + Remove(es[1..], k)
  }

  /** `a | b`: a copy of `a` with every entry of `b` assigned into it in order. */
  function Union<V>(a: seq<(string, V)>, b: seq<(string, V)>): seq<(string, V)>
    decreases |b|
  {
    if b == [] then a else Union(SetItem(a, b[0].0, b[0].1), b[1..])
  }

  lemma {:induction false} HasKeyIsInKeys<V>(es: seq<(string, V)>, k: string)
    ensures HasKey(es, k) <==> k in Keys(es)
  {
    if es != [] {
      HasKeyIsInKeys(es[1..], k);
      assert Keys(es) == [es[0].0] + Keys(es[1..]);
    }
  }

  /** A found value is stored at some position under that key. */
  lemma {:induction false} LookupFound<V>(es: seq<(string, V)>, k: string)
    requires HasKey(es, k)
    ensures exists i :: 0 <= i < |es| && es[i] == (k, Lookup(es, k).value)
  {
    if es[0].0 != k {
      LookupFound(es[1..], k);
      var i :| 0 <= i < |es[1..]| && es[1..][i] == (k, Lookup(es[1..], k).value);
      assert es[i + 1] == (k, Lookup(es, k).value);
    }
  }

  lemma {:induction false} LookupSetItem<V>(es: seq<(string, V)>, k: string, v: V, k': string)
    ensures Lookup(SetItem(es, k, v), k') == if k' == k then Some(v) else Lookup(es, k')
  {
    if es != [] && es[0].0 != k {
      LookupSetItem(es[1..], k, v, k');
    }
  }

  lemma {:induction false} KeysSetItem<V>(es: seq<(string, V)>, k: string, v: V)
    ensures Keys(SetItem(es, k, v)) == if HasKey(es, k) then Keys(es) else Keys(es) + [k]
  {
    if es != [] && es[0].0 != k {
      KeysSetItem(es[1..], k, v);
      assert Keys(SetItem(es, k, v)) == [es[0].0] + Keys(SetItem(es[1..], k, v));
      assert Keys(es) == [es[0].0] + Keys(es[1..]);
    } else if es != [] {
      assert Keys(SetItem(es, k, v)) == [k] + Keys(es[1..]);
      assert Keys(es) == [es[0].0] + Keys(es[1..]);
    }
  }

  lemma UniqueTail<V>(es: seq<(string, V)>)
    requires es != [] && UniqueKeys(es)
    ensures UniqueKeys(es[1..]) && !HasKey(es[1..], es[0].0)
  {
    HasKeyIsInKeys(es[1..], es[0].0);
  }

  lemma {:induction false} UniqueSetItem<V>(es: seq<(string, V)>, k: string, v: V)
    requires UniqueKeys(es)
    ensures UniqueKeys(SetItem(es, k, v))
  {
    var r := SetItem(es, k, v);
    KeysSetItem(es, k, v);
    HasKeyIsInKeys(es, k);
    assert Keys(r) == if HasKey(es, k) then Keys(es) else Keys(es) + [k];
    forall i, j | 0 <= i < j < |r| ensures r[i].0 != r[j].0 {
      assert r[i].0 == Keys(r)[i] && r[j].0 == Keys(r)[j];
    }
  }

  lemma {:induction false} LookupRemove<V>(es: seq<(string, V)>, k: string, k': string)
    requires UniqueKeys(es)
    ensures Lookup(Remove(es, k), k') == if k' == k then None else Lookup(es, k')
  {
    if es != [] {
      UniqueTail(es);
      if es[0].0 != k {
        LookupRemove(es[1..], k, k');
      }
    }
  }

  /** `d.pop(k)` keeps the other keys in their order. */
  lemma {:induction false} KeysRemove<V>(es: seq<(string, V)>, k: string)
    requires UniqueKeys(es)
    ensures Keys(Remove(es, k)) == NewKeys(Keys(es), [k])
  {
    if es != [] {
      UniqueTail(es);
      HasKeyIsInKeys(es[1..], es[0].0);
      assert Keys(es)[1..] == Keys(es[1..]);
      if es[0].0 == k {
        NewKeysDisjoint(Keys(es[1..]), [k]);
      } else {
        KeysRemove(es[1..], k);
        assert Keys(Remove(es, k)) == [es[0].0] + Keys(Remove(es[1..], k));
      }
    }
  }

  lemma {:induction false} NewKeysDisjoint(ks: seq<string>, seen: seq<string>)
    requires forall k :: k in ks ==> k !in seen
    ensures NewKeys(ks, seen) == ks
  {
    if ks != [] {
      NewKeysDisjoint(ks[1..], seen);
      assert ks == [ks[0]] + ks[1..];
    }
  }

  /** A key that `ks` does not hold makes no difference as an extra seen key. */
  lemma {:induction false} NewKeysExtend(ks: seq<string>, seen: seq<string>, x: string)
    requires x !in ks
    ensures NewKeys(ks, seen + [x]) == NewKeys(ks, seen)
  {
    if ks != [] {
      NewKeysExtend(ks[1..], seen, x);
      assert (ks[0] in seen + [x]) == (ks[0] in seen);
    }
  }

  lemma {:induction false} UniqueRemove<V>(es: seq<(string, V)>, k: string)
    requires UniqueKeys(es)
    ensures UniqueKeys(Remove(es, k))
    ensures forall k' :: HasKey(Remove(es, k), k') ==> HasKey(es, k')
  {
    if es != [] {
      UniqueTail(es);
      if es[0].0 != k {
        UniqueRemove(es[1..], k);
        var r := Remove(es, k);
        forall i, j | 0 <= i < j < |r| ensures r[i].0 != r[j].0 {
          if i == 0 {
            HasKeyIsInKeys(Remove(es[1..], k), r[j].0);
            assert r[j].0 == Keys(Remove(es[1..], k))[j - 1];
          }
        }
        forall k' | HasKey(r, k') ensures HasKey(es, k') {
          if k' != es[0].0 {
            assert Lookup(r, k') == Lookup(Remove(es[1..], k), k');
            assert HasKey(Remove(es[1..], k), k');
            assert HasKey(es[1..], k');
          }
        }
      }
    }
  }

  /** In `a | b` the right-hand operand wins: a key of `b` keeps `b`'s value,
      every other key keeps `a`'s, and no key appears that neither has. */
  lemma {:induction false} LookupUnion<V>(a: seq<(string, V)>, b: seq<(string, V)>, k: string)
    requires UniqueKeys(b)
    ensures Lookup(Union(a, b), k) == if HasKey(b, k) then Lookup(b, k) else Lookup(a, k)
    decreases |b|
  {
    if b != [] {
      UniqueTail(b);
      LookupUnion(SetItem(a, b[0].0, b[0].1), b[1..], k);
      LookupSetItem(a, b[0].0, b[0].1, k);
    }
  }

  lemma {:induction false} UniqueUnion<V>(a: seq<(string, V)>, b: seq<(string, V)>)
    requires UniqueKeys(a)
    ensures UniqueKeys(Union(a, b))
    decreases |b|
  {
    if b != [] {
      UniqueSetItem(a, b[0].0, b[0].1);
      UniqueUnion(SetItem(a, b[0].0, b[0].1), b[1..]);
    }
  }

  /** The keys of `a | b`: those of `a` in their order, then the keys of `b`
      that `a` lacks, in `b`'s order. */
  lemma {:induction false} KeysUnion<V>(a: seq<(string, V)>, b: seq<(string, V)>)
    requires UniqueKeys(b)
    ensures Keys(Union(a, b)) == Keys(a) + NewKeys(Keys(b), Keys(a))
    decreases |b|
  {
    if b != [] {
      var k := b[0].0;
      var a' := SetItem(a, k, b[0].1);
      UniqueTail(b);
      HasKeyIsInKeys(b[1..], k);
      HasKeyIsInKeys(a, k);
      KeysSetItem(a, k, b[0].1);
      KeysUnion(a', b[1..]);
      assert Keys(b) == [k] + Keys(b[1..]);
      KeysUnionStep(Keys(a), Keys(a'), k, Keys(b[1..]));
    }
  }

  /** One assignment of `a | b` on the key sequences alone. */
  lemma KeysUnionStep(ka: seq<string>, ka': seq<string>, k: string, kb: seq<string>)
    requires ka' == if k in ka then ka else ka + [k]
    requires k !in kb
    ensures ka' + NewKeys(kb, ka') == ka + NewKeys([k] + kb, ka)
  {
    assert ([k] + kb)[0] == k && ([k] + kb)[1..] == kb;
    if k !in ka {
      NewKeysExtend(kb, ka, k);
    }
  }
}

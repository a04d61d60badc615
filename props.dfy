/**
 * A JavaScript plain object seen as the ordered list of its own properties,
 * in insertion order (the order `Object.keys` reports). Assigning to a
 * property that exists keeps its place; assigning to a new one appends it.
 */
module Props {
  import opened Wrappers

  type Props<V> = seq<(string, V)>

  /** `Object.keys(t)` */
  function Keys<V>(t: Props<V>): (ks: seq<string>)
    ensures |ks| == |t|
    ensures forall i :: 0 <= i < |t| ==> ks[i] == t[i].0
  {
    if t == [] then [] else [t[0].0] + Keys(t[1..])
  }

  /** A JavaScript object never has the same own property twice. */
  predicate UniqueKeys<V>(t: Props<V>)
  {
    forall i, j :: 0 <= i < j < |t| ==> t[i].0 != t[j].0
  }

  /** `t[k]`: the value of property `k`, or `undefined`. */
  function Get<V>(t: Props<V>, k: string): (r: Option<V>)
    ensures r.Some? <==> k in Keys(t)
  {
    if t == [] then None
    else if t[0].0 == k then Some(t[0].1)
    else Get(t[1..], k)
  }

  /** `t[k] = v` */
  function Set<V>(t: Props<V>, k: string, v: V): (r: Props<V>)
    ensures Get(r, k) == Some(v)
    ensures forall k' :: k' != k ==> Get(r, k') == Get(t, k')
  {
    if t == [] then [(k, v)]
    else if t[0].0 == k then
      assert ([(k, v)] + t[1..])[1..] == t[1..];
      [(k, v)] + t[1..]
    else
      var rest := Set(t[1..], k, v);
      assert ([t[0]] + rest)[1..] == rest;
      [t[0]] + rest
  }

  /** Assigning an existing property keeps the key list; a new property is appended to it. */
  lemma {:induction false} SetKeys<V>(t: Props<V>, k: string, v: V)
    ensures Keys(Set(t, k, v)) == if k in Keys(t) then Keys(t) else Keys(t) + [k]
  {
    if t != [] {
      assert Keys(t) == [t[0].0] + Keys(t[1..]);
      if t[0].0 == k {
        assert Set(t, k, v)[1..] == t[1..];
      } else {
        SetKeys(t[1..], k, v);
        assert Set(t, k, v)[1..] == Set(t[1..], k, v);
      }
    }
  }

  /** Assignment never gives an object a second copy of a property. */
  lemma SetKeepsUniqueKeys<V>(t: Props<V>, k: string, v: V)
    requires UniqueKeys(t)
    ensures UniqueKeys(Set(t, k, v))
  {
    var r := Set(t, k, v);
    var ks, rs := Keys(t), Keys(r);
    SetKeys(t, k, v);
    forall i, j | 0 <= i < j < |r|
      ensures r[i].0 != r[j].0
    {
      assert rs[i] == r[i].0 && rs[j] == r[j].0;
      if k !in ks && j == |t| {
        assert rs[i] == ks[i];
      } else {
        assert rs[i] == ks[i] && rs[j] == ks[j];
      }
    }
  }

  /** In an object without repeated keys, `Get` finds the value stored at the key's position. */
  lemma GetAt<V>(t: Props<V>, i: nat)
    requires UniqueKeys(t) && i < |t|
    ensures Get(t, t[i].0) == Some(t[i].1)
  {
    if i > 0 {
      GetAt(t[1..], i - 1);
    }
  }

  /** Assigning a property the object lacks appends it at the end. */
  lemma {:induction false} SetAbsentAppends<V>(t: Props<V>, k: string, v: V)
    requires k !in Keys(t)
    ensures Set(t, k, v) == t + [(k, v)]
  {
    if t != [] {
      assert k !in Keys(t[1..]);
      SetAbsentAppends(t[1..], k, v);
      assert Set(t, k, v) == [t[0]] + Set(t[1..], k, v);
      assert t == [t[0]] + t[1..];
    }
  }

  /** `r` starts with the keys of `t`, in the same places. */
  predicate KeysExtend<V>(t: Props<V>, r: Props<V>)
  {
    |t| <= |r| && forall i :: 0 <= i < |t| ==> r[i].0 == t[i].0
  }

  /** Setting a key never moves an existing key: it overwrites in place or appends. */
  lemma SetExtendsKeys<V>(t: Props<V>, k: string, v: V)
    ensures KeysExtend(t, Set(t, k, v))
  {
    var r := Set(t, k, v);
    SetKeys(t, k, v);
    forall i | 0 <= i < |t|
      ensures r[i].0 == t[i].0
    {
      assert Keys(r)[i] == Keys(t)[i];
    }
  }

  /** `t[k] = t[k]` on a present property changes nothing. */
  lemma {:induction false} SetExisting<V>(t: Props<V>, k: string)
    requires Get(t, k).Some?
    ensures Set(t, k, Get(t, k).value) == t
  {
    assert t == [t[0]] + t[1..];
    var w := Get(t, k).value;
    if t[0].0 == k {
      assert t[0] == (k, w);
    } else {
      assert Get(t[1..], k) == Get(t, k);
      SetExisting(t[1..], k);
      assert Set(t, k, w) == [t[0]] + Set(t[1..], k, w);
    }
  }

  /** The second of two assignments to the same property is the one that stays. */
  lemma {:induction false} SetTwice<V>(t: Props<V>, k: string, v: V, w: V)
    ensures Set(Set(t, k, v), k, w) == Set(t, k, w)
  {
    if t != [] && t[0].0 != k {
      SetTwice(t[1..], k, v, w);
      assert Set(t, k, v)[1..] == Set(t[1..], k, v);
    }
  }
}

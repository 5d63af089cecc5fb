/**
 * Values shared by the whole model: optional values and results, and JSON
 * objects seen as association lists in the key order `Object.keys` reports.
 */
module Common {

  datatype Option<+T> = None | Some(value: T)

  datatype Result<+T, +E> = Ok(value: T) | Err(error: E)

  /** A JSON object: its (key, value) properties in `Object.keys` order. */
  type Object<V> = seq<(string, V)>

  /** `Object.keys(o)`. */
  function Keys<V>(o: Object<V>): seq<string>
  {
    seq(|o|, i requires 0 <= i < |o| => o[i].0)
  }

  /** The property values of `o`, in key order. */
  function Values<V>(o: Object<V>): seq<V>
  {
    seq(|o|, i requires 0 <= i < |o| => o[i].1)
  }

  /** Every key occurs once, as in any object JavaScript builds. */
  predicate DistinctKeys<V>(o: Object<V>)
  {
    forall i, j :: 0 <= i < j < |o| ==> o[i].0 != o[j].0
  }

  /** Property read `o[k]`; `None` stands for `undefined`. */
  function Get<V>(o: Object<V>, k: string): (r: Option<V>)
    ensures r.None? <==> k !in Keys(o)
    ensures r.Some? ==> (k, r.value) in o
  {
    if |o| == 0 then None
    else
      KeysCons(o);
      if o[0].0 == k then Some(o[0].1) else Get(o[1..], k)
  }

  /** The keys of a non-empty object: its first key, then the keys of the rest. */
  lemma KeysCons<V>(o: Object<V>)
    requires |o| > 0
    ensures Keys(o) == [o[0].0] + Keys(o[1..])
  {
  }

  /** In an object with distinct keys, reading a key gives the value stored under it. */
  lemma {:induction false} GetDistinct<V>(o: Object<V>, k: string, v: V)
    requires DistinctKeys(o) && (k, v) in o
    ensures Get(o, k) == Some(v)
  {
    if o[0] != (k, v) {
      var i :| 0 <= i < |o| && o[i] == (k, v);
      assert o[1..][i - 1] == o[i];
      assert DistinctKeys(o[1..]) by {
        forall a, b | 0 <= a < b < |o[1..]| ensures o[1..][a].0 != o[1..][b].0 {
          assert o[1..][a] == o[a + 1] && o[1..][b] == o[b + 1];
        }
      }
      GetDistinct(o[1..], k, v);
    }
  }

  /**
   * Property write `o[k] = v`: an existing key keeps its position and takes
   * the new value, a new key is appended at the end.
   */
  function Put<V>(o: Object<V>, k: string, v: V): (r: Object<V>)
    ensures Keys(r) == if k in Keys(o) then Keys(o) else Keys(o) + [k]
  {
    if |o| == 0 then [(k, v)]
    else if o[0].0 == k then
      KeysCons(o);
      KeysCons([(k, v)] + o[1..]);
      assert ([(k, v)] + o[1..])[1..] == o[1..];
      [(k, v)] + o[1..]
    else
      var rest := Put(o[1..], k, v);
      KeysCons(o);
      KeysCons([o[0]] + rest);
      assert ([o[0]] + rest)[1..] == rest;
      [o[0]] + rest
  }

  /** After `o[k] = v`, reading `k` gives `v` and reading any other key is as before. */
  lemma {:induction false} PutGet<V>(o: Object<V>, k: string, v: V, k': string)
    ensures Get(Put(o, k, v), k') == if k' == k then Some(v) else Get(o, k')
  {
    if |o| > 0 && o[0].0 != k {
      PutGet(o[1..], k, v, k');
      assert ([o[0]] + Put(o[1..], k, v))[1..] == Put(o[1..], k, v);
    }
  }

  /** Object spread `{...o, ...src}`: the properties of `src` written onto `o` in order. */
  function Spread<V>(o: Object<V>, src: Object<V>): (r: Object<V>)
    ensures forall k :: k in Keys(r) <==> k in Keys(o) || k in Keys(src)
    ensures |r| >= |o| && Keys(r)[..|o|] == Keys(o)
  {
    if |src| == 0 then o
    else
      var n := |src| - 1;
      var last := src[n];
      var prev := Spread(o, src[..n]);
      var r := Put(prev, last.0, last.1);
      assert forall k :: k in Keys(src) <==> k in Keys(src[..n]) || k == last.0 by {
        assert src[..n] + [last] == src;
        KeysConcat(src[..n], [last]);
        assert Keys([last]) == [last.0];
      }
      assert Keys(r)[..|o|] == Keys(o) by {
        PutKeys(prev, last.0, last.1);
        assert Keys(r)[..|o|] == Keys(r)[..|prev|][..|o|];
      }
      PutKeys(prev, last.0, last.1);
      r
  }

  /** A write keeps the existing keys in front, in order, and adds at most its own key. */
  lemma PutKeys<V>(o: Object<V>, k: string, v: V)
    ensures |Put(o, k, v)| >= |o|
    ensures Keys(Put(o, k, v))[..|o|] == Keys(o)
    ensures forall k' :: k' in Keys(Put(o, k, v)) <==> k' in Keys(o) || k' == k
  {
  }

  lemma {:induction false} PutFresh<V>(o: Object<V>, k: string, v: V)
    requires k !in Keys(o)
    ensures Put(o, k, v) == o + [(k, v)]
  {
    if |o| > 0 {
      assert Keys(o)[0] == o[0].0;
      assert k !in Keys(o[1..]) by {
        forall i | 0 <= i < |o| - 1 ensures Keys(o[1..])[i] != k {
          assert Keys(o[1..])[i] == Keys(o)[i + 1];
        }
      }
      PutFresh(o[1..], k, v);
      assert o == [o[0]] + o[1..];
    }
  }

  /** No key of `src` is a key of `o`. */
  predicate NoneOfKeys<V>(src: Object<V>, o: Object<V>)
  {
    forall i :: 0 <= i < |src| ==> src[i].0 !in Keys(o)
  }

  /** Both halves of an object with distinct keys have distinct keys, and no key in common. */
  lemma DistinctSplit<V>(x: Object<V>, y: Object<V>)
    requires DistinctKeys(x + y)
    ensures DistinctKeys(x) && DistinctKeys(y) && NoneOfKeys(y, x)
  {
    var xy := x + y;
    assert DistinctKeys(x) by {
      forall i, j | 0 <= i < j < |x| ensures x[i].0 != x[j].0 {
        assert x[i] == xy[i] && x[j] == xy[j];
      }
    }
    assert DistinctKeys(y) by {
      forall i, j | 0 <= i < j < |y| ensures y[i].0 != y[j].0 {
        assert y[i] == xy[|x| + i] && y[j] == xy[|x| + j];
      }
    }
    forall i | 0 <= i < |y| ensures y[i].0 !in Keys(x) {
      forall j | 0 <= j < |x| ensures Keys(x)[j] != y[i].0 {
        assert xy[j] == x[j] && xy[|x| + i] == y[i];
      }
    }
  }

  /** Two objects with distinct keys and no key in common join into one with distinct keys. */
  lemma DistinctJoin<V>(x: Object<V>, y: Object<V>)
    requires DistinctKeys(x) && DistinctKeys(y) && NoneOfKeys(y, x)
    ensures DistinctKeys(x + y)
  {
    var xy := x + y;
    forall i, j | 0 <= i < j < |xy| ensures xy[i].0 != xy[j].0 {
      if j >= |x| {
        assert xy[j] == y[j - |x|];
        if i < |x| {
          assert xy[i].0 == Keys(x)[i];
        }
      }
    }
  }

  /** Spreading properties none of whose keys is already present appends them in order. */
  lemma {:induction false} SpreadDisjoint<V>(o: Object<V>, src: Object<V>)
    requires DistinctKeys(src)
    requires NoneOfKeys(src, o)
    ensures Spread(o, src) == o + src
  {
    if |src| > 0 {
      var n := |src| - 1;
      var init, last := src[..n], src[n];
      assert src == init + [last];
      DistinctSplit(init, [last]);
      NoneOfKeysPrefix(src, o, n);
      SpreadDisjoint(o, init);
      FreshAfterJoin(o, init, last.0);
      PutFresh(o + init, last.0, last.1);
      assert o + init + [last] == o + src;
    }
  }

  lemma NoneOfKeysPrefix<V>(src: Object<V>, o: Object<V>, n: nat)
    requires n <= |src| && NoneOfKeys(src, o)
    ensures NoneOfKeys(src[..n], o)
  {
    forall i | 0 <= i < n ensures src[..n][i].0 !in Keys(o) {
      assert src[..n][i] == src[i];
    }
  }

  lemma FreshAfterJoin<V>(o: Object<V>, init: Object<V>, k: string)
    requires k !in Keys(o) && k !in Keys(init)
    ensures k !in Keys(o + init)
  {
    KeysConcat(o, init);
  }

  lemma KeysConcat<V>(a: Object<V>, b: Object<V>)
    ensures Keys(a + b) == Keys(a) + Keys(b)
  {
    assert |Keys(a + b)| == |Keys(a) + Keys(b)|;
    forall i | 0 <= i < |a| + |b|
      ensures Keys(a + b)[i] == (Keys(a) + Keys(b))[i]
    {
    }
  }

  /** Spreading onto an object properties that keep all keys distinct appends them. */
  lemma SpreadAppends<V>(o: Object<V>, src: Object<V>)
    requires DistinctKeys(o + src)
    ensures Spread(o, src) == o + src
  {
    DistinctSplit(o, src);
    SpreadDisjoint(o, src);
  }

  /** Flattening of a sequence of sequences, first to last. */
  function Concat<T>(ss: seq<seq<T>>): seq<T>
  {
    if |ss| == 0 then [] else ss[0] + Concat(ss[1..])
  }

  lemma {:induction false} ConcatSnoc<T>(ss: seq<seq<T>>, s: seq<T>)
    ensures Concat(ss + [s]) == Concat(ss) + s
  {
    if |ss| == 0 {
      assert ss + [s] == [s];
    } else {
      assert (ss + [s])[1..] == ss[1..] + [s];
      ConcatSnoc(ss[1..], s);
    }
  }
}

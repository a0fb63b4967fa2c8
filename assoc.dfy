/**
  Association lists: the model of a JavaScript object whose key order matters.
  Assigning `o[k] = v` replaces the value in place when `k` is already a key and
  appends a new last key otherwise, which is what `Set` does.
 */
module AssocList {
  import opened Wrappers

  type Entries<V> = seq<(string, V)>

  /** The keys, in insertion order (`Object.keys`). */
  function Keys<V>(fs: Entries<V>): (ks: seq<string>)
    ensures |ks| == |fs|
    ensures forall i :: 0 <= i < |fs| ==> ks[i] == fs[i].0
  {
    if fs == [] then [] else [fs[0].0] + Keys(fs[1..])
  }

  /** The values, in key order (`Object.values`). */
  function Values<V>(fs: Entries<V>): (vs: seq<V>)
    ensures |vs| == |fs|
    ensures forall i :: 0 <= i < |fs| ==> vs[i] == fs[i].1
  {
    if fs == [] then [] else [fs[0].1] + Values(fs[1..])
  }

  predicate Distinct(ks: seq<string>) {
    forall i, j :: 0 <= i < j < |ks| ==> ks[i] != ks[j]
  }

  /** A JavaScript object never holds the same key twice. */
  predicate DistinctKeys<V>(fs: Entries<V>) {
    Distinct(Keys(fs))
  }

  /** Property lookup: `Some(o[k])` when `k` is a key, `None` for `undefined`. */
  function Get<V>(fs: Entries<V>, k: string): (r: Option<V>)
    ensures r.Some? <==> k in Keys(fs)
    ensures r.Some? ==> (k, r.value) in fs
  {
    if fs == [] then None
    else if fs[0].0 == k then Some(fs[0].1)
    else Get(fs[1..], k)
  }

  /** Property assignment `o[k] = v`. */
  function Set<V>(fs: Entries<V>, k: string, v: V): Entries<V> {
    if fs == [] then [(k, v)]
    else if fs[0].0 == k then [(k, v)] + fs[1..]
    else [fs[0]] + Set(fs[1..], k, v)
  }

  /** An assignment keeps the key order; a new key becomes the last one, with
      the new entry appended. */
  lemma {:induction false} SetKeys<V>(fs: Entries<V>, k: string, v: V)
    ensures Keys(Set(fs, k, v)) == if k in Keys(fs) then Keys(fs) else Keys(fs) + [k]
    ensures k !in Keys(fs) ==> Set(fs, k, v) == fs + [(k, v)]
  {
    if fs != [] {
      assert Keys(fs) == [fs[0].0] + Keys(fs[1..]);
      if fs[0].0 == k {
        assert Keys([(k, v)] + fs[1..]) == [k] + Keys(fs[1..]);
      } else {
        var tail := Set(fs[1..], k, v);
        SetKeys(fs[1..], k, v);
        assert ([fs[0]] + tail)[1..] == tail;
        assert Keys([fs[0]] + tail) == [fs[0].0] + Keys(tail);
      }
    }
  }

  /** After `o[k] = v`, reading `o[k]` gives `v`. */
  lemma {:induction false} SetGet<V>(fs: Entries<V>, k: string, v: V)
    ensures Get(Set(fs, k, v), k) == Some(v)
  {
    if fs != [] && fs[0].0 != k {
      SetGet(fs[1..], k, v);
    }
  }

  /** Assigning one key leaves every other key's value alone. */
  lemma {:induction false} SetOther<V>(fs: Entries<V>, k: string, v: V, k': string)
    requires k' != k
    ensures Get(Set(fs, k, v), k') == Get(fs, k')
  {
    if fs != [] && fs[0].0 != k {
      SetOther(fs[1..], k, v, k');
    }
  }

  lemma SetDistinct<V>(fs: Entries<V>, k: string, v: V)
    requires DistinctKeys(fs)
    ensures DistinctKeys(Set(fs, k, v))
  {
    SetKeys(fs, k, v);
  }

  /** With distinct keys, `Get` finds the entry that holds the key. */
  lemma {:induction false} GetDistinct<V>(fs: Entries<V>, i: nat)
    requires DistinctKeys(fs) && i < |fs|
    ensures Get(fs, fs[i].0) == Some(fs[i].1)
  {
    if i > 0 {
      assert Keys(fs[1..]) == Keys(fs)[1..];
      assert fs[0].0 != fs[i].0 by { assert Keys(fs)[0] != Keys(fs)[i]; }
      GetDistinct(fs[1..], i - 1);
    }
  }

  /** `o[k] = v` brings in no entry other than `(k, v)`. */
  lemma {:induction false} SetEntries<V>(fs: Entries<V>, k: string, v: V, e: (string, V))
    requires e in Set(fs, k, v)
    ensures e in fs || e == (k, v)
  {
    if fs != [] && fs[0].0 != k && e != fs[0] {
      assert e in Set(fs[1..], k, v);
      SetEntries(fs[1..], k, v, e);
    }
  }

  /** With distinct keys, no entry's key occurs among the keys before it. */
  lemma KeyNotEarlier<V>(fs: Entries<V>, n: nat)
    requires DistinctKeys(fs) && 0 < n <= |fs|
    ensures fs[n - 1].0 !in Keys(fs[..n - 1])
  {
  }

  /** Looking up a key after appending an entry. */
  lemma {:induction false} GetAppend<V>(fs: Entries<V>, k': string, v: V, k: string)
    ensures Get(fs + [(k', v)], k) == if k in Keys(fs) then Get(fs, k) else if k == k' then Some(v) else None
  {
    if fs != [] {
      assert (fs + [(k', v)])[1..] == fs[1..] + [(k', v)];
      assert Keys(fs) == [fs[0].0] + Keys(fs[1..]);
      GetAppend(fs[1..], k', v, k);
    }
  }

  /** Assigning the same key twice keeps only the second value. */
  lemma {:induction false} SetSet<V>(fs: Entries<V>, k: string, v: V, w: V)
    ensures Set(Set(fs, k, v), k, w) == Set(fs, k, w)
  {
    if fs != [] && fs[0].0 != k {
      SetSet(fs[1..], k, v, w);
      assert Set(fs, k, v)[1..] == Set(fs[1..], k, v);
    }
  }

  /** `Object.assign(o, src)`, and the spread `{...o, ...src}`: the entries of
      `src` assigned one after the other. */
  function SetAll<V>(fs: Entries<V>, src: Entries<V>): Entries<V>
    decreases |src|
  {
    if src == [] then fs else SetAll(Set(fs, src[0].0, src[0].1), src[1..])
  }

  /** After the assignments, a key of `src` reads its value there; every other
      key reads what it read before. */
  lemma {:induction false} SetAllGet<V>(fs: Entries<V>, src: Entries<V>, k: string)
    requires DistinctKeys(src)
    ensures Get(SetAll(fs, src), k) == if k in Keys(src) then Get(src, k) else Get(fs, k)
    decreases |src|
  {
    if src != [] {
      var (k0, v0) := src[0];
      assert Keys(src) == [k0] + Keys(src[1..]);
      assert DistinctKeys(src[1..]) by {
        forall i, j | 0 <= i < j < |src[1..]| ensures Keys(src[1..])[i] != Keys(src[1..])[j] {
          assert Keys(src)[i + 1] != Keys(src)[j + 1];
        }
      }
      SetAllGet(Set(fs, k0, v0), src[1..], k);
      if k == k0 {
        assert k !in Keys(src[1..]) by {
          forall j | 0 <= j < |src[1..]| ensures Keys(src[1..])[j] != k {
            assert Keys(src)[0] != Keys(src)[j + 1];
          }
        }
        SetGet(fs, k0, v0);
      } else {
        SetOther(fs, k0, v0, k);
      }
    }
  }

  /** After the assignments, the keys are those the object had and those of `src`. */
  lemma {:induction false} SetAllKeys<V>(fs: Entries<V>, src: Entries<V>)
    ensures forall k :: k in Keys(SetAll(fs, src)) <==> k in Keys(fs) || k in Keys(src)
    decreases |src|
  {
    if src != [] {
      SetKeys(fs, src[0].0, src[0].1);
      SetAllKeys(Set(fs, src[0].0, src[0].1), src[1..]);
      assert Keys(src) == [src[0].0] + Keys(src[1..]);
    }
  }

  /** With distinct keys, a key that is there is found at its one position. */
  lemma GetAt<V>(fs: Entries<V>, k: string) returns (i: nat)
    requires DistinctKeys(fs) && k in Keys(fs)
    ensures i < |fs| && fs[i].0 == k && Get(fs, k) == Some(fs[i].1)
  {
    var ks := Keys(fs);
    i :| i < |ks| && ks[i] == k;
    GetDistinct(fs, i);
  }

  /** The entry a successful lookup reads. */
  lemma GetIndex<V>(fs: Entries<V>, k: string) returns (i: nat)
    requires Get(fs, k).Some?
    ensures i < |fs| && fs[i] == (k, Get(fs, k).value)
  {
    i :| 0 <= i < |fs| && fs[i] == (k, Get(fs, k).value);
  }
}

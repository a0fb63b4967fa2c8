/**
  What `flattenObject` and `unflattenObject` promise about each other. The
  flattened keys are the dotted paths of the leaves, in walk order. Unflattening
  them rebuilds the object when no key holds a dot or reads as a number and no
  nested object or array is empty.
 */
module FlattenProps {
  import opened Wrappers
  import opened AssocList
  import opened Js
  import opened Seqs
  import opened Flattening

  // ---------------------------------------------------------------------------
  // Leaf paths

  predicate NonEmptyPaths(segs: seq<PathLeaf>) {
    forall a :: 0 <= a < |segs| ==> segs[a].0 != []
  }

  /** Every path is non-empty and no key on it holds a dot. */
  predicate PathsOk(segs: seq<PathLeaf>) {
    forall a :: 0 <= a < |segs| ==> segs[a].0 != [] && DotFreePath(segs[a].0)
  }

  predicate PathsDistinct(segs: seq<PathLeaf>) {
    forall a, b :: 0 <= a < b < |segs| ==> segs[a].0 != segs[b].0
  }

  /** One flattened entry per leaf, in walk order. */
  function Joined(segs: seq<PathLeaf>): (r: Fields)
    ensures |r| == |segs|
    ensures forall a :: 0 <= a < |segs| ==> r[a] == (Join(segs[a].0, '.'), segs[a].1)
  {
    seq(|segs|, a requires 0 <= a < |segs| => (Join(segs[a].0, '.'), segs[a].1))
  }

  /** No two leaves share a dotted key. */
  predicate JoinsDistinct(segs: seq<PathLeaf>) {
    forall a, b :: 0 <= a < b < |segs| ==> Join(segs[a].0, '.') != Join(segs[b].0, '.')
  }

  /** Distinct dot-free paths give distinct dotted keys. */
  lemma JoinedDistinct(segs: seq<PathLeaf>)
    requires PathsOk(segs) && PathsDistinct(segs)
    ensures JoinsDistinct(segs)
  {
    forall a, b | 0 <= a < b < |segs| ensures Join(segs[a].0, '.') != Join(segs[b].0, '.') {
      if Join(segs[a].0, '.') == Join(segs[b].0, '.') {
        JoinInjective(segs[a].0, segs[b].0);
      }
    }
  }

  /** A dotted key that neither `acc` nor any of the leaves has is not a key
      of `acc` followed by the leaves' entries. */
  lemma FreshKey(acc: Fields, segs: seq<PathLeaf>, k: string)
    requires k !in Keys(acc)
    requires forall a :: 0 <= a < |segs| ==> Join(segs[a].0, '.') != k
    ensures k !in Keys(acc + Joined(segs))
  {
    var all := acc + Joined(segs);
    forall i | 0 <= i < |all| ensures all[i].0 != k {
      if i < |acc| {
        assert Keys(acc)[i] == acc[i].0;
      } else {
        assert all[i] == Joined(segs)[i - |acc|];
      }
    }
  }

  lemma JoinedSnoc(segs: seq<PathLeaf>)
    requires segs != []
    ensures Joined(segs) == Joined(segs[..|segs| - 1]) + [(Join(segs[|segs| - 1].0, '.'), segs[|segs| - 1].1)]
  {
  }

  /** With no dotted key repeated, and none already in `acc`, each write adds a
      new last entry. */
  lemma {:induction false} WriteAllFresh(acc: Fields, segs: seq<PathLeaf>)
    requires forall a :: 0 <= a < |segs| ==> Join(segs[a].0, '.') !in Keys(acc)
    requires JoinsDistinct(segs)
    ensures WriteAll(acc, segs) == acc + Joined(segs)
    decreases |segs|
  {
    if segs != [] {
      var n := |segs| - 1;
      var init := segs[..n];
      WriteAllFresh(acc, init);
      var k := Join(segs[n].0, '.');
      FreshKey(acc, init, k);
      SetKeys(acc + Joined(init), k, segs[n].1);
      JoinedSnoc(segs);
      AppendAssoc(acc, Joined(init), [(k, segs[n].1)]);
      assert WriteAll(acc, segs) == Set(WriteAll(acc, init), k, segs[n].1);
    }
  }

  /** Leaves with distinct dot-free paths are written as one new key each. */
  lemma WriteJoined(segs: seq<PathLeaf>)
    requires PathsOk(segs) && PathsDistinct(segs)
    ensures WriteAll([], segs) == Joined(segs)
    ensures DistinctKeys(Joined(segs))
  {
    JoinedDistinct(segs);
    assert [] + Joined(segs) == Joined(segs);
    WriteAllFresh([], segs);
    var ks := Keys(Joined(segs));
    forall a, b | 0 <= a < b < |ks| ensures ks[a] != ks[b] {
      assert ks[a] == Join(segs[a].0, '.') && ks[b] == Join(segs[b].0, '.');
    }
  }

  // ---------------------------------------------------------------------------
  // Inserting leaves by path

  /** `unflattenObject`'s outer loop fed with the leaves' paths rather than
      their dotted keys. */
  function InsertSegs(acc: Json, segs: seq<PathLeaf>): Result<Json, UnflatError>
    requires NonEmptyPaths(segs)
    decreases |segs|
  {
    if segs == [] then Ok(acc)
    else
      var last := segs[|segs| - 1];
      match InsertSegs(acc, segs[..|segs| - 1])
      case Err(e) => Err(e)
      case Ok(a) => Insert(a, last.0, last.1)
  }

  /** Splitting each dotted key gives back its path, so unflattening the joined
      entries inserts the leaves by path. */
  lemma {:induction false} UnflattenJoined(acc: Json, segs: seq<PathLeaf>)
    requires PathsOk(segs)
    ensures UnflattenFrom(acc, Joined(segs)) == InsertSegs(acc, segs)
    decreases |segs|
  {
    if segs != [] {
      var n := |segs| - 1;
      assert Joined(segs)[..n] == Joined(segs[..n]);
      UnflattenJoined(acc, segs[..n]);
      SplitJoin(segs[n].0, '.');
    }
  }

  /** Goes on from `r` with `segs`, unless `r` is already an error. */
  function Then(r: Result<Json, UnflatError>, segs: seq<PathLeaf>): Result<Json, UnflatError>
    requires NonEmptyPaths(segs)
  {
    match r
    case Err(e) => Err(e)
    case Ok(x) => InsertSegs(x, segs)
  }

  lemma {:induction false} InsertSegsAppend(acc: Json, a: seq<PathLeaf>, b: seq<PathLeaf>)
    requires NonEmptyPaths(a) && NonEmptyPaths(b)
    ensures NonEmptyPaths(a + b)
    ensures InsertSegs(acc, a + b) == Then(InsertSegs(acc, a), b)
    decreases |b|
  {
    if b == [] {
      assert a + b == a;
    } else {
      DropLastOfAppend(a, b);
      InsertSegsAppend(acc, a, b[..|b| - 1]);
    }
  }

  /** Inserting the leaves `segs` into `acc` gives `r`. */
  predicate Rebuilds(acc: Json, segs: seq<PathLeaf>, r: Json) {
    NonEmptyPaths(segs) && InsertSegs(acc, segs) == Ok(r)
  }

  /** Inserting `s0` and then `es` goes through the value between them. */
  lemma InsertChain(acc: Json, s0: seq<PathLeaf>, es: seq<PathLeaf>, p: Json, q: Json)
    requires NonEmptyPaths(s0) && NonEmptyPaths(es)
    requires InsertSegs(acc, s0) == Ok(p) && InsertSegs(p, es) == Ok(q)
    ensures NonEmptyPaths(s0 + es) && InsertSegs(acc, s0 + es) == Ok(q)
  {
    InsertSegsAppend(acc, s0, es);
  }

  predicate SameKind(a: Json, b: Json) {
    (a.Obj? && b.Obj?) || (a.Arr? && b.Arr?)
  }

  /** Inserting into an object gives an object, into an array an array. */
  lemma {:induction false} InsertSegsKind(acc: Json, segs: seq<PathLeaf>)
    requires NonEmptyPaths(segs) && (acc.Obj? || acc.Arr?)
    requires InsertSegs(acc, segs).Ok?
    ensures SameKind(acc, InsertSegs(acc, segs).value)
    decreases |segs|
  {
    if segs != [] {
      var n := |segs| - 1;
      InsertSegsKind(acc, segs[..n]);
      InsertKind(InsertSegs(acc, segs[..n]).value, segs[n].0, segs[n].1);
    }
  }

  /** The object `pre` followed by the key `k` holding the result. */
  function InObj(r: Result<Json, UnflatError>, pre: Fields, k: string): Result<Json, UnflatError> {
    match r
    case Err(e) => Err(e)
    case Ok(x) => Ok(Obj(pre + [(k, x)]))
  }

  /** The array `items` followed by the result. */
  function InArr(r: Result<Json, UnflatError>, items: seq<Json>): Result<Json, UnflatError> {
    match r
    case Err(e) => Err(e)
    case Ok(x) => Ok(Arr(items + [x]))
  }

  /** Assigning the last key again replaces its value where it stands. */
  lemma SetLast(pre: Fields, k: string, c: Json, c': Json)
    requires k !in Keys(pre)
    ensures Set(pre + [(k, c)], k, c') == pre + [(k, c')]
  {
    SetKeys(pre, k, c);
    SetKeys(pre, k, c');
    SetSet(pre, k, c, c');
  }

  /** A path below an existing object or array under the last key reuses it. */
  lemma ObjChild(pre: Fields, k: string, x: Json, p: Path, v: Json)
    requires k !in Keys(pre) && (x.Obj? || x.Arr?) && p != []
    ensures Insert(Obj(pre + [(k, x)]), [k] + p, v) == InObj(Insert(x, p, v), pre, k)
  {
    var keys := [k] + p;
    assert keys[0] == k && keys[1..] == p && keys[1] == p[0];
    GetAppend(pre, k, x, k);
    assert Prop(pre + [(k, x)], k) == x;
    match Insert(x, p, v)
    case Err(_) =>
    case Ok(c) => SetLast(pre, k, x, c);
  }

  /** The first path below a key the object does not have yet creates its container. */
  lemma ObjFirst(pre: Fields, k: string, p: Path, v: Json)
    requires k !in Keys(pre) && p != []
    ensures Insert(Obj(pre), [k] + p, v) == InObj(Insert(Container(p[0]), p, v), pre, k)
  {
    var keys := [k] + p;
    assert keys[0] == k && keys[1..] == p && keys[1] == p[0];
    assert Prop(pre, k) == Undefined;
    match Insert(Container(p[0]), p, v)
    case Err(_) =>
    case Ok(c) => SetKeys(pre, k, c);
  }

  /** `String(i)` is a canonical numeric key. */
  lemma IndexKey(i: nat)
    ensures IsNumeric(NatToString(i))
    ensures DigitsValue(NatToString(i)) == i
    ensures DotFree(NatToString(i))
  {
    DigitsValueOfNatToString(i);
  }

  /** A path below the array's last element reuses that element. */
  lemma ArrChild(items: seq<Json>, k: string, x: Json, p: Path, v: Json)
    requires k == NatToString(|items|) && (x.Obj? || x.Arr?) && p != []
    ensures Insert(Arr(items + [x]), [k] + p, v) == InArr(Insert(x, p, v), items)
  {
    var keys := [k] + p;
    assert keys[0] == k && keys[1..] == p && keys[1] == p[0];
    IndexKey(|items|);
    assert (items + [x])[|items|] == x;
    match Insert(x, p, v)
    case Err(_) =>
    case Ok(c) => assert (items + [x])[|items| := c] == items + [c];
  }

  /** The first path below the next index creates the element's container. */
  lemma ArrFirst(items: seq<Json>, k: string, p: Path, v: Json)
    requires k == NatToString(|items|) && p != []
    ensures Insert(Arr(items), [k] + p, v) == InArr(Insert(Container(p[0]), p, v), items)
  {
    var keys := [k] + p;
    assert keys[0] == k && keys[1..] == p && keys[1] == p[0];
    IndexKey(|items|);
  }

  lemma {:induction false} LiftObj(pre: Fields, k: string, c: Json, segs: seq<PathLeaf>)
    requires k !in Keys(pre) && (c.Obj? || c.Arr?) && NonEmptyPaths(segs)
    ensures NonEmptyPaths(Under([k], segs))
    ensures InsertSegs(Obj(pre + [(k, c)]), Under([k], segs)) == InObj(InsertSegs(c, segs), pre, k)
    decreases |segs|
  {
    if segs != [] {
      var n := |segs| - 1;
      assert Under([k], segs)[..n] == Under([k], segs[..n]);
      LiftObj(pre, k, c, segs[..n]);
      match InsertSegs(c, segs[..n])
      case Err(_) =>
      case Ok(x) =>
        InsertSegsKind(c, segs[..n]);
        ObjChild(pre, k, x, segs[n].0, segs[n].1);
    }
  }

  lemma {:induction false} LiftArr(items: seq<Json>, k: string, c: Json, segs: seq<PathLeaf>)
    requires k == NatToString(|items|) && (c.Obj? || c.Arr?) && NonEmptyPaths(segs)
    ensures NonEmptyPaths(Under([k], segs))
    ensures InsertSegs(Arr(items + [c]), Under([k], segs)) == InArr(InsertSegs(c, segs), items)
    decreases |segs|
  {
    if segs != [] {
      var n := |segs| - 1;
      assert Under([k], segs)[..n] == Under([k], segs[..n]);
      LiftArr(items, k, c, segs[..n]);
      match InsertSegs(c, segs[..n])
      case Err(_) =>
      case Ok(x) =>
        InsertSegsKind(c, segs[..n]);
        ArrChild(items, k, x, segs[n].0, segs[n].1);
    }
  }

  /** Each path gains the prefix, so none is empty. */
  lemma UnderNonEmpty(prefix: Path, segs: seq<PathLeaf>)
    requires prefix != []
    ensures NonEmptyPaths(Under(prefix, segs))
  {
  }

  lemma InsertOne(acc: Json, s: PathLeaf)
    requires s.0 != []
    ensures NonEmptyPaths([s])
    ensures InsertSegs(acc, [s]) == Insert(acc, s.0, s.1)
  {
    assert [s][..0] == [];
  }

  /** A single insertion into an object gives an object, into an array an array. */
  lemma InsertKind(node: Json, keys: seq<string>, v: Json)
    requires keys != [] && (node.Obj? || node.Arr?) && Insert(node, keys, v).Ok?
    ensures SameKind(node, Insert(node, keys, v).value)
  {
  }

  /** All the leaves below a new key `k` build the value of `k`, starting from
      the container the first of them creates. */
  lemma DescendObj(pre: Fields, k: string, segs: seq<PathLeaf>)
    requires k !in Keys(pre) && segs != [] && NonEmptyPaths(segs)
    ensures NonEmptyPaths(Under([k], segs))
    ensures InsertSegs(Obj(pre), Under([k], segs)) == InObj(InsertSegs(Container(segs[0].0[0]), segs), pre, k)
  {
    var s0, rest := segs[0], segs[1..];
    var e := Container(s0.0[0]);
    var u0 := ([k] + s0.0, s0.1);
    assert segs == [s0] + rest;
    assert Under([k], [s0]) == [u0];
    UnderAppend([k], [s0], rest);
    UnderNonEmpty([k], rest);
    InsertOne(Obj(pre), u0);
    InsertOne(e, s0);
    InsertSegsAppend(Obj(pre), [u0], Under([k], rest));
    InsertSegsAppend(e, [s0], rest);
    ObjFirst(pre, k, s0.0, s0.1);
    match Insert(e, s0.0, s0.1)
    case Err(_) =>
    case Ok(c) =>
      InsertKind(e, s0.0, s0.1);
      LiftObj(pre, k, c, rest);
  }

  /** All the leaves below the next index build that element. */
  lemma DescendArr(items: seq<Json>, k: string, segs: seq<PathLeaf>)
    requires k == NatToString(|items|) && segs != [] && NonEmptyPaths(segs)
    ensures NonEmptyPaths(Under([k], segs))
    ensures InsertSegs(Arr(items), Under([k], segs)) == InArr(InsertSegs(Container(segs[0].0[0]), segs), items)
  {
    var s0, rest := segs[0], segs[1..];
    var e := Container(s0.0[0]);
    var u0 := ([k] + s0.0, s0.1);
    assert segs == [s0] + rest;
    assert Under([k], [s0]) == [u0];
    UnderAppend([k], [s0], rest);
    UnderNonEmpty([k], rest);
    InsertOne(Arr(items), u0);
    InsertOne(e, s0);
    InsertSegsAppend(Arr(items), [u0], Under([k], rest));
    InsertSegsAppend(e, [s0], rest);
    ArrFirst(items, k, s0.0, s0.1);
    match Insert(e, s0.0, s0.1)
    case Err(_) =>
    case Ok(c) =>
      InsertKind(e, s0.0, s0.1);
      LiftArr(items, k, c, rest);
  }

  // ---------------------------------------------------------------------------
  // Objects that survive the round trip

  /** A key `unflattenObject` reads back as an object key: no dot, not a number. */
  predicate GoodKey(k: string) {
    DotFree(k) && !IsNumeric(k)
  }

  /** Objects and arrays have at least one entry; other values are leaves. */
  predicate NonEmpty(j: Json) {
    (j.Obj? ==> j.fields != []) && (j.Arr? ==> j.items != [])
  }

  /** No ObjectId, distinct keys that are good keys, and no empty object or
      array below the top. */
  predicate Good(j: Json)
    decreases j
  {
    match j
    case Obj(fs) =>
      DistinctKeys(fs) &&
      forall i {:trigger Good(fs[i].1)} :: 0 <= i < |fs| ==> GoodKey(fs[i].0) && NonEmpty(fs[i].1) && Good(fs[i].1)
    case Arr(items) =>
      forall i {:trigger Good(items[i])} :: 0 <= i < |items| ==> NonEmpty(items[i]) && Good(items[i])
    case ObjectId(_) => false
    case _ => true
  }

  /** An empty container of the same kind. */
  function Empty(j: Json): Json {
    if j.Arr? then Arr([]) else Obj([])
  }

  /** The first `n` entries of an object or array. */
  function Prefix(j: Json, n: nat): Json
    requires j.Obj? || j.Arr?
    requires n <= |ForIn(j)|
  {
    if j.Obj? then Obj(j.fields[..n]) else Arr(j.items[..n])
  }

  /** All the entries are the whole object or array. */
  lemma PrefixAll(j: Json)
    requires j.Obj? || j.Arr?
    ensures Prefix(j, |ForIn(j)|) == j
  {
    if j.Obj? {
      TakeAll(j.fields);
    } else {
      TakeAll(j.items);
    }
  }

  /** What a good object or array holds at its `i`-th key. */
  lemma GoodEntry(j: Json, i: nat)
    requires Good(j) && (j.Obj? || j.Arr?) && i < |ForIn(j)|
    ensures Good(ForIn(j)[i].1) && NonEmpty(ForIn(j)[i].1) && !ForIn(j)[i].1.ObjectId?
    ensures DotFree(ForIn(j)[i].0)
    ensures j.Obj? ==> ForIn(j)[i] == j.fields[i] && !IsNumeric(ForIn(j)[i].0)
    ensures j.Arr? ==> ForIn(j)[i] == (NatToString(i), j.items[i])
  {
    ForInEntry(j, i);
    IndexKey(i);
  }

  /** The keys of a good object or array are distinct. */
  lemma ForInDistinct(j: Json)
    requires Good(j) && (j.Obj? || j.Arr?)
    ensures DistinctKeys(ForIn(j))
    ensures forall a, b :: 0 <= a < b < |ForIn(j)| ==> ForIn(j)[a].0 != ForIn(j)[b].0
  {
    var ks := Keys(ForIn(j));
    forall a, b | 0 <= a < b < |ks| ensures ks[a] != ks[b] {
      if j.Arr? {
        IndexKey(a);
        IndexKey(b);
      } else {
        assert ks[a] == Keys(j.fields)[a] && ks[b] == Keys(j.fields)[b];
      }
    }
  }

  /** Shape of the leaves below the `i`-th key: at least one, each path starting
      with the key, dot-free and distinct. */
  lemma {:induction false} ShapeEntry(j: Json, i: nat)
    requires Good(j) && (j.Obj? || j.Arr?) && i < |ForIn(j)|
    ensures var es := EntrySegs(j, i, []);
      es != [] && PathsOk(es) && PathsDistinct(es) &&
      forall a :: 0 <= a < |es| ==> es[a].0[0] == ForIn(j)[i].0
    decreases j, 0
  {
    ForInEntry(j, i);
    GoodEntry(j, i);
    var (k, v) := ForIn(j)[i];
    if v.Obj? || v.Arr? {
      var segs := Segs(v, []);
      ShapeAll(v);
      assert EntrySegs(j, i, []) == Under([k], segs);
      UnderShape(k, segs);
    }
  }

  /** Putting a dot-free key in front keeps paths dot-free and distinct. */
  lemma UnderShape(k: string, segs: seq<PathLeaf>)
    requires DotFree(k) && PathsOk(segs) && PathsDistinct(segs)
    ensures var es := Under([k], segs);
      PathsOk(es) && PathsDistinct(es) && forall a :: 0 <= a < |es| ==> es[a].0[0] == k
  {
    var es := Under([k], segs);
    forall a | 0 <= a < |es|
      ensures es[a].0 != [] && DotFreePath(es[a].0) && es[a].0[0] == k
    {
      assert es[a].0 == [k] + segs[a].0;
    }
    forall a, b | 0 <= a < b < |es| ensures es[a].0 != es[b].0 {
      assert es[a].0[1..] == segs[a].0 && es[b].0[1..] == segs[b].0;
    }
  }

  /** Two runs of leaves whose paths start differently stay distinct when
      appended. */
  lemma AppendPaths(s0: seq<PathLeaf>, es: seq<PathLeaf>)
    requires PathsOk(s0) && PathsOk(es) && PathsDistinct(s0) && PathsDistinct(es)
    requires forall a, b :: 0 <= a < |s0| && 0 <= b < |es| ==> s0[a].0[0] != es[b].0[0]
    ensures PathsOk(s0 + es) && PathsDistinct(s0 + es)
  {
    var s := s0 + es;
    forall a, b | 0 <= a < b < |s| ensures s[a].0 != s[b].0 {
      if b >= |s0| {
        assert s[b] == es[b - |s0|];
        if a >= |s0| {
          assert s[a] == es[a - |s0|];
        }
      }
    }
  }

  /** The shape of the leaves of the first `n` keys of `fi`: paths dot-free and
      distinct, none starting with a later key, and the first one starting with
      the first key. */
  predicate PrefixShape(s: seq<PathLeaf>, fi: Fields, n: nat) {
    PathsOk(s) && PathsDistinct(s) &&
    (forall a, m :: 0 <= a < |s| && n <= m < |fi| ==> s[a].0[0] != fi[m].0) &&
    (n > 0 ==> s != [] && |fi| > 0 && s[0].0[0] == fi[0].0)
  }

  /** Adding the leaves of key `n - 1` keeps the shape. */
  lemma ShapeStep(fi: Fields, n: nat, s0: seq<PathLeaf>, es: seq<PathLeaf>)
    requires 0 < n <= |fi|
    requires forall a, b :: 0 <= a < b < |fi| ==> fi[a].0 != fi[b].0
    requires PrefixShape(s0, fi, n - 1) && (n == 1 ==> s0 == [])
    requires es != [] && PathsOk(es) && PathsDistinct(es)
    requires forall a :: 0 <= a < |es| ==> es[a].0[0] == fi[n - 1].0
    ensures PrefixShape(s0 + es, fi, n)
  {
    var s := s0 + es;
    AppendPaths(s0, es);
    forall a, m | 0 <= a < |s| && n <= m < |fi| ensures s[a].0[0] != fi[m].0 {
      if a >= |s0| {
        assert s[a] == es[a - |s0|];
      }
    }
  }

  lemma {:induction false} ShapePrefix(j: Json, n: nat)
    requires Good(j) && (j.Obj? || j.Arr?) && n <= |ForIn(j)|
    ensures PrefixShape(SegsFrom(j, n, []), ForIn(j), n)
    decreases j, 1, n
  {
    if n > 0 {
      ShapePrefix(j, n - 1);
      ShapeEntry(j, n - 1);
      ForInDistinct(j);
      ShapeStep(ForIn(j), n, SegsFrom(j, n - 1, []), EntrySegs(j, n - 1, []));
    }
  }

  /** Shape of all the leaves below a good object or array. */
  lemma ShapeAll(j: Json)
    requires Good(j) && (j.Obj? || j.Arr?)
    ensures var s := Segs(j, []);
      PathsOk(s) && PathsDistinct(s) &&
      (NonEmpty(j) ==> s != [] && s[0].0[0] == ForIn(j)[0].0)
    decreases j, 2
  {
    ShapePrefix(j, |ForIn(j)|);
  }

  /** The first leaf below a non-empty good object or array creates a container
      of its kind. */
  lemma FirstContainer(v: Json)
    requires Good(v) && NonEmpty(v) && (v.Obj? || v.Arr?)
    ensures Segs(v, []) != [] && Segs(v, [])[0].0 != []
    ensures Container(Segs(v, [])[0].0[0]) == Empty(v)
  {
    ShapeAll(v);
    GoodEntry(v, 0);
  }

  /** The entries up to key `i` and up to key `i + 1` of a good object or array. */
  lemma PrefixNext(j: Json, i: nat)
    requires (j.Obj? || j.Arr?) && i < |ForIn(j)|
    requires DistinctKeys(ForIn(j)) && (j.Obj? ==> !IsNumeric(ForIn(j)[i].0))
    ensures Prefix(j, i).Obj? || Prefix(j, i).Arr?
    ensures Prefix(j, i).Obj? ==>
              ForIn(j)[i].0 !in Keys(Prefix(j, i).fields) && !IsNumeric(ForIn(j)[i].0) &&
              Prefix(j, i + 1) == Obj(Prefix(j, i).fields + [ForIn(j)[i]])
    ensures Prefix(j, i).Arr? ==>
              ForIn(j)[i].0 == NatToString(|Prefix(j, i).items|) &&
              Prefix(j, i + 1) == Arr(Prefix(j, i).items + [ForIn(j)[i].1])
  {
    ForInEntry(j, i);
    if j.Obj? {
      KeyNotEarlier(j.fields, i + 1);
      TakeOneMore(j.fields, i);
    } else {
      TakeOneMore(j.items, i);
    }
  }

  /** The next entry of an object or array, as `Insert` adds it: after `p`
      comes the key `k` holding `v`, which makes `q`. */
  predicate NextEntry(p: Json, k: string, v: Json, q: Json) {
    (p.Obj? && k !in Keys(p.fields) && !IsNumeric(k) && q == Obj(p.fields + [(k, v)])) ||
    (p.Arr? && k == NatToString(|p.items|) && q == Arr(p.items + [v]))
  }

  /** The leaves below a nested value, inserted after `p`, add that value. */
  lemma NestedEntry(p: Json, k: string, v: Json, segs: seq<PathLeaf>, q: Json)
    requires NextEntry(p, k, v, q)
    requires segs != [] && NonEmptyPaths(segs) && InsertSegs(Container(segs[0].0[0]), segs) == Ok(v)
    ensures NonEmptyPaths(Under([k], segs))
    ensures InsertSegs(p, Under([k], segs)) == Ok(q)
  {
    if p.Obj? {
      DescendObj(p.fields, k, segs);
    } else {
      DescendArr(p.items, k, segs);
    }
  }

  /** A leaf inserted after `p` adds itself. */
  lemma LeafEntry(p: Json, k: string, v: Json, q: Json)
    requires NextEntry(p, k, v, q)
    ensures InsertSegs(p, [([k], v)]) == Ok(q)
  {
    InsertOne(p, ([k], v));
    if p.Obj? {
      SetKeys(p.fields, k, v);
    } else {
      IndexKey(|p.items|);
    }
  }

  /** Inserting the leaves of the `i`-th key after the first `i` entries adds that entry. */
  lemma {:induction false} BuildEntry(j: Json, i: nat)
    requires Good(j) && (j.Obj? || j.Arr?) && i < |ForIn(j)|
    ensures Rebuilds(Prefix(j, i), EntrySegs(j, i, []), Prefix(j, i + 1))
    decreases j, 0
  {
    ShapeEntry(j, i);
    GoodEntry(j, i);
    ForInDistinct(j);
    PrefixNext(j, i);
    var (k, v) := ForIn(j)[i];
    assert NextEntry(Prefix(j, i), k, v, Prefix(j, i + 1));
    if v.Obj? || v.Arr? {
      var segs := Segs(v, []);
      assert EntrySegs(j, i, []) == Under([k], segs);
      BuildAll(v);
      FirstContainer(v);
      NestedEntry(Prefix(j, i), k, v, segs, Prefix(j, i + 1));
    } else {
      assert EntrySegs(j, i, []) == [([k], v)];
      LeafEntry(Prefix(j, i), k, v, Prefix(j, i + 1));
    }
  }

  /** The first `n - 1` entries and then the `n`-th make the first `n`. */
  lemma PrefixChain(j: Json, m: nat)
    requires (j.Obj? || j.Arr?) && m < |ForIn(j)|
    requires Rebuilds(Empty(j), SegsFrom(j, m, []), Prefix(j, m))
    requires Rebuilds(Prefix(j, m), EntrySegs(j, m, []), Prefix(j, m + 1))
    ensures Rebuilds(Empty(j), SegsFrom(j, m + 1, []), Prefix(j, m + 1))
  {
    InsertChain(Empty(j), SegsFrom(j, m, []), EntrySegs(j, m, []), Prefix(j, m), Prefix(j, m + 1));
  }

  /** Inserting the leaves of the first `n` passes builds the first `n` entries. */
  lemma {:induction false} BuildPrefix(j: Json, n: nat)
    requires Good(j) && (j.Obj? || j.Arr?) && n <= |ForIn(j)|
    ensures Rebuilds(Empty(j), SegsFrom(j, n, []), Prefix(j, n))
    decreases j, 1, n
  {
    if n > 0 {
      var m := n - 1;
      BuildPrefix(j, m);
      BuildEntry(j, m);
      PrefixChain(j, m);
    }
  }

  /** Inserting all the leaves below a good object or array rebuilds it. */
  lemma BuildAll(j: Json)
    requires Good(j) && (j.Obj? || j.Arr?)
    ensures Rebuilds(Empty(j), Segs(j, []), j)
    decreases j, 2
  {
    BuildPrefix(j, |ForIn(j)|);
    PrefixAll(j);
  }

  // ---------------------------------------------------------------------------
  // The round trip

  /** With nothing skipped, the flattened object of a good object has one entry
      per leaf, keyed by the leaf's dotted path, in walk order. */
  lemma FlattenIsJoined(o: Json)
    requires Good(o) && (o.Obj? || o.Arr?)
    ensures Flatten(o, []) == Joined(Segs(o, []))
    ensures DistinctKeys(Flatten(o, []))
  {
    ShapeAll(o);
    WriteJoined(Segs(o, []));
  }

  /** `unflattenObject(flattenObject(o)) == o` for a good object. */
  lemma RoundTrip(o: Json)
    requires o.Obj? && Good(o)
    ensures UnflattenFrom(Obj([]), Flatten(o, [])) == Ok(o)
  {
    FlattenIsJoined(o);
    ShapeAll(o);
    UnflattenJoined(Obj([]), Segs(o, []));
    BuildAll(o);
  }
  // ---------------------------------------------------------------------------
  // What the flattened object holds, for any input

  /** A leaf as `flattenObject` writes it: its path is not empty, it is not an
      ObjectId, and an object or array is written whole only under a skipped key. */
  predicate LeafOk(s: PathLeaf, skipKeys: seq<string>) {
    s.0 != [] && !s.1.ObjectId? && (IsObjectLike(s.1) ==> s.0[|s.0| - 1] in skipKeys)
  }

  predicate LeavesOk(segs: seq<PathLeaf>, skipKeys: seq<string>) {
    forall a :: 0 <= a < |segs| ==> LeafOk(segs[a], skipKeys)
  }

  lemma UnderLeaves(k: string, segs: seq<PathLeaf>, skipKeys: seq<string>)
    requires LeavesOk(segs, skipKeys)
    ensures LeavesOk(Under([k], segs), skipKeys)
  {
    var es := Under([k], segs);
    forall a | 0 <= a < |es| ensures LeafOk(es[a], skipKeys) {
      var p := segs[a].0;
      assert es[a].0 == [k] + p;
      assert es[a].0[|es[a].0| - 1] == p[|p| - 1];
    }
  }

  lemma AppendLeaves(s0: seq<PathLeaf>, es: seq<PathLeaf>, skipKeys: seq<string>)
    requires LeavesOk(s0, skipKeys) && LeavesOk(es, skipKeys)
    ensures LeavesOk(s0 + es, skipKeys)
  {
    var s := s0 + es;
    forall a | |s0| <= a < |s| ensures LeafOk(s[a], skipKeys) {
      assert s[a] == es[a - |s0|];
    }
  }

  lemma {:induction false} LeavesEntry(j: Json, i: nat, skipKeys: seq<string>)
    requires i < |ForIn(j)|
    ensures LeavesOk(EntrySegs(j, i, skipKeys), skipKeys)
    decreases j, 0
  {
    ForInEntry(j, i);
    var (k, v) := ForIn(j)[i];
    if Descends(k, v, skipKeys) && !v.ObjectId? {
      assert EntrySegs(j, i, skipKeys) == Under([k], Segs(v, skipKeys));
      LeavesAll(v, skipKeys);
      UnderLeaves(k, Segs(v, skipKeys), skipKeys);
    } else {
      assert EntrySegs(j, i, skipKeys) == [([k], ConvertObjectId(v))];
    }
  }

  lemma {:induction false} LeavesPrefix(j: Json, n: nat, skipKeys: seq<string>)
    requires n <= |ForIn(j)|
    ensures LeavesOk(SegsFrom(j, n, skipKeys), skipKeys)
    decreases j, 1, n
  {
    if n > 0 {
      LeavesPrefix(j, n - 1, skipKeys);
      LeavesEntry(j, n - 1, skipKeys);
      AppendLeaves(SegsFrom(j, n - 1, skipKeys), EntrySegs(j, n - 1, skipKeys), skipKeys);
    }
  }

  /** Every leaf below any value is written under a non-empty path, is never an
      ObjectId, and is an object or array only under a skipped key. */
  lemma LeavesAll(j: Json, skipKeys: seq<string>)
    ensures LeavesOk(Segs(j, skipKeys), skipKeys)
    decreases j, 2
  {
    LeavesPrefix(j, |ForIn(j)|, skipKeys);
  }

  /** A value the flattened object may hold: never an ObjectId, and no object
      or array when nothing is skipped. */
  predicate FlatValue(v: Json, skipKeys: seq<string>) {
    !v.ObjectId? && (skipKeys == [] ==> !IsObjectLike(v))
  }

  lemma {:induction false} WriteAllValues(acc: Fields, segs: seq<PathLeaf>, skipKeys: seq<string>)
    requires forall e :: e in acc ==> FlatValue(e.1, skipKeys)
    requires LeavesOk(segs, skipKeys)
    ensures forall e :: e in WriteAll(acc, segs) ==> FlatValue(e.1, skipKeys)
    decreases |segs|
  {
    if segs != [] {
      var n := |segs| - 1;
      var last := segs[n];
      WriteAllValues(acc, segs[..n], skipKeys);
      assert LeafOk(last, skipKeys);
      forall e | e in WriteAll(acc, segs) ensures FlatValue(e.1, skipKeys) {
        SetEntries(WriteAll(acc, segs[..n]), Join(last.0, '.'), last.1, e);
      }
    }
  }

  /** `flattenObject` never leaves an ObjectId in its result, and with no keys
      to skip it leaves no object or array either: every value is a leaf. */
  lemma FlattenLeaves(obj: Json, skipKeys: seq<string>)
    ensures forall e :: e in Flatten(obj, skipKeys) ==> !e.1.ObjectId?
    ensures skipKeys == [] ==> forall e :: e in Flatten(obj, skipKeys) ==> !IsObjectLike(e.1)
  {
    LeavesAll(obj, skipKeys);
    WriteAllValues([], Segs(obj, skipKeys), skipKeys);
  }

  lemma {:induction false} WriteAllDistinct(acc: Fields, segs: seq<PathLeaf>)
    requires DistinctKeys(acc)
    ensures DistinctKeys(WriteAll(acc, segs))
    decreases |segs|
  {
    if segs != [] {
      var n := |segs| - 1;
      WriteAllDistinct(acc, segs[..n]);
      SetDistinct(WriteAll(acc, segs[..n]), Join(segs[n].0, '.'), segs[n].1);
    }
  }

  /** The result is a well-formed object: no key twice, a later leaf with the
      same dotted key overwriting the earlier one in place. */
  lemma FlattenDistinct(obj: Json, skipKeys: seq<string>)
    ensures DistinctKeys(Flatten(obj, skipKeys))
  {
    WriteAllDistinct([], Segs(obj, skipKeys));
  }
}

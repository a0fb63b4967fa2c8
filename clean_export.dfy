/**
  cleanExportData: the export view of a comune-level result tree. Each record is
  cut down to ten fields, and a state, region or province appears only once one
  comune under it has been exported, so branches without comuni vanish. A province
  node without a `comuni` map makes `Object.keys(undefined)` throw.
 */
module CleanExport {
  import opened Wrappers
  import opened AssocList
  import opened Js
  import opened ResultTree

  /** The fields of an exported record, in this order. */
  const ExportFields: seq<string> := ["business_status", "name", "formatted_address", "geometry", "provinciaID",
                                      "provinciaUUID", "rating", "reference", "regione", "state"]

  /** The object literal built for one record: each export field, read from the
      record (an absent field reads `undefined`). */
  function Project(el: Fields): (r: Fields)
    ensures Keys(r) == ExportFields
    ensures forall i :: 0 <= i < |r| ==> r[i].1 == Prop(el, ExportFields[i])
  {
    seq(|ExportFields|, i requires 0 <= i < |ExportFields| => (ExportFields[i], Prop(el, ExportFields[i])))
  }

  /** `tempComune.map(...)`: one projected record per record, in order. */
  function ProjectAll(records: seq<Fields>): (r: seq<Fields>)
    ensures |r| == |records|
    ensures forall i :: 0 <= i < |records| ==> r[i] == Project(records[i])
  {
    seq(|records|, i requires 0 <= i < |records| => Project(records[i]))
  }

  /** province -> comune -> records; the `{comuni: ...}` wrapper of each province is implicit. */
  type CleanRegion = Entries<Entries<seq<Fields>>>
  type CleanState = Entries<CleanRegion>
  type CleanTree = Entries<CleanState>

  /** The province whose node has no `comuni` map. */
  datatype CleanError = NoComuni(state: string, region: string, province: string)

  /** The entries whose cleaned value is non-empty, in order: those are the ones
      the lazy `if (!dataToReturn[...])` initialisations create. The first failure,
      in iteration order, aborts the whole export. */
  function Collect<B>(xs: seq<(string, Result<seq<B>, CleanError>)>): Result<Entries<seq<B>>, CleanError> {
    if xs == [] then Ok([])
    else
      match Collect(xs[..|xs| - 1])
      case Err(e) => Err(e)
      case Ok(o) =>
        var (k, v) := xs[|xs| - 1];
        match v
        case Err(e) => Err(e)
        case Ok(b) => if b == [] then Ok(o) else Ok(o + [(k, b)])
  }

  /** The comuni of one province, each list projected. */
  function CleanComuni(cs: Entries<seq<Fields>>): (r: Entries<seq<Fields>>)
    ensures Keys(r) == Keys(cs)
  {
    seq(|cs|, i requires 0 <= i < |cs| => (cs[i].0, ProjectAll(cs[i].1)))
  }

  function CleanProvince(s: string, r: string, p: string, leaf: Leaf): Result<Entries<seq<Fields>>, CleanError> {
    match leaf
    case ByComune(cs) => Ok(CleanComuni(cs))
    case _ => Err(NoComuni(s, r, p))
  }

  function ProvinceResults(s: string, r: string, ps: RegionNode): (xs: seq<(string, Result<Entries<seq<Fields>>, CleanError>)>)
    ensures Keys(xs) == Keys(ps)
  {
    seq(|ps|, i requires 0 <= i < |ps| => (ps[i].0, CleanProvince(s, r, ps[i].0, ps[i].1)))
  }

  function CleanRegionOf(s: string, r: string, ps: RegionNode): Result<CleanRegion, CleanError> {
    Collect(ProvinceResults(s, r, ps))
  }

  function RegionResults(s: string, rs: StateNode): (xs: seq<(string, Result<CleanRegion, CleanError>)>)
    ensures Keys(xs) == Keys(rs)
  {
    seq(|rs|, i requires 0 <= i < |rs| => (rs[i].0, CleanRegionOf(s, rs[i].0, rs[i].1)))
  }

  function CleanStateOf(s: string, rs: StateNode): Result<CleanState, CleanError> {
    Collect(RegionResults(s, rs))
  }

  function StateResults(t: Tree): (xs: seq<(string, Result<CleanState, CleanError>)>)
    ensures Keys(xs) == Keys(t)
  {
    seq(|t|, i requires 0 <= i < |t| => (t[i].0, CleanStateOf(t[i].0, t[i].1)))
  }

  /** What cleanExportData returns, or the error it throws. */
  function CleanTreeOf(t: Tree): Result<CleanTree, CleanError> {
    Collect(StateResults(t))
  }

  // ---------------------------------------------------------------------------
  // The nested forEach loops

  method CleanComuniLoop(cs: Entries<seq<Fields>>) returns (out: Entries<seq<Fields>>)
    ensures out == CleanComuni(cs)
  {
    out := [];
    var i := 0;
    while i < |cs|
      invariant 0 <= i <= |cs|
      invariant out == CleanComuni(cs[..i])
    {
      out := out + [(cs[i].0, ProjectAll(cs[i].1))];
      i := i + 1;
      assert out == CleanComuni(cs[..i]) by {
        assert |out| == |CleanComuni(cs[..i])|;
      }
    }
    assert cs[..i] == cs;
  }

  method CleanProvincesLoop(s: string, r: string, ps: RegionNode) returns (res: Result<CleanRegion, CleanError>)
    ensures res == CleanRegionOf(s, r, ps)
  {
    var out: CleanRegion := [];
    var i := 0;
    while i < |ps|
      invariant 0 <= i <= |ps|
      invariant Collect(ProvinceResults(s, r, ps)[..i]) == Ok(out)
    {
      var xs := ProvinceResults(s, r, ps);
      assert xs[..i + 1][..i] == xs[..i];
      var (p, leaf) := ps[i];
      if !leaf.ByComune? {
        res := Err(NoComuni(s, r, p));
        assert Collect(xs[..i + 1]) == res;
        CollectFailurePersists(xs, i + 1);
        return;
      }
      var comuni := CleanComuniLoop(leaf.comuni);
      if comuni != [] {
        out := out + [(p, comuni)];
      }
      i := i + 1;
    }
    assert ProvinceResults(s, r, ps)[..i] == ProvinceResults(s, r, ps);
    res := Ok(out);
  }

  method CleanRegionsLoop(s: string, rs: StateNode) returns (res: Result<CleanState, CleanError>)
    ensures res == CleanStateOf(s, rs)
  {
    var out: CleanState := [];
    var i := 0;
    while i < |rs|
      invariant 0 <= i <= |rs|
      invariant Collect(RegionResults(s, rs)[..i]) == Ok(out)
    {
      var xs := RegionResults(s, rs);
      assert xs[..i + 1][..i] == xs[..i];
      var provinces := CleanProvincesLoop(s, rs[i].0, rs[i].1);
      if provinces.Err? {
        res := Err(provinces.error);
        assert Collect(xs[..i + 1]) == res;
        CollectFailurePersists(xs, i + 1);
        return;
      }
      if provinces.value != [] {
        out := out + [(rs[i].0, provinces.value)];
      }
      i := i + 1;
    }
    assert RegionResults(s, rs)[..i] == RegionResults(s, rs);
    res := Ok(out);
  }

  /** Once an entry fails, the whole collection fails with that error. */
  lemma {:induction false} CollectFailurePersists<B>(xs: seq<(string, Result<seq<B>, CleanError>)>, n: nat)
    requires 0 < n <= |xs|
    requires Collect(xs[..n]).Err?
    ensures Collect(xs) == Collect(xs[..n])
    decreases |xs| - n
  {
    if n < |xs| {
      assert xs[..n + 1][..n] == xs[..n];
      CollectFailurePersists(xs, n + 1);
      assert Collect(xs[..n + 1]) == Collect(xs[..n]);
    } else {
      assert xs[..n] == xs;
    }
  }

  /** The collection fails exactly when one of its entries does. */
  lemma {:induction false} CollectErr<B>(xs: seq<(string, Result<seq<B>, CleanError>)>)
    ensures Collect(xs).Err? <==> exists i :: 0 <= i < |xs| && xs[i].1.Err?
  {
    if xs != [] {
      var init := xs[..|xs| - 1];
      CollectErr(init);
      if exists i :: 0 <= i < |init| && init[i].1.Err? {
        var i :| 0 <= i < |init| && init[i].1.Err?;
        assert xs[i].1.Err?;
      }
    }
  }

  /** An entry's value as the collection keeps it: cleaned and non-empty. */
  function Kept<B>(v: Option<Result<seq<B>, CleanError>>): Option<seq<B>> {
    if v.Some? && v.value.Ok? && v.value.value != [] then Some(v.value.value) else None
  }

  /** With distinct keys, the collection holds a key exactly when that key's
      entry cleaned to something non-empty. */
  lemma {:induction false} CollectGet<B>(xs: seq<(string, Result<seq<B>, CleanError>)>, o: Entries<seq<B>>, k: string)
    requires DistinctKeys(xs)
    requires Collect(xs) == Ok(o)
    ensures Get(o, k) == Kept(Get(xs, k))
  {
    if xs != [] {
      var init := xs[..|xs| - 1];
      var (k', v) := xs[|xs| - 1];
      assert xs == init + [(k', v)];
      assert DistinctKeys(init) by {
        assert forall i :: 0 <= i < |init| ==> Keys(init)[i] == Keys(xs)[i];
      }
      KeyNotEarlier(xs, |xs|);
      var o' := Collect(init).value;
      CollectGet(init, o', k);
      GetAppend(init, k', v, k);
      if v.Ok? && v.value != [] {
        GetAppend(o', k', v.value, k);
        CollectKeys(init, o');
      }
    }
  }

  /** The collection's keys are keys of its entries. */
  lemma {:induction false} CollectKeys<B>(xs: seq<(string, Result<seq<B>, CleanError>)>, o: Entries<seq<B>>)
    requires Collect(xs) == Ok(o)
    ensures forall k :: k in Keys(o) ==> k in Keys(xs)
  {
    if xs != [] {
      var init := xs[..|xs| - 1];
      var o' := Collect(init).value;
      CollectKeys(init, o');
      forall k | k in Keys(o) ensures k in Keys(xs) {
        if k in Keys(o') {
          var i :| 0 <= i < |Keys(init)| && Keys(init)[i] == k;
          assert Keys(xs)[i] == k;
        } else {
          assert Keys(xs)[|xs| - 1] == k;
        }
      }
    }
  }

  /** A region's export fails exactly when one of its province nodes has no `comuni` map. */
  lemma CleanRegionFails(s: string, r: string, ps: RegionNode)
    ensures CleanRegionOf(s, r, ps).Err? <==> exists k :: 0 <= k < |ps| && !ps[k].1.ByComune?
  {
    var xs := ProvinceResults(s, r, ps);
    CollectErr(xs);
    assert forall k :: 0 <= k < |ps| ==> (xs[k].1.Err? <==> !ps[k].1.ByComune?);
  }

  lemma CleanStateFails(s: string, rs: StateNode)
    ensures CleanStateOf(s, rs).Err? <==>
            exists j, k :: 0 <= j < |rs| && 0 <= k < |rs[j].1| && !rs[j].1[k].1.ByComune?
  {
    var xs := RegionResults(s, rs);
    CollectErr(xs);
    forall j | 0 <= j < |rs| ensures xs[j].1.Err? <==> exists k :: 0 <= k < |rs[j].1| && !rs[j].1[k].1.ByComune? {
      CleanRegionFails(s, rs[j].0, rs[j].1);
    }
  }

  /** cleanExportData throws exactly when some province node of the tree has no
      `comuni` map: an `{}` placeholder or a provincia-level array. */
  lemma CleanFails(t: Tree)
    ensures CleanTreeOf(t).Err? <==>
            exists i, j, k :: 0 <= i < |t| && 0 <= j < |t[i].1| && 0 <= k < |t[i].1[j].1| && !t[i].1[j].1[k].1.ByComune?
  {
    var xs := StateResults(t);
    CollectErr(xs);
    forall i | 0 <= i < |t|
      ensures xs[i].1.Err? <==> exists j, k :: 0 <= j < |t[i].1| && 0 <= k < |t[i].1[j].1| && !t[i].1[j].1[k].1.ByComune?
    {
      CleanStateFails(t[i].0, t[i].1);
    }
  }

  /** A tree of one state fails exactly when that state's regions do. */
  lemma CleanOneState(s: string, rs: StateNode)
    ensures CleanTreeOf([(s, rs)]).Err? <==> CleanStateOf(s, rs).Err?
  {
    var xs := StateResults([(s, rs)]);
    assert |xs| == 1 && xs[0] == (s, CleanStateOf(s, rs));
    var none := xs[..0];
    assert none == [];
    assert Collect(none) == Ok([]);
    assert CleanTreeOf([(s, rs)]) == Collect(xs);
  }

  /** What the export holds for one province: its projected comuni, and nothing
      when it has no comune. */
  function ExportedComuni(leaf: Option<Leaf>): Option<Entries<seq<Fields>>> {
    if leaf.Some? && leaf.value.ByComune? && leaf.value.comuni != [] then Some(CleanComuni(leaf.value.comuni)) else None
  }

  lemma RegionLookup(s: string, r: string, ps: RegionNode, o: CleanRegion, p: string)
    requires DistinctKeys(ps)
    requires CleanRegionOf(s, r, ps) == Ok(o)
    ensures Get(o, p) == ExportedComuni(Get(ps, p))
  {
    var xs := ProvinceResults(s, r, ps);
    CollectGet(xs, o, p);
    if p in Keys(ps) {
      var i := GetAt(ps, p);
      GetDistinct(xs, i);
      if ps[i].1.ByComune? {
        assert |CleanComuni(ps[i].1.comuni)| == |Keys(ps[i].1.comuni)|;
      }
    }
  }

  lemma StateLookup(s: string, rs: StateNode, o: CleanState, r: string, p: string)
    requires DistinctKeys(rs) && forall j :: 0 <= j < |rs| ==> DistinctKeys(rs[j].1)
    requires CleanStateOf(s, rs) == Ok(o)
    ensures Lookup2(o, r, p) == ExportedComuni(Lookup2(rs, r, p))
  {
    var xs := RegionResults(s, rs);
    CollectGet(xs, o, r);
    if r in Keys(rs) {
      var i := GetAt(rs, r);
      GetDistinct(xs, i);
      CollectErr(xs);
      assert xs[i].1.Ok?;
      var ro := xs[i].1.value;
      RegionLookup(s, r, rs[i].1, ro, p);
    }
  }

  /** On a tree without repeated keys, a successful export holds at
      `state / region / province` exactly the projected comuni of that province,
      and nothing for a province without comuni. */
  lemma CleanLookup(t: Tree, out: CleanTree, s: string, r: string, p: string)
    requires WellFormed(t)
    requires CleanTreeOf(t) == Ok(out)
    ensures Lookup(out, s, r, p) == ExportedComuni(Lookup(t, s, r, p))
  {
    var xs := StateResults(t);
    CollectGet(xs, out, s);
    if s in Keys(t) {
      var i := GetAt(t, s);
      GetDistinct(xs, i);
      CollectErr(xs);
      assert xs[i].1.Ok?;
      var so := xs[i].1.value;
      StateLookup(s, t[i].1, so, r, p);
    }
  }
}

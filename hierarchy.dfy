/**
  The reference hierarchy (region -> province -> {uuid, comuni}) and the pruning
  that runMaps of MapScraperClass applies to it before the walk: select regions
  (all of them when no region is named), normalise every key and comune name,
  then, only when regions were named, keep the provinces named in the province list.
 */
module Hierarchy {
  import opened Wrappers
  import opened AssocList
  import opened Names
  import opened Seqs

  /** A province of the reference data: its identifier and, maybe, its comuni.
      The identifier is modelled as text; the code copies whatever JSON value
      the reference data holds there. */
  datatype ProvinceRef = ProvinceRef(uuid: string, comuni: Option<seq<string>>)

  type RegionRef = Entries<ProvinceRef>

  /** The reference data: region name -> province name -> province. */
  type Reference = Entries<RegionRef>

  /** A province after pruning: the comuni list is always there, normalised. */
  datatype Province = Province(uuid: string, comuni: seq<string>)

  type Region = Entries<Province>

  /** `filteredRegions[state]`: normalised region key -> normalised province key -> province. */
  type Selection = Entries<Region>

  /** `Object.entries(undefined)` throws when a requested region is not in the reference data. */
  datatype FilterError = UnknownRegion(name: string)

  function NormalizeAll(names: seq<string>): (r: seq<string>)
    ensures |r| == |names|
    ensures forall i :: 0 <= i < |names| ==> r[i] == NormalizeName(names[i])
  {
    if names == [] then [] else [NormalizeName(names[0])] + NormalizeAll(names[1..])
  }

  /** `{...v, comuni: v.comuni?.map(normalizeName) || []}` */
  function PrunedProvince(p: ProvinceRef): Province {
    Province(p.uuid, match p.comuni case Some(cs) => NormalizeAll(cs) case None => [])
  }

  /** The province map of one region with normalised keys (later keys overwrite
      earlier ones that normalise alike). */
  function NormalizeRegion(rr: RegionRef): Region {
    if rr == [] then []
    else
      var last := rr[|rr| - 1];
      Set(NormalizeRegion(rr[..|rr| - 1]), NormalizeName(last.0), PrunedProvince(last.1))
  }

  /** The `regioni.forEach` that builds `filteredRegions[state]`; the first unknown region throws. */
  function SelectRegions(mappa: Reference, names: seq<string>): (r: Result<Selection, FilterError>)
    ensures r.Err? <==> exists n :: n in names && NormalizeName(n) !in Keys(mappa)
    ensures r.Err? ==> r.error.name in names && NormalizeName(r.error.name) !in Keys(mappa)
    ensures r.Ok? ==> forall n :: n in names ==> NormalizeName(n) in Keys(r.value)
    ensures r.Ok? ==> |r.value| <= |names|
  {
    if names == [] then Ok([])
    else
      var last := names[|names| - 1];
      assert names == names[..|names| - 1] + [last];
      match SelectRegions(mappa, names[..|names| - 1])
      case Err(e) =>
        assert e.name in names;
        Err(e)
      case Ok(sel) =>
        match Get(mappa, NormalizeName(last))
        case None =>
          assert last in names && NormalizeName(last) !in Keys(mappa);
          Err(UnknownRegion(last))
        case Some(provinces) =>
          SetKeys(sel, NormalizeName(last), NormalizeRegion(provinces));
          Ok(Set(sel, NormalizeName(last), NormalizeRegion(provinces)))
  }

  /** The provinces of one region whose normalised key is in `allowed`, in order. */
  function KeepProvinces(region: Region, allowed: seq<string>): (r: Region)
    ensures forall p :: p in Keys(r) <==> p in Keys(region) && NormalizeName(p) in allowed
    ensures forall e :: e in r ==> e in region
  {
    if region == [] then []
    else
      var rest := KeepProvinces(region[1..], allowed);
      if NormalizeName(region[0].0) in allowed then [region[0]] + rest else rest
  }

  /** Every region of a selection, pruned. */
  function PruneAll(sel: Selection, allowed: seq<string>): (r: Selection)
    ensures Keys(r) == Keys(sel)
    ensures forall i :: 0 <= i < |sel| ==> r[i].1 == KeepProvinces(sel[i].1, allowed)
  {
    if sel == [] then [] else [(sel[0].0, KeepProvinces(sel[0].1, allowed))] + PruneAll(sel[1..], allowed)
  }

  /** The whole pruning of runMaps: no region named selects every region of the
      reference data and filters no province; otherwise the named regions are
      selected and their provinces filtered by the normalised province list. */
  function FilterSpec(mappa: Reference, regioni: seq<string>, province: seq<string>): Result<Selection, FilterError> {
    if |regioni| == 0 then SelectRegions(mappa, Keys(mappa))
    else
      match SelectRegions(mappa, regioni)
      case Err(e) => Err(e)
      case Ok(sel) => Ok(PruneAll(sel, NormalizeAll(province)))
  }

  /** The loop that copies one region's provinces under normalised keys. */
  method CopyProvinces(rr: RegionRef) returns (temp: Region)
    ensures temp == NormalizeRegion(rr)
  {
    temp := [];
    var j := 0;
    while j < |rr|
      invariant 0 <= j <= |rr|
      invariant temp == NormalizeRegion(rr[..j])
    {
      var (k, v) := rr[j];
      temp := Set(temp, NormalizeName(k), PrunedProvince(v));
      assert rr[..j + 1][..j] == rr[..j];
      j := j + 1;
    }
    assert rr[..|rr|] == rr;
  }

  /** The `regioni.forEach` of runMaps that fills `filteredRegions[state]`. */
  method SelectLoop(mappa: Reference, names: seq<string>) returns (r: Result<Selection, FilterError>)
    ensures r == SelectRegions(mappa, names)
  {
    var selected: Selection := [];
    var i := 0;
    while i < |names|
      invariant 0 <= i <= |names|
      invariant SelectRegions(mappa, names[..i]) == Ok(selected)
    {
      assert names[..i + 1][..i] == names[..i];
      var key := NormalizeName(names[i]);
      var found := Get(mappa, key);
      if found.None? {
        r := Err(UnknownRegion(names[i]));
        assert SelectRegions(mappa, names[..i + 1]) == r;
        SelectRegionsFailurePersists(mappa, names, i + 1);
        return;
      }
      var temp := CopyProvinces(found.value);
      selected := Set(selected, key, temp);
      i := i + 1;
    }
    assert names[..|names|] == names;
    r := Ok(selected);
  }

  /** The `Object.keys(...).forEach` of runMaps that deletes the provinces not asked for. */
  method PruneLoop(selected: Selection, allowed: seq<string>) returns (pruned: Selection)
    ensures pruned == PruneAll(selected, allowed)
  {
    pruned := [];
    var j := 0;
    while j < |selected|
      invariant 0 <= j <= |selected|
      invariant pruned == PruneAll(selected[..j], allowed)
    {
      PruneAllStep(selected, j, allowed);
      pruned := pruned + [(selected[j].0, KeepProvinces(selected[j].1, allowed))];
      j := j + 1;
    }
    assert selected[..|selected|] == selected;
  }

  /** The pruning steps of runMaps, in the order the source takes them. */
  method FilterRegions(mappa: Reference, regioni: seq<string>, province: seq<string>)
    returns (r: Result<Selection, FilterError>)
    ensures r == FilterSpec(mappa, regioni, province)
  {
    var skipProvinceFilter := |regioni| == 0;
    var names := if skipProvinceFilter then Keys(mappa) else regioni;
    r := SelectLoop(mappa, names);
    if r.Ok? && !skipProvinceFilter {
      var pruned := PruneLoop(r.value, NormalizeAll(province));
      r := Ok(pruned);
    }
  }

  lemma {:induction false} PruneAllAppend(sel: Selection, e: (string, Region), allowed: seq<string>)
    ensures PruneAll(sel + [e], allowed) == PruneAll(sel, allowed) + [(e.0, KeepProvinces(e.1, allowed))]
  {
    if sel != [] {
      assert (sel + [e])[1..] == sel[1..] + [e];
      PruneAllAppend(sel[1..], e, allowed);
    }
  }

  lemma PruneAllStep(sel: Selection, j: nat, allowed: seq<string>)
    requires j < |sel|
    ensures PruneAll(sel[..j + 1], allowed) == PruneAll(sel[..j], allowed) + [(sel[j].0, KeepProvinces(sel[j].1, allowed))]
  {
    TakeOneMore(sel, j);
    PruneAllAppend(sel[..j], sel[j], allowed);
  }

  /** Once a region name is unknown, the selection fails whatever follows. */
  lemma {:induction false} SelectRegionsFailurePersists(mappa: Reference, names: seq<string>, n: nat)
    requires 0 < n <= |names|
    requires SelectRegions(mappa, names[..n]).Err?
    ensures SelectRegions(mappa, names) == SelectRegions(mappa, names[..n])
    decreases |names| - n
  {
    if n < |names| {
      assert names[..n + 1][..n] == names[..n];
      SelectRegionsFailurePersists(mappa, names, n + 1);
      assert SelectRegions(mappa, names[..n + 1]) == SelectRegions(mappa, names[..n]);
    } else {
      assert names[..n] == names;
    }
  }

  /** Each named region's key holds that region's provinces under normalised
      keys, whichever of the names that normalise alike came last. */
  /** One more name: the selection so far, with the last named region assigned. */
  lemma SelectRegionsLast(mappa: Reference, names: seq<string>)
    requires names != [] && SelectRegions(mappa, names).Ok?
    ensures SelectRegions(mappa, names[..|names| - 1]).Ok?
    ensures NormalizeName(names[|names| - 1]) in Keys(mappa)
    ensures SelectRegions(mappa, names) ==
            Ok(Set(SelectRegions(mappa, names[..|names| - 1]).value, NormalizeName(names[|names| - 1]),
                   NormalizeRegion(Get(mappa, NormalizeName(names[|names| - 1])).value)))
  {
  }

  /** Each named region's key holds that region's provinces under normalised
      keys, whichever of the names that normalise alike came last. */
  lemma {:induction false} SelectRegionsGet(mappa: Reference, names: seq<string>, n: string)
    requires SelectRegions(mappa, names).Ok? && n in names
    ensures NormalizeName(n) in Keys(mappa)
    ensures Get(SelectRegions(mappa, names).value, NormalizeName(n))
            == Some(NormalizeRegion(Get(mappa, NormalizeName(n)).value))
  {
    SelectRegionsLast(mappa, names);
    var init := names[..|names| - 1];
    var last := names[|names| - 1];
    var sel := SelectRegions(mappa, init).value;
    var key := NormalizeName(last);
    var region := NormalizeRegion(Get(mappa, key).value);
    if NormalizeName(n) == key {
      SetGet(sel, key, region);
    } else {
      assert names == init + [last];
      assert n in init;
      SelectRegionsGet(mappa, init, n);
      SetOther(sel, key, region, NormalizeName(n));
    }
  }

  /** `k` is the normalised name of one of `names`. */
  predicate NamesKey(names: seq<string>, k: string) {
    exists n :: n in names && NormalizeName(n) == k
  }

  /** Every selected key is the normalised name of a named region. */
  lemma {:induction false} SelectRegionsKeys(mappa: Reference, names: seq<string>)
    requires SelectRegions(mappa, names).Ok?
    ensures forall k :: k in Keys(SelectRegions(mappa, names).value) ==> NamesKey(names, k)
  {
    if names != [] {
      SelectRegionsLast(mappa, names);
      var init := names[..|names| - 1];
      var last := names[|names| - 1];
      var sel := SelectRegions(mappa, init).value;
      var key := NormalizeName(last);
      var region := NormalizeRegion(Get(mappa, key).value);
      SelectRegionsKeys(mappa, init);
      SetKeys(sel, key, region);
      forall k | k in Keys(Set(sel, key, region)) ensures NamesKey(names, k) {
        if k == key {
          assert last in names;
        } else {
          assert k in Keys(sel);
          assert NamesKey(init, k);
          var n :| n in init && NormalizeName(n) == k;
          var i :| 0 <= i < |init| && init[i] == n;
          assert names[i] == n;
        }
      }
    }
  }

  /** Every region of the reference data, in its order, with normalised provinces. */
  function NormalizeEach(mappa: Reference): (r: Selection)
    ensures Keys(r) == Keys(mappa)
  {
    if mappa == [] then []
    else
      var last := mappa[|mappa| - 1];
      NormalizeEach(mappa[..|mappa| - 1]) + [(last.0, NormalizeRegion(last.1))]
  }

  /** Keys that name themselves under `normalizeName`, as the reference data's keys do. */
  predicate CanonicalKeys<V>(fs: Entries<V>) {
    forall k :: k in Keys(fs) ==> NormalizeName(k) == k
  }

  /** With no region named, every region of the reference data is selected, in
      its order, and no province is filtered out. */
  lemma NoRegionsSelectsAll(mappa: Reference, province: seq<string>)
    requires DistinctKeys(mappa) && CanonicalKeys(mappa)
    ensures FilterSpec(mappa, [], province) == Ok(NormalizeEach(mappa))
  {
    var ks := Keys(mappa);
    SelectAllPrefix(mappa, |mappa|);
    assert ks[..|mappa|] == ks;
    assert mappa[..|mappa|] == mappa;
  }

  lemma {:induction false} SelectAllPrefix(mappa: Reference, n: nat)
    requires DistinctKeys(mappa) && CanonicalKeys(mappa)
    requires n <= |mappa|
    ensures SelectRegions(mappa, Keys(mappa)[..n]) == Ok(NormalizeEach(mappa[..n]))
  {
    if n > 0 {
      var ks := Keys(mappa);
      SelectAllPrefix(mappa, n - 1);
      TakeTake(ks, n, n - 1);
      TakeTake(mappa, n, n - 1);
      var k := mappa[n - 1].0;
      var v := NormalizeRegion(mappa[n - 1].1);
      var prev := NormalizeEach(mappa[..n - 1]);
      assert ks[..n][n - 1] == k;
      assert NormalizeName(k) == k by { assert k in ks; }
      GetDistinct(mappa, n - 1);
      assert Get(mappa, NormalizeName(ks[..n][n - 1])) == Some(mappa[n - 1].1);
      KeyNotEarlier(mappa, n);
      assert k !in Keys(prev);
      SetKeys(prev, k, v);
      assert SelectRegions(mappa, ks[..n]) == Ok(Set(prev, k, v));
      assert NormalizeEach(mappa[..n]) == prev + [(k, v)];
    }
  }

  /** Every province key of a normalised region names itself. */
  lemma {:induction false} NormalizeRegionCanonical(rr: RegionRef)
    ensures CanonicalKeys(NormalizeRegion(rr))
  {
    if rr != [] {
      var last := rr[|rr| - 1];
      NormalizeRegionCanonical(rr[..|rr| - 1]);
      NormalizeIdempotent(last.0);
      SetKeys(NormalizeRegion(rr[..|rr| - 1]), NormalizeName(last.0), PrunedProvince(last.1));
    }
  }

  /** Every region a selection holds has canonical province keys. */
  lemma {:induction false} SelectedRegionsCanonical(mappa: Reference, names: seq<string>)
    requires SelectRegions(mappa, names).Ok?
    ensures forall e :: e in SelectRegions(mappa, names).value ==> CanonicalKeys(e.1)
  {
    if names != [] {
      var last := names[|names| - 1];
      var init := names[..|names| - 1];
      SelectedRegionsCanonical(mappa, init);
      var sel := SelectRegions(mappa, init).value;
      var provinces := Get(mappa, NormalizeName(last)).value;
      NormalizeRegionCanonical(provinces);
      forall e | e in SelectRegions(mappa, names).value ensures CanonicalKeys(e.1) {
        SetEntries(sel, NormalizeName(last), NormalizeRegion(provinces), e);
      }
    }
  }

  /** With regions named, a province stays exactly when some name of the
      province list normalises to its key. */
  lemma ProvinceFilterKeepsNamed(mappa: Reference, regioni: seq<string>, province: seq<string>, i: nat, p: string)
    requires |regioni| > 0
    requires FilterSpec(mappa, regioni, province).Ok?
    requires i < |FilterSpec(mappa, regioni, province).value|
    ensures var sel := SelectRegions(mappa, regioni).value;
            var out := FilterSpec(mappa, regioni, province).value;
            out[i].0 == sel[i].0
            && (p in Keys(out[i].1) <==> p in Keys(sel[i].1) && exists q :: q in province && NormalizeName(q) == p)
  {
    var sel := SelectRegions(mappa, regioni).value;
    var out := FilterSpec(mappa, regioni, province).value;
    assert Keys(out)[i] == Keys(sel)[i];
    SelectedRegionsCanonical(mappa, regioni);
    assert sel[i] in sel;
    var allowed := NormalizeAll(province);
    if p in Keys(sel[i].1) && NormalizeName(p) in allowed {
      var j :| 0 <= j < |allowed| && allowed[j] == NormalizeName(p);
      assert province[j] in province && NormalizeName(province[j]) == p;
    }
    if p in Keys(sel[i].1) && exists q :: q in province && NormalizeName(q) == p {
      var q :| q in province && NormalizeName(q) == p;
      var j :| 0 <= j < |province| && province[j] == q;
      assert allowed[j] == NormalizeName(p);
    }
  }

  /** With regions named and an empty province list, every selected region is left empty. */
  lemma EmptyProvinceListEmptiesRegions(mappa: Reference, regioni: seq<string>, i: nat)
    requires |regioni| > 0
    requires FilterSpec(mappa, regioni, []).Ok?
    requires i < |FilterSpec(mappa, regioni, []).value|
    ensures FilterSpec(mappa, regioni, []).value[i].1 == []
  {
    var out := FilterSpec(mappa, regioni, []).value;
    var region := out[i].1;
    if region != [] {
      assert Keys(region)[0] in Keys(region);
    }
  }

  lemma {:induction false} NormalizeRegionDistinct(rr: RegionRef)
    ensures DistinctKeys(NormalizeRegion(rr))
  {
    if rr != [] {
      var last := rr[|rr| - 1];
      NormalizeRegionDistinct(rr[..|rr| - 1]);
      SetDistinct(NormalizeRegion(rr[..|rr| - 1]), NormalizeName(last.0), PrunedProvince(last.1));
    }
  }

  lemma {:induction false} SelectRegionsDistinct(mappa: Reference, names: seq<string>)
    requires SelectRegions(mappa, names).Ok?
    ensures DistinctKeys(SelectRegions(mappa, names).value)
    ensures forall e :: e in SelectRegions(mappa, names).value ==> DistinctKeys(e.1)
  {
    if names != [] {
      var last := names[|names| - 1];
      var init := names[..|names| - 1];
      SelectRegionsDistinct(mappa, init);
      var sel := SelectRegions(mappa, init).value;
      var provinces := Get(mappa, NormalizeName(last)).value;
      NormalizeRegionDistinct(provinces);
      SetDistinct(sel, NormalizeName(last), NormalizeRegion(provinces));
      forall e | e in SelectRegions(mappa, names).value ensures DistinctKeys(e.1) {
        SetEntries(sel, NormalizeName(last), NormalizeRegion(provinces), e);
      }
    }
  }

  lemma {:induction false} KeepProvincesDistinct(region: Region, allowed: seq<string>)
    requires DistinctKeys(region)
    ensures DistinctKeys(KeepProvinces(region, allowed))
  {
    if region != [] {
      var rest := KeepProvinces(region[1..], allowed);
      assert Keys(region) == [region[0].0] + Keys(region[1..]);
      assert DistinctKeys(region[1..]) by {
        forall i, j | 0 <= i < j < |region[1..]| ensures Keys(region[1..])[i] != Keys(region[1..])[j] {
          assert Keys(region)[i + 1] != Keys(region)[j + 1];
        }
      }
      KeepProvincesDistinct(region[1..], allowed);
      if NormalizeName(region[0].0) in allowed {
        assert region[0].0 !in Keys(region[1..]) by {
          forall j | 0 <= j < |region[1..]| ensures Keys(region[1..])[j] != region[0].0 {
            assert Keys(region)[j + 1] != Keys(region)[0];
          }
        }
        var r := [region[0]] + rest;
        assert Keys(r) == [region[0].0] + Keys(rest);
        forall i, j | 0 <= i < j < |r| ensures Keys(r)[i] != Keys(r)[j] {
          if i == 0 {
            assert Keys(r)[j] == Keys(rest)[j - 1];
            assert Keys(rest)[j - 1] in Keys(rest);
          } else {
            assert Keys(r)[i] == Keys(rest)[i - 1] && Keys(r)[j] == Keys(rest)[j - 1];
          }
        }
      }
    }
  }

  /** The pruned hierarchy holds no key twice, neither among its regions nor
      among the provinces of a region. */
  lemma FilterDistinct(mappa: Reference, regioni: seq<string>, province: seq<string>)
    requires FilterSpec(mappa, regioni, province).Ok?
    ensures var sel := FilterSpec(mappa, regioni, province).value;
            DistinctKeys(sel) && forall i :: 0 <= i < |sel| ==> DistinctKeys(sel[i].1)
  {
    var names := if |regioni| == 0 then Keys(mappa) else regioni;
    SelectRegionsDistinct(mappa, names);
    var sel0 := SelectRegions(mappa, names).value;
    if |regioni| > 0 {
      var sel := PruneAll(sel0, NormalizeAll(province));
      forall i | 0 <= i < |sel| ensures DistinctKeys(sel[i].1) {
        assert sel0[i] in sel0;
        KeepProvincesDistinct(sel0[i].1, NormalizeAll(province));
      }
    } else {
      forall i | 0 <= i < |sel0| ensures DistinctKeys(sel0[i].1) {
        assert sel0[i] in sel0;
      }
    }
  }
}

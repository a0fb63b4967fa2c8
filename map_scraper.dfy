/**
  MapScraperClass: the scraper object. Its constructor reads the API key and the
  endpoint from the configuration and keeps the reference hierarchy; startMaps
  runs one paginated search; runMaps prunes the hierarchy, walks it and builds the
  result tree; cleanExportData and getExportByMaps give the export view.
 */
module MapScraper {
  import opened Wrappers
  import opened AssocList
  import opened Js
  import opened Paging
  import opened Hierarchy
  import opened ResultTree
  import opened CleanExport
  import opened Seqs

  /** startMaps throws "Parametri mancanti" (and its catch returns `[]`) when the
      request would carry no query, no location and no radius. */
  predicate MissingParams(query: string, latitude: Json, longitude: Json, radius: Json) {
    query == "" && !(Truthy(latitude) && Truthy(longitude)) && !Truthy(radius)
  }

  /** The `params` object of one request. */
  function Params(url: string, key: string, query: string, latitude: Json, longitude: Json, radius: Json,
                  token: Option<string>): Request {
    Request(
      url, key,
      if HasToken(token) then token else None,
      if Truthy(latitude) && Truthy(longitude) then Some(Location(latitude, longitude)) else None,
      if Truthy(radius) then Some(radius) else None,
      if query != "" then Some(query) else None)
  }

  /** The check `!params.query && !params.location && !params.radius` on a request. */
  lemma ParamsMissing(url: string, key: string, query: string, latitude: Json, longitude: Json, radius: Json,
                      token: Option<string>)
    ensures var p := Params(url, key, query, latitude, longitude, radius, token);
            p.query.None? && p.location.None? && p.radius.None? <==> MissingParams(query, latitude, longitude, radius)
  {
  }

  /** The first request of a run carries no page token; every later one carries
      the token of the page read just before it. */
  lemma RequestTokens(url: string, key: string, query: string, latitude: Json, longitude: Json, radius: Json,
                      script: Script, k: nat)
    requires k < RequestCount(script)
    ensures var r := Params(url, key, query, latitude, longitude, radius, TokenFor(script, k));
            && (k == 0 ==> r.pagetoken.None?)
            && (k > 0 ==> script[k - 1].Page? && r.pagetoken == script[k - 1].nextPageToken && HasToken(r.pagetoken))
  {
    if k > 0 {
      RequestFollowsToken(script, k);
    }
  }

  /** `${query} provincia ${nomeProvincia}` */
  function ProvinciaQuery(query: string, province: string): string {
    query + " provincia " + province
  }

  /** `${query}, ${nomeComune}, ${uuid}, ${state}` */
  function ComuneQuery(query: string, comune: string, uuid: string, state: string): string {
    query + ", " + comune + ", " + uuid + ", " + state
  }

  /** What stays fixed during one walk. `net` gives the endpoint's answers to the
      pagination run of each query; `mongoBatches` is `writeResult && mode === 'mongo'`. */
  datatype Ctx = Ctx(state: string, level: string, query: string, mongoBatches: bool, net: string -> Script)

  /** What a walk over part of the hierarchy produces: the tree node, the startMaps
      queries in call order, and the arrays handed to insertData. */
  datatype Walk<N> = Walk(node: N, queries: seq<string>, batches: seq<seq<Fields>>)

  /** The annotated records stored for one comune. */
  function ComuneRecords(ctx: Ctx, region: string, province: string, uuid: string, comune: string): seq<Fields> {
    AnnotatedAll(Fetched(ctx.net(ComuneQuery(ctx.query, comune, uuid, ctx.state))), province, uuid, ctx.state, region, Some(comune))
  }

  /** The comune loop of one province: `comuni[nomeComune] = byMaps` for each comune in order. */
  function ComuniWalk(ctx: Ctx, region: string, province: string, uuid: string, comuni: seq<string>): Walk<Entries<seq<Fields>>> {
    if comuni == [] then Walk([], [], [])
    else
      var w := ComuniWalk(ctx, region, province, uuid, comuni[..|comuni| - 1]);
      var c := comuni[|comuni| - 1];
      var records := ComuneRecords(ctx, region, province, uuid, c);
      Walk(Set(w.node, c, records),
           w.queries + [ComuneQuery(ctx.query, c, uuid, ctx.state)],
           w.batches + if ctx.mongoBatches then [records] else [])
  }

  /** One province: at provincia level one search whose annotated results are the
      leaf; at comune level one search per comune, a province without comuni
      keeping its `{}` placeholder; at any other level the placeholder only. */
  function ProvinceWalk(ctx: Ctx, region: string, province: string, p: Province): Walk<Leaf> {
    if ctx.level == "provincia" then
      var q := ProvinciaQuery(ctx.query, province);
      Walk(Flat(AnnotatedAll(Fetched(ctx.net(q)), province, p.uuid, ctx.state, region, None)), [q], [])
    else if ctx.level == "comune" then
      var w := ComuniWalk(ctx, region, province, p.uuid, p.comuni);
      Walk(if p.comuni == [] then Empty else ByComune(w.node), w.queries, w.batches)
    else
      Walk(Empty, [], [])
  }

  /** The province loop of one region. */
  function RegionWalk(ctx: Ctx, region: string, ps: Hierarchy.Region): Walk<RegionNode> {
    if ps == [] then Walk([], [], [])
    else
      var w := RegionWalk(ctx, region, ps[..|ps| - 1]);
      var (province, p) := ps[|ps| - 1];
      var pw := ProvinceWalk(ctx, region, province, p);
      Walk(Set(w.node, province, pw.node), w.queries + pw.queries, w.batches + pw.batches)
  }

  /** The region loop over `filteredRegions[state]`. */
  function StateWalk(ctx: Ctx, sel: Selection): Walk<StateNode> {
    if sel == [] then Walk([], [], [])
    else
      var w := StateWalk(ctx, sel[..|sel| - 1]);
      var (region, ps) := sel[|sel| - 1];
      var rw := RegionWalk(ctx, region, ps);
      Walk(Set(w.node, region, rw.node), w.queries + rw.queries, w.batches + rw.batches)
  }

  /** The destructured options of runMaps, defaults applied. The `comuni` option
      is bound to an empty array pattern, so its value never reaches the body. */
  datatype RunArgs = RunArgs(
    regioni: seq<string>,
    province: seq<string>,
    comuni: seq<string>,
    state: string,
    mode: string,
    level: string,
    skipFinding: bool,
    query: string,
    writeResult: bool)

  datatype RunError = FilterFailed(filter: FilterError) | CleanFailed(clean: CleanError)

  /** How runMaps settles. */
  datatype RunOutcome =
    | Inserted                                              // skipFinding: insertData() alone
    | Failed(error: RunError, queries: seq<string>)          // rejected, after these searches
    | Done(tree: Tree, queries: seq<string>, batches: seq<seq<Fields>>)

  function WalkCtx(args: RunArgs, net: string -> Script): Ctx {
    Ctx(args.state, args.level, args.query, args.writeResult && args.mode == "mongo", net)
  }

  /** runMaps: prune, walk, and with `writeResult` outside mongo mode build the
      clean export, whose failure rejects the whole run. */
  function RunMapsSpec(mappa: Reference, args: RunArgs, net: string -> Script): RunOutcome {
    if args.skipFinding then Inserted
    else
      match FilterSpec(mappa, args.regioni, args.province)
      case Err(e) => Failed(FilterFailed(e), [])
      case Ok(sel) =>
        var w := StateWalk(WalkCtx(args, net), sel);
        var tree := [(args.state, w.node)];
        if args.writeResult && args.mode != "mongo" && CleanTreeOf(tree).Err? then
          Failed(CleanFailed(CleanTreeOf(tree).error), w.queries)
        else
          Done(tree, w.queries, w.batches)
  }

  /** A comune named in the list holds the annotated results of its own search
      (a name listed twice runs the same search twice and keeps one entry). */
  lemma {:induction false} ComuniWalkGet(ctx: Ctx, region: string, province: string, uuid: string, comuni: seq<string>, c: string)
    requires c in comuni
    ensures Get(ComuniWalk(ctx, region, province, uuid, comuni).node, c) == Some(ComuneRecords(ctx, region, province, uuid, c))
  {
    var init := comuni[..|comuni| - 1];
    var last := comuni[|comuni| - 1];
    var w := ComuniWalk(ctx, region, province, uuid, init);
    if c == last {
      SetGet(w.node, c, ComuneRecords(ctx, region, province, uuid, c));
    } else {
      assert c in init by {
        var k :| 0 <= k < |comuni| && comuni[k] == c;
        assert init[k] == c;
      }
      ComuniWalkGet(ctx, region, province, uuid, init, c);
      SetOther(w.node, last, ComuneRecords(ctx, region, province, uuid, last), c);
    }
  }

  lemma {:induction false} RegionWalkGet(ctx: Ctx, region: string, ps: Hierarchy.Region, j: nat)
    requires DistinctKeys(ps) && j < |ps|
    ensures Get(RegionWalk(ctx, region, ps).node, ps[j].0) == Some(ProvinceWalk(ctx, region, ps[j].0, ps[j].1).node)
  {
    var init := ps[..|ps| - 1];
    var (province, p) := ps[|ps| - 1];
    var w := RegionWalk(ctx, region, init);
    var pw := ProvinceWalk(ctx, region, province, p);
    if j == |ps| - 1 {
      SetGet(w.node, province, pw.node);
    } else {
      assert Keys(ps)[j] != Keys(ps)[|ps| - 1];
      assert DistinctKeys(init) by {
        assert forall a :: 0 <= a < |init| ==> Keys(init)[a] == Keys(ps)[a];
      }
      assert init[j] == ps[j];
      RegionWalkGet(ctx, region, init, j);
      SetOther(w.node, province, pw.node, ps[j].0);
    }
  }

  lemma {:induction false} StateWalkGet(ctx: Ctx, sel: Selection, i: nat)
    requires DistinctKeys(sel) && i < |sel|
    ensures Get(StateWalk(ctx, sel).node, sel[i].0) == Some(RegionWalk(ctx, sel[i].0, sel[i].1).node)
  {
    var init := sel[..|sel| - 1];
    var (region, ps) := sel[|sel| - 1];
    var w := StateWalk(ctx, init);
    var rw := RegionWalk(ctx, region, ps);
    if i == |sel| - 1 {
      SetGet(w.node, region, rw.node);
    } else {
      assert Keys(sel)[i] != Keys(sel)[|sel| - 1];
      assert DistinctKeys(init) by {
        assert forall a :: 0 <= a < |init| ==> Keys(init)[a] == Keys(sel)[a];
      }
      assert init[i] == sel[i];
      StateWalkGet(ctx, init, i);
      SetOther(w.node, region, rw.node, sel[i].0);
    }
  }

  /** Every region node of the walk comes from one region of the selection. */
  lemma {:induction false} StateWalkEntries(ctx: Ctx, sel: Selection, e: (string, RegionNode))
    requires e in StateWalk(ctx, sel).node
    ensures exists i :: 0 <= i < |sel| && e == (sel[i].0, RegionWalk(ctx, sel[i].0, sel[i].1).node)
  {
    var init := sel[..|sel| - 1];
    var (region, ps) := sel[|sel| - 1];
    var w := StateWalk(ctx, init);
    SetEntries(w.node, region, RegionWalk(ctx, region, ps).node, e);
    if e in w.node {
      StateWalkEntries(ctx, init, e);
      var i :| 0 <= i < |init| && e == (init[i].0, RegionWalk(ctx, init[i].0, init[i].1).node);
      assert init[i] == sel[i];
    } else {
      assert e == (sel[|sel| - 1].0, RegionWalk(ctx, sel[|sel| - 1].0, sel[|sel| - 1].1).node);
    }
  }

  /** Every leaf of a region node is the walk of one province of that region. */
  lemma {:induction false} RegionWalkEntries(ctx: Ctx, region: string, ps: Hierarchy.Region, e: (string, Leaf))
    requires e in RegionWalk(ctx, region, ps).node
    ensures exists j :: 0 <= j < |ps| && e == (ps[j].0, ProvinceWalk(ctx, region, ps[j].0, ps[j].1).node)
  {
    var init := ps[..|ps| - 1];
    var (province, p) := ps[|ps| - 1];
    var w := RegionWalk(ctx, region, init);
    SetEntries(w.node, province, ProvinceWalk(ctx, region, province, p).node, e);
    if e in w.node {
      RegionWalkEntries(ctx, region, init, e);
      var j :| 0 <= j < |init| && e == (init[j].0, ProvinceWalk(ctx, region, init[j].0, init[j].1).node);
      assert init[j] == ps[j];
    } else {
      assert e == (ps[|ps| - 1].0, ProvinceWalk(ctx, region, ps[|ps| - 1].0, ps[|ps| - 1].1).node);
    }
  }

  /** The leaf a run stores under `state / region / province` for a province the
      pruning kept. */
  lemma RunMapsLeaf(mappa: Reference, args: RunArgs, net: string -> Script, i: nat, j: nat)
    requires !args.skipFinding
    requires FilterSpec(mappa, args.regioni, args.province).Ok?
    requires var sel := FilterSpec(mappa, args.regioni, args.province).value;
             i < |sel| && j < |sel[i].1|
    ensures var sel := FilterSpec(mappa, args.regioni, args.province).value;
            var w := StateWalk(WalkCtx(args, net), sel);
            Lookup([(args.state, w.node)], args.state, sel[i].0, sel[i].1[j].0)
            == Some(ProvinceWalk(WalkCtx(args, net), sel[i].0, sel[i].1[j].0, sel[i].1[j].1).node)
  {
    var sel := FilterSpec(mappa, args.regioni, args.province).value;
    FilterDistinct(mappa, args.regioni, args.province);
    StateWalkGet(WalkCtx(args, net), sel, i);
    RegionWalkGet(WalkCtx(args, net), sel[i].0, sel[i].1, j);
  }

  /** At provincia level, a kept province's leaf is the results of the search
      `${query} provincia ${province}`, in fetch order, each annotated with the
      province, its uuid, the state and the region. */
  lemma ProvinciaLeaf(mappa: Reference, args: RunArgs, net: string -> Script, i: nat, j: nat)
    requires !args.skipFinding && args.level == "provincia"
    requires FilterSpec(mappa, args.regioni, args.province).Ok?
    requires var sel := FilterSpec(mappa, args.regioni, args.province).value;
             i < |sel| && j < |sel[i].1|
    ensures var sel := FilterSpec(mappa, args.regioni, args.province).value;
            var (region, (province, p)) := (sel[i].0, sel[i].1[j]);
            var w := StateWalk(WalkCtx(args, net), sel);
            Lookup([(args.state, w.node)], args.state, region, province)
            == Some(Flat(AnnotatedAll(Fetched(net(ProvinciaQuery(args.query, province))), province, p.uuid, args.state, region, None)))
  {
    RunMapsLeaf(mappa, args, net, i, j);
  }

  /** At comune level, a kept province without comuni keeps its `{}` placeholder;
      otherwise every one of its comuni holds the annotated results of the search
      `${query}, ${comune}, ${uuid}, ${state}`. */
  lemma ComuneLeaf(mappa: Reference, args: RunArgs, net: string -> Script, i: nat, j: nat, c: string)
    requires !args.skipFinding && args.level == "comune"
    requires FilterSpec(mappa, args.regioni, args.province).Ok?
    requires var sel := FilterSpec(mappa, args.regioni, args.province).value;
             i < |sel| && j < |sel[i].1|
    ensures var sel := FilterSpec(mappa, args.regioni, args.province).value;
            var (region, (province, p)) := (sel[i].0, sel[i].1[j]);
            var w := StateWalk(WalkCtx(args, net), sel);
            var leaf := Lookup([(args.state, w.node)], args.state, region, province);
            && (p.comuni == [] ==> leaf == Some(Empty))
            && (c in p.comuni ==>
                  (&& leaf.Some? && leaf.value.ByComune?
                   && Get(leaf.value.comuni, c)
                      == Some(AnnotatedAll(Fetched(net(ComuneQuery(args.query, c, p.uuid, args.state))),
                                           province, p.uuid, args.state, region, Some(c)))))
  {
    var sel := FilterSpec(mappa, args.regioni, args.province).value;
    RunMapsLeaf(mappa, args, net, i, j);
    if c in sel[i].1[j].1.comuni {
      ComuniWalkGet(WalkCtx(args, net), sel[i].0, sel[i].1[j].0, sel[i].1[j].1.uuid, sel[i].1[j].1.comuni, c);
    }
  }

  /** A province whose walk leaves no `comuni` map. */
  predicate NoComuniMap(level: string, p: Province) {
    !(level == "comune" && p.comuni != [])
  }

  /** Where the walk stores the leaf of province `j` of region `i`. */
  lemma WalkLeafAt(ctx: Ctx, sel: Selection, i: nat, j: nat) returns (a: nat, b: nat)
    requires DistinctKeys(sel) && i < |sel| && DistinctKeys(sel[i].1) && j < |sel[i].1|
    ensures var node := StateWalk(ctx, sel).node;
            && a < |node| && b < |node[a].1|
            && node[a].1[b].1 == ProvinceWalk(ctx, sel[i].0, sel[i].1[j].0, sel[i].1[j].1).node
  {
    var node := StateWalk(ctx, sel).node;
    StateWalkGet(ctx, sel, i);
    a := GetIndex(node, sel[i].0);
    var regionNode := RegionWalk(ctx, sel[i].0, sel[i].1).node;
    assert node[a].1 == regionNode;
    RegionWalkGet(ctx, sel[i].0, sel[i].1, j);
    b := GetIndex(regionNode, sel[i].1[j].0);
  }

  lemma BadProvinceBreaksExport(ctx: Ctx, sel: Selection, i: nat, j: nat)
    requires DistinctKeys(sel) && i < |sel| && DistinctKeys(sel[i].1) && j < |sel[i].1|
    requires NoComuniMap(ctx.level, sel[i].1[j].1)
    ensures CleanTreeOf([(ctx.state, StateWalk(ctx, sel).node)]).Err?
  {
    var node := StateWalk(ctx, sel).node;
    var a, b := WalkLeafAt(ctx, sel, i, j);
    assert !node[a].1[b].1.ByComune?;
    CleanStateFails(ctx.state, node);
    CleanOneState(ctx.state, node);
  }

  /** Which province of the selection a leaf of the walk belongs to. */
  lemma LeafOrigin(ctx: Ctx, sel: Selection, a: nat, b: nat) returns (i: nat, j: nat)
    requires var node := StateWalk(ctx, sel).node; a < |node| && b < |node[a].1|
    ensures var node := StateWalk(ctx, sel).node;
            && i < |sel| && j < |sel[i].1|
            && node[a].1[b].1 == ProvinceWalk(ctx, sel[i].0, sel[i].1[j].0, sel[i].1[j].1).node
  {
    var node := StateWalk(ctx, sel).node;
    assert node[a] in node;
    StateWalkEntries(ctx, sel, node[a]);
    i :| 0 <= i < |sel| && node[a] == (sel[i].0, RegionWalk(ctx, sel[i].0, sel[i].1).node);
    assert node[a].1[b] in node[a].1;
    RegionWalkEntries(ctx, sel[i].0, sel[i].1, node[a].1[b]);
    j :| 0 <= j < |sel[i].1| && node[a].1[b] == (sel[i].1[j].0, ProvinceWalk(ctx, sel[i].0, sel[i].1[j].0, sel[i].1[j].1).node);
  }

  lemma ExportBreaksAtBadProvince(ctx: Ctx, sel: Selection)
    requires CleanTreeOf([(ctx.state, StateWalk(ctx, sel).node)]).Err?
    ensures exists i, j :: 0 <= i < |sel| && 0 <= j < |sel[i].1| && NoComuniMap(ctx.level, sel[i].1[j].1)
  {
    var node := StateWalk(ctx, sel).node;
    CleanOneState(ctx.state, node);
    CleanStateFails(ctx.state, node);
    var a, b :| 0 <= a < |node| && 0 <= b < |node[a].1| && !node[a].1[b].1.ByComune?;
    var i, j := LeafOrigin(ctx, sel, a, b);
    assert NoComuniMap(ctx.level, sel[i].1[j].1);
  }

  /** With `writeResult` outside mongo mode, the run is rejected by cleanExportData
      exactly when some kept province ends without a `comuni` map: always at
      provincia level (as soon as one province is kept), and at comune level when a
      kept province has no comuni. */
  lemma ExportFailsUnlessComuni(mappa: Reference, args: RunArgs, net: string -> Script)
    requires !args.skipFinding && args.writeResult && args.mode != "mongo"
    requires FilterSpec(mappa, args.regioni, args.province).Ok?
    ensures var sel := FilterSpec(mappa, args.regioni, args.province).value;
            RunMapsSpec(mappa, args, net).Failed? <==>
            exists i, j :: 0 <= i < |sel| && 0 <= j < |sel[i].1| && NoComuniMap(args.level, sel[i].1[j].1)
  {
    var sel := FilterSpec(mappa, args.regioni, args.province).value;
    var ctx := WalkCtx(args, net);
    FilterDistinct(mappa, args.regioni, args.province);
    if exists i, j :: 0 <= i < |sel| && 0 <= j < |sel[i].1| && NoComuniMap(args.level, sel[i].1[j].1) {
      var i, j :| 0 <= i < |sel| && 0 <= j < |sel[i].1| && NoComuniMap(args.level, sel[i].1[j].1);
      BadProvinceBreaksExport(ctx, sel, i, j);
    }
    if CleanTreeOf([(args.state, StateWalk(ctx, sel).node)]).Err? {
      ExportBreaksAtBadProvince(ctx, sel);
    }
  }

  /** The `comuni` option has no effect on a run. */
  lemma ComuniOptionIgnored(mappa: Reference, args: RunArgs, net: string -> Script, comuni: seq<string>)
    ensures RunMapsSpec(mappa, args.(comuni := comuni), net) == RunMapsSpec(mappa, args, net)
  {
  }

  lemma RegionWalkStep(ctx: Ctx, region: string, ps: Hierarchy.Region, j: nat)
    requires j < |ps|
    ensures var w := RegionWalk(ctx, region, ps[..j]);
            var pw := ProvinceWalk(ctx, region, ps[j].0, ps[j].1);
            RegionWalk(ctx, region, ps[..j + 1]) == Walk(Set(w.node, ps[j].0, pw.node), w.queries + pw.queries, w.batches + pw.batches)
  {
    TakeOneMore(ps, j);
  }

  lemma ComuniWalkStep(ctx: Ctx, region: string, province: string, uuid: string, comuni: seq<string>, k: nat)
    requires k < |comuni|
    ensures var w := ComuniWalk(ctx, region, province, uuid, comuni[..k]);
            var c := comuni[k];
            var records := ComuneRecords(ctx, region, province, uuid, c);
            ComuniWalk(ctx, region, province, uuid, comuni[..k + 1])
            == Walk(Set(w.node, c, records),
                    w.queries + [ComuneQuery(ctx.query, c, uuid, ctx.state)],
                    w.batches + if ctx.mongoBatches then [records] else [])
  {
    assert comuni[..k + 1][..k] == comuni[..k];
  }

  /** What getExportByMaps hands back: the stored tree, or its clean export. */
  datatype Export = Raw(tree: Tree) | Cleaned(clean: CleanTree)

  class MapScraper {
    const apiKey: string
    const baseUrl: string
    const mappaRegioni: Reference

    /** `apiKey` and `baseUrl` come from the configuration, `mappaRegioni` is the
        bundled hierarchy of Italian regions, provinces and comuni. */
    constructor(apiKey: string, baseUrl: string, mappaRegioni: Reference)
      ensures this.apiKey == apiKey && this.baseUrl == baseUrl && this.mappaRegioni == mappaRegioni
    {
      this.apiKey := apiKey;
      this.baseUrl := baseUrl;
      this.mappaRegioni := mappaRegioni;
    }

    /** One paginated text search. `script` holds the endpoint's answers to the
        successive requests; `requests` are the requests sent and `waits` the
        2000 ms pauses taken. */
    method StartMaps(query: string, latitude: Json, longitude: Json, radius: Json, script: Script)
      returns (res: seq<Fields>, requests: seq<Request>, waits: nat)
      ensures MissingParams(query, latitude, longitude, radius) ==> res == [] && requests == [] && waits == 0
      ensures !MissingParams(query, latitude, longitude, radius) ==>
                && res == Fetched(script)
                && waits == PagesRead(script)
                && |requests| == RequestCount(script)
                && forall k :: 0 <= k < |requests| ==>
                     requests[k] == Params(baseUrl, apiKey, query, latitude, longitude, radius, TokenFor(script, k))
    {
      var first := Params(baseUrl, apiKey, query, latitude, longitude, radius, None);
      ParamsMissing(baseUrl, apiKey, query, latitude, longitude, radius, None);
      if first.query.None? && first.location.None? && first.radius.None? {
        // the first pass throws new Error("Parametri mancanti") before any request is
        // sent; the catch returns the empty result
        return [], [], 0;
      }
      res, requests, waits := Paginate(query, latitude, longitude, radius, script);
    }

    /** The pagination loop of startMaps once the parameters are known to be present:
        the check at the head of each pass cannot fail again, since the page token
        does not affect it. */
    method Paginate(query: string, latitude: Json, longitude: Json, radius: Json, script: Script)
      returns (res: seq<Fields>, requests: seq<Request>, waits: nat)
      ensures res == Fetched(script)
      ensures waits == PagesRead(script) && |requests| == RequestCount(script)
      ensures forall k :: 0 <= k < |requests| ==>
                requests[k] == Params(baseUrl, apiKey, query, latitude, longitude, radius, TokenFor(script, k))
    {
      res := [];
      requests := [];
      waits := 0;
      var nextPageToken: Option<string> := None;
      var trovato := false;
      var i := 0;
      RunsOnStart(script);
      while !trovato
        invariant !trovato ==> RunsOn(script, i)
        invariant trovato ==> res == Fetched(script) && PagesRead(script) == i && RequestCount(script) == i
        invariant res == ConcatResults(script[..i])
        invariant nextPageToken == TokenFor(script, i)
        invariant |requests| == i && waits == i
        invariant forall k :: 0 <= k < i ==>
                    requests[k] == Params(baseUrl, apiKey, query, latitude, longitude, radius, TokenFor(script, k))
        decreases |script| - i, !trovato
      {
        var params := Params(baseUrl, apiKey, query, latitude, longitude, radius, nextPageToken);
        requests := requests + [params];
        if i == |script| || script[i].NetworkError? {
          // the request fails; the catch keeps what was accumulated
          RunsOnFailure(script, i);
          break;
        }
        RunsOnPage(script, i);
        res := res + script[i].results;
        nextPageToken := script[i].nextPageToken;
        if !HasToken(nextPageToken) {
          trovato := true;
        }
        waits := waits + 1;
        i := i + 1;
      }
    }

    /** The comune loop of one province. `regionsBefore` and `provincesBefore` are
        the state's and the region's nodes as they were before this region and
        this province were entered: with them, `res` at each insert is known. */
    method WalkComuni(ctx: Ctx, regionsBefore: StateNode, region: string, provincesBefore: RegionNode,
                      province: string, p: Province) returns (w: Walk<Entries<seq<Fields>>>)
      ensures w == ComuniWalk(ctx, region, province, p.uuid, p.comuni)
    {
      var comuni: Entries<seq<Fields>> := [];
      var queries: seq<string> := [];
      var batches: seq<seq<Fields>> := [];
      var k := 0;
      while k < |p.comuni|
        invariant 0 <= k <= |p.comuni|
        invariant ComuniWalk(ctx, region, province, p.uuid, p.comuni[..k]) == Walk(comuni, queries, batches)
      {
        ComuniWalkStep(ctx, region, province, p.uuid, p.comuni, k);
        var nomeComune := p.comuni[k];
        var before := comuni;
        if Get(comuni, nomeComune).None? {
          comuni := Set(comuni, nomeComune, []);
        }
        var tempQuery := ComuneQuery(ctx.query, nomeComune, p.uuid, ctx.state);
        var maps, _, _ := StartMaps(tempQuery, Undefined, Undefined, Undefined, ctx.net(tempQuery));
        var tt := AnnotateAll(maps, province, p.uuid, ctx.state, region, Some(nomeComune));
        assert tt == ComuneRecords(ctx, region, province, p.uuid, nomeComune);
        SetSet(before, nomeComune, [], tt);
        comuni := Set(comuni, nomeComune, tt);
        queries := queries + [tempQuery];
        if ctx.mongoBatches {
          var res := [(ctx.state, Set(regionsBefore, region, Set(provincesBefore, province, ByComune(comuni))))];
          TransformAfterStore(regionsBefore, provincesBefore, before, ctx.state, region, province, nomeComune, tt);
          var transformed := TransformForMongo(res, "comune", Some(ctx.state), Some(region), Some(province), Some(nomeComune));
          batches := batches + [transformed.value];
        }
        k := k + 1;
      }
      assert p.comuni[..k] == p.comuni;
      w := Walk(comuni, queries, batches);
    }

    /** The body of the province loop, after `temp[regionReplaced][provinceReplaced] = {}`:
        one search at provincia level, the comune loop at comune level. */
    method WalkProvince(ctx: Ctx, regionsBefore: StateNode, region: string, provincesBefore: RegionNode,
                        nomeProvincia: string, provincia: Province)
      returns (pw: Walk<Leaf>)
      ensures pw == ProvinceWalk(ctx, region, nomeProvincia, provincia)
    {
      pw := Walk(Empty, [], []);
      if ctx.level == "provincia" {
        var tempQuery := ProvinciaQuery(ctx.query, nomeProvincia);
        var byMaps, _, _ := StartMaps(tempQuery, Undefined, Undefined, Undefined, ctx.net(tempQuery));
        var tt := AnnotateAll(byMaps, nomeProvincia, provincia.uuid, ctx.state, region, None);
        pw := Walk(Flat(tt), [tempQuery], []);
      } else if ctx.level == "comune" {
        var cw := WalkComuni(ctx, regionsBefore, region, provincesBefore, nomeProvincia, provincia);
        var leaf: Leaf := Empty;
        if provincia.comuni != [] {
          leaf := ByComune(cw.node);
        }
        pw := Walk(leaf, cw.queries, cw.batches);
      }
    }

    /** The province loop of one region. */
    method WalkProvinces(ctx: Ctx, regionsBefore: StateNode, region: string, ps: Hierarchy.Region)
      returns (w: Walk<RegionNode>)
      ensures w == RegionWalk(ctx, region, ps)
    {
      var node: RegionNode := [];
      var queries: seq<string> := [];
      var batches: seq<seq<Fields>> := [];
      var j := 0;
      while j < |ps|
        invariant 0 <= j <= |ps|
        invariant RegionWalk(ctx, region, ps[..j]) == Walk(node, queries, batches)
      {
        RegionWalkStep(ctx, region, ps, j);
        var (nomeProvincia, provincia) := ps[j];
        var before := node;
        node := Set(node, nomeProvincia, Empty);
        var pw := WalkProvince(ctx, regionsBefore, region, before, nomeProvincia, provincia);
        SetSet(before, nomeProvincia, Empty, pw.node);
        node := Set(node, nomeProvincia, pw.node);
        queries := queries + pw.queries;
        batches := batches + pw.batches;
        j := j + 1;
      }
      assert ps[..j] == ps;
      w := Walk(node, queries, batches);
    }

    /** The region loop. */
    method WalkRegions(ctx: Ctx, sel: Selection) returns (w: Walk<StateNode>)
      ensures w == StateWalk(ctx, sel)
    {
      var node: StateNode := [];
      var queries: seq<string> := [];
      var batches: seq<seq<Fields>> := [];
      var i := 0;
      while i < |sel|
        invariant 0 <= i <= |sel|
        invariant StateWalk(ctx, sel[..i]) == Walk(node, queries, batches)
      {
        assert sel[..i + 1][..i] == sel[..i];
        var (nomeRegione, provinces) := sel[i];
        var before := node;
        node := Set(node, nomeRegione, []);
        var rw := WalkProvinces(ctx, before, nomeRegione, provinces);
        SetSet(before, nomeRegione, [], rw.node);
        node := Set(node, nomeRegione, rw.node);
        queries := queries + rw.queries;
        batches := batches + rw.batches;
        i := i + 1;
      }
      assert sel[..i] == sel;
      w := Walk(node, queries, batches);
    }

    /** runMaps. The provincia-level mongo branch calls transformForMongo without
        a state key and fails outside its try block; it is not part of this model. */
    method RunMaps(args: RunArgs, net: string -> Script) returns (r: RunOutcome)
      requires args.skipFinding || !(args.level == "provincia" && args.mode == "mongo")
      ensures r == RunMapsSpec(mappaRegioni, args, net)
    {
      if args.skipFinding {
        return Inserted;
      }
      var filtered := FilterRegions(mappaRegioni, args.regioni, args.province);
      if filtered.Err? {
        return Failed(FilterFailed(filtered.error), []);
      }
      var w := WalkRegions(WalkCtx(args, net), filtered.value);
      var res: Tree := [(args.state, w.node)];
      if args.writeResult && args.mode != "mongo" {
        var clean := CleanExportData(res);
        if clean.Err? {
          return Failed(CleanFailed(clean.error), w.queries);
        }
      }
      return Done(res, w.queries, w.batches);
    }

    /** cleanExportData: the state loop, each state's regions cleaned in turn. */
    method CleanExportData(data: Tree) returns (r: Result<CleanTree, CleanError>)
      ensures r == CleanTreeOf(data)
    {
      var out: CleanTree := [];
      var i := 0;
      while i < |data|
        invariant 0 <= i <= |data|
        invariant Collect(StateResults(data)[..i]) == Ok(out)
      {
        var xs := StateResults(data);
        assert xs[..i + 1][..i] == xs[..i];
        var regions := CleanRegionsLoop(data[i].0, data[i].1);
        if regions.Err? {
          r := Err(regions.error);
          assert Collect(xs[..i + 1]) == r;
          CollectFailurePersists(xs, i + 1);
          return;
        }
        if regions.value != [] {
          out := out + [(data[i].0, regions.value)];
        }
        i := i + 1;
      }
      assert StateResults(data)[..i] == StateResults(data);
      r := Ok(out);
    }
  
    /** getExportByMaps on the tree that getExtraction read: unchanged by default,
        and with `clean` the clean export, which fails exactly when some province
        node has no `comuni` map. */
    function GetExportByMaps(data: Tree, clean: bool): (r: Result<Export, CleanError>)
      ensures !clean ==> r == Ok(Raw(data))
      ensures clean ==> (r.Err? <==> exists i, j, k :: 0 <= i < |data| && 0 <= j < |data[i].1| && 0 <= k < |data[i].1[j].1| && !data[i].1[j].1[k].1.ByComune?)
      ensures clean && r.Ok? ==> r.value.Cleaned?
    {
      if !clean then Ok(Raw(data))
      else
        CleanFails(data);
        match CleanTreeOf(data)
        case Ok(out) => Ok(Cleaned(out))
        case Err(e) => Err(e)
    }

    /** Reading the cleaned export at `state / region / province` gives the cleaned
        comuni of the stored leaf, and nothing where the stored tree has no comuni. */
    lemma GetExportLookup(data: Tree, s: string, region: string, p: string)
      requires WellFormed(data)
      requires GetExportByMaps(data, true).Ok?
      ensures Lookup(GetExportByMaps(data, true).value.clean, s, region, p) == ExportedComuni(Lookup(data, s, region, p))
    {
      CleanLookup(data, CleanTreeOf(data).value, s, region, p);
    }
  }
}

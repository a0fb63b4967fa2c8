/**
  mapsScraping: the module-level variant of the scraper that the command line
  calls. Its startMaps never sends the query (every request carries the location
  template, the radius and the key) and can keep only the records whose `types`
  include 'store'. Its runMaps walks the reference data as given, without any
  region or province filter, keys the result tree by normalised names while the
  annotation keeps the raw ones, and never resets `query`: every search appends
  its suffix to the query of the search before.
 */
module MapsScraping {
  import opened Wrappers
  import opened AssocList
  import opened Js
  import opened Names
  import opened Paging
  import opened Hierarchy
  import opened ResultTree
  import opened Seqs

  const BaseUrl := "https://maps.googleapis.com/maps/api/place/textsearch/json"

  // ---------------------------------------------------------------------------
  // startMaps

  /** The `params` object of one request: the location template, the radius and
      the key always, the page token once a truthy one was received, never the query. */
  function Params(key: string, latitude: Json, longitude: Json, radius: Json, token: Option<string>): Request {
    Request(BaseUrl, key, if HasToken(token) then token else None, Some(Location(latitude, longitude)), Some(radius), None)
  }

  /** `s.includes(pat)` on strings. */
  predicate HasSubstring(s: string, pat: string)
    decreases |s|
  {
    pat <= s || (s != [] && HasSubstring(s[1..], pat))
  }

  /** `types.includes('store')`: membership for an array, substring search for a
      string, and `None` where `includes` is not a function (the call throws). */
  function IncludesStore(types: Json): Option<bool> {
    match types
    case Arr(items) => Some(Str("store") in items)
    case Str(s) => Some(HasSubstring(s, "store"))
    case _ => None
  }

  /** A record on which the filter callback does not throw. */
  predicate Filterable(el: Fields) {
    IncludesStore(Prop(el, "types")).Some?
  }

  /** A record the filter keeps. */
  predicate IsStore(el: Fields) {
    IncludesStore(Prop(el, "types")) == Some(true)
  }

  /** The TypeError the filter callback raises, outside the try block, on the
      first record whose `types` has no `includes`. */
  datatype TypeError = NoIncludes(record: Fields)

  /** `res.filter((el) => el.types.includes('store'))` */
  function StoreFilter(res: seq<Fields>): (r: Result<seq<Fields>, TypeError>)
    ensures r.Ok? <==> forall i :: 0 <= i < |res| ==> Filterable(res[i])
    ensures r.Err? ==> r.error.record in res && !Filterable(r.error.record)
    ensures r.Err? ==> exists i :: 0 <= i < |res| && res[i] == r.error.record
                                   && forall j :: 0 <= j < i ==> Filterable(res[j])
  {
    if res == [] then Ok([])
    else
      var init := res[..|res| - 1];
      var el := res[|res| - 1];
      assert res == init + [el];
      match StoreFilter(init)
      case Err(e) => Err(e)
      case Ok(kept) =>
        if !Filterable(el) then Err(NoIncludes(el))
        else Ok(kept + if IsStore(el) then [el] else [])
  }

  /** The filter keeps exactly the stores among the records. */
  lemma {:induction false} StoreFilterMembers(res: seq<Fields>)
    requires StoreFilter(res).Ok?
    ensures forall e :: e in StoreFilter(res).value <==> e in res && IsStore(e)
  {
    if res != [] {
      var init := res[..|res| - 1];
      assert res == init + [res[|res| - 1]];
      StoreFilterMembers(init);
    }
  }

  /** A failure in the first records is the failure of the whole filter. */
  lemma {:induction false} StoreFilterErrPersists(xs: seq<Fields>, ys: seq<Fields>)
    requires StoreFilter(xs).Err?
    ensures StoreFilter(xs + ys) == StoreFilter(xs)
    decreases |ys|
  {
    if ys == [] {
      assert xs + ys == xs;
    } else {
      var m := |ys| - 1;
      DropLastOfAppend(xs, ys);
      StoreFilterErrPersists(xs, ys[..m]);
    }
  }

  /** The filter works record by record, keeping order: filtering a concatenation
      concatenates the filtered parts. */
  lemma {:induction false} StoreFilterAppend(xs: seq<Fields>, ys: seq<Fields>)
    requires StoreFilter(xs).Ok? && StoreFilter(ys).Ok?
    ensures StoreFilter(xs + ys) == Ok(StoreFilter(xs).value + StoreFilter(ys).value)
    decreases |ys|
  {
    if ys == [] {
      var a := StoreFilter(xs).value;
      assert xs + ys == xs;
      assert StoreFilter(ys) == Ok([]);
      assert a + [] == a;
    } else {
      var m := |ys| - 1;
      var last := ys[m];
      DropLastOfAppend(xs, ys);
      StoreFilterAppend(xs, ys[..m]);
      var a, b := StoreFilter(xs).value, StoreFilter(ys[..m]).value;
      var t := if IsStore(last) then [last] else [];
      assert StoreFilter(ys) == Ok(b + t);
      assert StoreFilter(xs + ys) == Ok((a + b) + t);
      assert (a + b) + t == a + (b + t);
    }
  }

  /** One record: kept when its `types` include 'store', dropped otherwise. */
  lemma StoreFilterOne(el: Fields)
    ensures StoreFilter([el]) ==
            if !Filterable(el) then Err(NoIncludes(el)) else if IsStore(el) then Ok([el]) else Ok([])
  {
    var one := [el];
    assert one[..|one| - 1] == [];
    var none: seq<Fields> := [];
    assert none + [el] == [el] && none + [] == [];
  }

  /** startMaps of this variant: the same pagination as the class (pages concatenated
      until one without a token, a failure keeping what was accumulated, one wait
      after every page), with no parameter check; the query argument is accepted
      and never read. With a truthy `filter` the store filter runs on the result. */
  method StartMaps(key: string, query: string, latitude: Json, longitude: Json, radius: Json, filter: Json, script: Script)
    returns (shops: Result<seq<Fields>, TypeError>, requests: seq<Request>, waits: nat)
    ensures shops == if Truthy(filter) then StoreFilter(Fetched(script)) else Ok(Fetched(script))
    ensures waits == PagesRead(script) && |requests| == RequestCount(script)
    ensures forall k :: 0 <= k < |requests| ==> requests[k] == Params(key, latitude, longitude, radius, TokenFor(script, k))
  {
    var res;
    res, requests, waits := Paginate(key, latitude, longitude, radius, script);
    shops := if Truthy(filter) then StoreFilter(res) else Ok(res);
  }

  /** The pagination loop of startMaps. */
  method Paginate(key: string, latitude: Json, longitude: Json, radius: Json, script: Script)
    returns (res: seq<Fields>, requests: seq<Request>, waits: nat)
    ensures res == Fetched(script)
    ensures waits == PagesRead(script) && |requests| == RequestCount(script)
    ensures forall k :: 0 <= k < |requests| ==> requests[k] == Params(key, latitude, longitude, radius, TokenFor(script, k))
  {
    res := [];
    requests := [];
    waits := 0;
    var nextPageToken: Option<string> := None;
    var trovato := false;
    var i := 0;
    RunsOnStart(script);
    while !trovato
      invariant !trovato ==> RunsOn(script, i)
      invariant trovato ==> res == Fetched(script) && PagesRead(script) == i && RequestCount(script) == i
      invariant res == ConcatResults(script[..i])
      invariant nextPageToken == TokenFor(script, i)
      invariant |requests| == i && waits == i
      invariant forall k :: 0 <= k < i ==> requests[k] == Params(key, latitude, longitude, radius, TokenFor(script, k))
      decreases |script| - i, !trovato
    {
      var params := Params(key, latitude, longitude, radius, nextPageToken);
      requests := requests + [params];
      if i == |script| || script[i].NetworkError? {
        // the request fails; the catch keeps what was accumulated
        RunsOnFailure(script, i);
        break;
      }
      RunsOnPage(script, i);
      res := res + script[i].results;
      nextPageToken := script[i].nextPageToken;
      if !HasToken(nextPageToken) {
        trovato := true;
      }
      waits := waits + 1;
      i := i + 1;
    }
  }

  // ---------------------------------------------------------------------------
  // runMaps: the walk

  /** `${query} provincia ${provincia}`, appended to the running query. */
  function ProvinciaSuffix(province: string): string {
    " provincia " + province
  }

  /** `, ${comune}, ${uuid}, ${state}`, appended to the running query. */
  function ComuneSuffix(comune: string, uuid: string, state: string): string {
    ", " + comune + ", " + uuid + ", " + state
  }

  /** `regs[regione][provincia]?.comuni?.length` bounds the comune loop: no list, no iteration. */
  function ComuniOf(p: ProvinceRef): seq<string> {
    match p.comuni case Some(cs) => cs case None => []
  }

  /** The `level` option as the walk reads it: only `"provincia"` and `"comune"` search. */
  datatype Level = ProvinciaLevel | ComuneLevel | OtherLevel

  function LevelOf(level: string): (l: Level)
    ensures l == ProvinciaLevel <==> level == "provincia"
    ensures l == ComuneLevel <==> level == "comune"
  {
    if level == "provincia" then ProvinciaLevel else if level == "comune" then ComuneLevel else OtherLevel
  }

  /** What stays fixed during one walk. Every request this walk sends is the same
      (no location, no radius, no query reach startMaps), so the endpoint's answers
      are given by the ordinal of the startMaps call. */
  datatype Ctx = Ctx(key: string, state: string, level: Level, mongoBatches: bool, net: nat -> Script,
                     found: nat -> seq<Fields>)

  /** `found(n)` is what the `n`-th startMaps call returns: the results of the
      pages it reads from its script. */
  ghost predicate Answers(ctx: Ctx) {
    forall n {:trigger ctx.net(n)} :: ctx.found(n) == Fetched(ctx.net(n))
  }

  /** A walk over part of the hierarchy: the tree node, the query after it, the
      query of each startMaps call in order, and the arrays handed to insertData. */
  datatype Walk<N> = Walk(node: N, query: string, queries: seq<string>, batches: seq<seq<Fields>>)

  /** The annotated results of the `n`-th startMaps call, with the raw names. */
  function Records(ctx: Ctx, n: nat, region: string, province: string, uuid: string, comune: Option<string>): seq<Fields> {
    AnnotatedAll(ctx.found(n), province, uuid, ctx.state, region, comune)
  }

  /** A walk `w` followed by the walk `sub` of one child, stored under `key`. */
  function Extend<V>(w: Walk<Entries<V>>, key: string, sub: Walk<V>): Walk<Entries<V>> {
    Walk(Set(w.node, key, sub.node), sub.query, w.queries + sub.queries, w.batches + sub.batches)
  }

  /** The search for one comune, the `n`-th call, as a walk of its own. */
  function ComuneSearch(ctx: Ctx, q0: string, n: nat, region: string, province: string, uuid: string,
                        c: string): Walk<seq<Fields>> {
    var q := q0 + ComuneSuffix(c, uuid, ctx.state);
    var records := Records(ctx, n, region, province, uuid, Some(c));
    Walk(records, q, [q], if ctx.mongoBatches then [records] else [])
  }

  /** The comune loop of one province, starting with query `q0` after `n0` calls. */
  function ComuniWalk(ctx: Ctx, q0: string, n0: nat, region: string, province: string, uuid: string,
                      comuni: seq<string>): Walk<Entries<seq<Fields>>> {
    if comuni == [] then Walk([], q0, [], [])
    else
      ComuneStep(ctx, n0, region, province, uuid, ComuniWalk(ctx, q0, n0, region, province, uuid, comuni[..|comuni| - 1]),
                 comuni[|comuni| - 1])
  }

  /** One pass of the comune loop after the walk `w`: the search of comune `c`,
      stored under its normalised name. */
  function ComuneStep(ctx: Ctx, n0: nat, region: string, province: string, uuid: string,
                      w: Walk<Entries<seq<Fields>>>, c: string): Walk<Entries<seq<Fields>>> {
    Extend(w, NormalizeName(c), ComuneSearch(ctx, w.query, n0 + |w.queries|, region, province, uuid, c))
  }

  /** One province: at provincia level one search, its annotated results the leaf;
      at comune level `{comuni: {...}}`, one search per comune; otherwise the `{}`
      placeholder. */
  function ProvinceWalk(ctx: Ctx, q0: string, n0: nat, region: string, province: string, p: ProvinceRef): Walk<Leaf> {
    match ctx.level
    case ProvinciaLevel =>
      var q := q0 + ProvinciaSuffix(province);
      Walk(Flat(Records(ctx, n0, region, province, p.uuid, None)), q, [q], [])
    case ComuneLevel =>
      var w := ComuniWalk(ctx, q0, n0, region, province, p.uuid, ComuniOf(p));
      Walk(ByComune(w.node), w.query, w.queries, w.batches)
    case OtherLevel =>
      Walk(Empty, q0, [], [])
  }

  /** The province loop of one region; `temp[regionReplaced] = {}` starts it from nothing. */
  function RegionWalk(ctx: Ctx, q0: string, n0: nat, region: string, pr: RegionRef): Walk<RegionNode> {
    if pr == [] then Walk([], q0, [], [])
    else
      ProvinceStep(ctx, n0, region, RegionWalk(ctx, q0, n0, region, pr[..|pr| - 1]), pr[|pr| - 1])
  }

  /** One pass of the province loop after the walk `w`. */
  function ProvinceStep(ctx: Ctx, n0: nat, region: string, w: Walk<RegionNode>, last: (string, ProvinceRef)): Walk<RegionNode> {
    Extend(w, NormalizeName(last.0), ProvinceWalk(ctx, w.query, n0 + |w.queries|, region, last.0, last.1))
  }

  /** The region loop over the reference data, `temp` as it ends. */
  function StateWalk(ctx: Ctx, q0: string, regs: Reference): Walk<StateNode> {
    if regs == [] then Walk([], q0, [], [])
    else
      RegionStep(ctx, StateWalk(ctx, q0, regs[..|regs| - 1]), regs[|regs| - 1])
  }

  /** One pass of the region loop after the walk `w`. */
  function RegionStep(ctx: Ctx, w: Walk<StateNode>, last: (string, RegionRef)): Walk<StateNode> {
    Extend(w, NormalizeName(last.0), RegionWalk(ctx, w.query, |w.queries|, last.0, last.1))
  }

  /** The destructured options of runMaps, defaults applied; `regions` is `None`
      when it is `null` or absent. */
  datatype RunArgs = RunArgs(
    regions: Option<Reference>,
    state: string,
    mode: string,
    level: string,
    skipFinding: bool,
    query: string)

  /** How runMaps settles: `insertData()` alone, or the returned `res` with the
      searches made and the arrays inserted. */
  datatype RunOutcome =
    | Inserted
    | Done(res: Tree, queries: seq<string>, batches: seq<seq<Fields>>)

  function WalkCtx(key: string, args: RunArgs, net: nat -> Script): Ctx {
    Ctx(key, args.state, LevelOf(args.level), args.mode == "mongo", net, (n: nat) => Fetched(net(n)))
  }

  /** `regions || comuniItaliani`: an object is always truthy. */
  function Regs(reference: Reference, args: RunArgs): Reference {
    if args.regions.Some? then args.regions.value else reference
  }

  /** runMaps: `res[state] = temp` runs after every search, and `res` shares `temp`,
      so `res` ends as `{[state]: temp}` when at least one search ran and `{}` otherwise. */
  function RunMapsSpec(reference: Reference, key: string, args: RunArgs, net: nat -> Script): RunOutcome {
    if args.skipFinding then Inserted
    else
      var w := StateWalk(WalkCtx(key, args, net), args.query, Regs(reference, args));
      Done(if w.queries != [] then [(args.state, w.node)] else [], w.queries, w.batches)
  }

  /** One pass of the comune loop: the search of the `k`-th comune, stored under its
      normalised name. */
  lemma ComuniWalkStep(ctx: Ctx, q0: string, n0: nat, region: string, province: string, uuid: string,
                       comuni: seq<string>, k: nat, w: Walk<Entries<seq<Fields>>>, cw: Walk<seq<Fields>>)
    requires k < |comuni| && w == ComuniWalk(ctx, q0, n0, region, province, uuid, comuni[..k])
    requires cw == ComuneSearch(ctx, w.query, n0 + |w.queries|, region, province, uuid, comuni[k])
    ensures ComuniWalk(ctx, q0, n0, region, province, uuid, comuni[..k + 1]) == Extend(w, NormalizeName(comuni[k]), cw)
  {
    TakeOneMore(comuni, k);
    ComuniWalkLast(ctx, q0, n0, region, province, uuid, comuni[..k + 1]);
  }

  lemma ComuniWalkLast(ctx: Ctx, q0: string, n0: nat, region: string, province: string, uuid: string, cs: seq<string>)
    requires cs != []
    ensures ComuniWalk(ctx, q0, n0, region, province, uuid, cs)
            == ComuneStep(ctx, n0, region, province, uuid, ComuniWalk(ctx, q0, n0, region, province, uuid, cs[..|cs| - 1]), cs[|cs| - 1])
  {
  }

  /** One pass of the province loop. */
  lemma RegionWalkStep(ctx: Ctx, q0: string, n0: nat, region: string, pr: RegionRef, j: nat,
                       w: Walk<RegionNode>, pw: Walk<Leaf>)
    requires j < |pr| && w == RegionWalk(ctx, q0, n0, region, pr[..j])
    requires pw == ProvinceWalk(ctx, w.query, n0 + |w.queries|, region, pr[j].0, pr[j].1)
    ensures RegionWalk(ctx, q0, n0, region, pr[..j + 1]) == Extend(w, NormalizeName(pr[j].0), pw)
  {
    TakeOneMore(pr, j);
    RegionWalkLast(ctx, q0, n0, region, pr[..j + 1]);
  }

  lemma RegionWalkLast(ctx: Ctx, q0: string, n0: nat, region: string, pr: RegionRef)
    requires pr != []
    ensures RegionWalk(ctx, q0, n0, region, pr) == ProvinceStep(ctx, n0, region, RegionWalk(ctx, q0, n0, region, pr[..|pr| - 1]), pr[|pr| - 1])
  {
  }

  /** One pass of the region loop. */
  lemma StateWalkStep(ctx: Ctx, q0: string, regs: Reference, i: nat, w: Walk<StateNode>, rw: Walk<RegionNode>)
    requires i < |regs| && w == StateWalk(ctx, q0, regs[..i])
    requires rw == RegionWalk(ctx, w.query, |w.queries|, regs[i].0, regs[i].1)
    ensures StateWalk(ctx, q0, regs[..i + 1]) == Extend(w, NormalizeName(regs[i].0), rw)
  {
    TakeOneMore(regs, i);
    StateWalkLast(ctx, q0, regs[..i + 1]);
  }

  lemma StateWalkLast(ctx: Ctx, q0: string, regs: Reference)
    requires regs != []
    ensures StateWalk(ctx, q0, regs) == RegionStep(ctx, StateWalk(ctx, q0, regs[..|regs| - 1]), regs[|regs| - 1])
  {
  }

  /** A walk followed by one child's walk, as the loops assign it. */
  lemma ExtendIs<V>(w: Walk<Entries<V>>, key: string, sub: Walk<V>)
    ensures Extend(w, key, sub) == Walk(Set(w.node, key, sub.node), sub.query, w.queries + sub.queries, w.batches + sub.batches)
  {
  }

  /** One comune search: the query gains its suffix, startMaps runs on it, the
      results are annotated; in mongo mode the array just stored at
      `state / region / province / comune` is read back for insertData. */
  method SearchComune(ctx: Ctx, regionsBefore: StateNode, regionKey: string, provincesBefore: RegionNode,
                      provinceKey: string, comuniBefore: Entries<seq<Fields>>, query: string, n: nat,
                      region: string, province: string, uuid: string, comune: string)
    returns (cw: Walk<seq<Fields>>)
    requires Answers(ctx)
    ensures cw == ComuneSearch(ctx, query, n, region, province, uuid, comune)
  {
    var comuneKey := NormalizeName(comune);
    var q := query + ComuneSuffix(comune, uuid, ctx.state);
    var maps, _, _ := StartMaps(ctx.key, q, Undefined, Undefined, Undefined, Bool(false), ctx.net(n));
    // `if (!maps) continue;` never fires: without the filter the result is the accumulated array
    var tt := AnnotateAll(maps.value, province, uuid, ctx.state, region, Some(comune));
    var batch := [];
    if ctx.mongoBatches {
      var res: Tree := [(ctx.state, Set(regionsBefore, regionKey, Set(provincesBefore, provinceKey, ByComune(Set(comuniBefore, comuneKey, tt)))))];
      TransformAfterStore(regionsBefore, provincesBefore, comuniBefore, ctx.state, regionKey, provinceKey, comuneKey, tt);
      var transformed := TransformForMongo(res, "comune", Some(ctx.state), Some(regionKey), Some(provinceKey), Some(comuneKey));
      batch := [transformed.value];
    }
    cw := Walk(tt, q, [q], batch);
  }

  /** The comune loop. */
  method WalkComuni(ctx: Ctx, regionsBefore: StateNode, regionKey: string, provincesBefore: RegionNode,
                    provinceKey: string, query: string, calls: nat, region: string, province: string,
                    uuid: string, comuni: seq<string>)
    returns (w: Walk<Entries<seq<Fields>>>)
    requires Answers(ctx)
    ensures w == ComuniWalk(ctx, query, calls, region, province, uuid, comuni)
  {
    var node: Entries<seq<Fields>> := [];
    var q := query;
    var queries: seq<string> := [];
    var batches: seq<seq<Fields>> := [];
    var k := 0;
    while k < |comuni|
      invariant 0 <= k <= |comuni|
      invariant ComuniWalk(ctx, query, calls, region, province, uuid, comuni[..k]) == Walk(node, q, queries, batches)
    {
      ghost var w0 := Walk(node, q, queries, batches);
      var comune := comuni[k];
      var cw := SearchComune(ctx, regionsBefore, regionKey, provincesBefore, provinceKey, node, q, calls + |queries|,
                             region, province, uuid, comune);
      ComuniWalkStep(ctx, query, calls, region, province, uuid, comuni, k, w0, cw);
      ExtendIs(w0, NormalizeName(comune), cw);
      node := Set(node, NormalizeName(comune), cw.node);
      q := cw.query;
      queries := queries + cw.queries;
      batches := batches + cw.batches;
      k := k + 1;
    }
    TakeAll(comuni);
    w := Walk(node, q, queries, batches);
  }

  /** The body of the province loop: `temp[regionReplaced][provinceReplaced] = {}`,
      then one search at provincia level or the comune loop at comune level. */
  method WalkProvince(ctx: Ctx, regionsBefore: StateNode, regionKey: string, provincesBefore: RegionNode,
                      query: string, calls: nat, region: string, province: string, p: ProvinceRef)
    returns (pw: Walk<Leaf>)
    requires Answers(ctx)
    ensures pw == ProvinceWalk(ctx, query, calls, region, province, p)
  {
    var provinceKey := NormalizeName(province);
    if ctx.level == ProvinciaLevel {
      var q := query + ProvinciaSuffix(province);
      var byMaps, _, _ := StartMaps(ctx.key, q, Undefined, Undefined, Undefined, Bool(false), ctx.net(calls));
      var tt := AnnotateAll(byMaps.value, province, p.uuid, ctx.state, region, None);
      pw := Walk(Flat(tt), q, [q], []);
    } else if ctx.level == ComuneLevel {
      // `temp[regionReplaced][provinceReplaced] = {comuni: {}}`, filled by the comune loop
      var cw := WalkComuni(ctx, regionsBefore, regionKey, provincesBefore, provinceKey, query, calls,
                           region, province, p.uuid, ComuniOf(p));
      pw := Walk(ByComune(cw.node), cw.query, cw.queries, cw.batches);
    } else {
      pw := Walk(Empty, query, [], []);
    }
  }

  /** The province loop of one region. */
  method WalkProvinces(ctx: Ctx, regionsBefore: StateNode, regionKey: string, query: string, calls: nat,
                       region: string, pr: RegionRef)
    returns (w: Walk<RegionNode>)
    requires Answers(ctx)
    ensures w == RegionWalk(ctx, query, calls, region, pr)
  {
    var node: RegionNode := [];
    var q := query;
    var queries: seq<string> := [];
    var batches: seq<seq<Fields>> := [];
    var j := 0;
    while j < |pr|
      invariant 0 <= j <= |pr|
      invariant RegionWalk(ctx, query, calls, region, pr[..j]) == Walk(node, q, queries, batches)
    {
      ghost var w0 := Walk(node, q, queries, batches);
      var provinceKey := NormalizeName(pr[j].0);
      var n := calls + |queries|;
      var before := node;
      node := Set(node, provinceKey, Empty);
      var pw := WalkProvince(ctx, regionsBefore, regionKey, before, q, n, region, pr[j].0, pr[j].1);
      RegionWalkStep(ctx, query, calls, region, pr, j, w0, pw);
      ExtendIs(w0, provinceKey, pw);
      SetSet(before, provinceKey, Empty, pw.node);
      node := Set(node, provinceKey, pw.node);
      q := pw.query;
      queries := queries + pw.queries;
      batches := batches + pw.batches;
      j := j + 1;
    }
    TakeAll(pr);
    w := Walk(node, q, queries, batches);
  }

  /** The region loop. */
  method WalkRegions(ctx: Ctx, query: string, regs: Reference) returns (w: Walk<StateNode>)
    requires Answers(ctx)
    ensures w == StateWalk(ctx, query, regs)
  {
    var temp: StateNode := [];
    var q := query;
    var queries: seq<string> := [];
    var batches: seq<seq<Fields>> := [];
    var i := 0;
    while i < |regs|
      invariant 0 <= i <= |regs|
      invariant StateWalk(ctx, query, regs[..i]) == Walk(temp, q, queries, batches)
    {
      ghost var w0 := Walk(temp, q, queries, batches);
      var regionKey := NormalizeName(regs[i].0);
      var before := temp;
      temp := Set(temp, regionKey, []);
      var rw := WalkProvinces(ctx, before, regionKey, q, |queries|, regs[i].0, regs[i].1);
      StateWalkStep(ctx, query, regs, i, w0, rw);
      ExtendIs(w0, regionKey, rw);
      SetSet(before, regionKey, [], rw.node);
      temp := Set(temp, regionKey, rw.node);
      q := rw.query;
      queries := queries + rw.queries;
      batches := batches + rw.batches;
      i := i + 1;
    }
    TakeAll(regs);
    w := Walk(temp, q, queries, batches);
  }

  /** runMaps of this variant. The provincia-level mongo branch calls
      transformForMongo without a state key and fails outside its try block; it
      is not part of this model. */
  method RunMaps(reference: Reference, key: string, args: RunArgs, net: nat -> Script) returns (r: RunOutcome)
    requires args.skipFinding || !(args.level == "provincia" && args.mode == "mongo")
    ensures r == RunMapsSpec(reference, key, args, net)
  {
    if args.skipFinding {
      return Inserted;
    }
    var regs := if args.regions.Some? then args.regions.value else reference;
    var w := WalkRegions(WalkCtx(key, args, net), args.query, regs);
    var res: Tree := [];
    if w.queries != [] {
      res := [(args.state, w.node)];
    }
    return Done(res, w.queries, w.batches);
  }

  // ---------------------------------------------------------------------------
  // What the requests carry

  /** Each request of a run carries the location template, the radius and the key,
      never the query; the first carries no page token and every later one the
      token of the page before it. */
  lemma RequestsOfRun(key: string, latitude: Json, longitude: Json, radius: Json, script: Script, k: nat)
    requires k < RequestCount(script)
    ensures var r := Params(key, latitude, longitude, radius, TokenFor(script, k));
            && r.query.None? && r.key == key && r.radius == Some(radius)
            && r.location == Some(Location(latitude, longitude))
            && (k == 0 ==> r.pagetoken.None?)
            && (k > 0 ==> script[k - 1].Page? && r.pagetoken == script[k - 1].nextPageToken && HasToken(r.pagetoken))
  {
    if k > 0 {
      RequestFollowsToken(script, k);
    }
  }

  // ---------------------------------------------------------------------------
  // The running query

  /** Strings joined in order. */
  function Concat(ss: seq<string>): string {
    if ss == [] then "" else Concat(ss[..|ss| - 1]) + ss[|ss| - 1]
  }

  /** The suffixes of the comune searches of one province. */
  function ComuneSuffixes(state: string, uuid: string, cs: seq<string>): (r: seq<string>)
    ensures |r| == |cs|
  {
    if cs == [] then [] else ComuneSuffixes(state, uuid, cs[..|cs| - 1]) + [ComuneSuffix(cs[|cs| - 1], uuid, state)]
  }

  /** The suffixes one province appends, one per search. */
  function ProvinceSuffixes(level: Level, state: string, province: string, p: ProvinceRef): seq<string> {
    if level == ProvinciaLevel then [ProvinciaSuffix(province)]
    else if level == ComuneLevel then ComuneSuffixes(state, p.uuid, ComuniOf(p))
    else []
  }

  function RegionSuffixes(level: Level, state: string, pr: RegionRef): seq<string> {
    if pr == [] then []
    else RegionSuffixes(level, state, pr[..|pr| - 1]) + ProvinceSuffixes(level, state, pr[|pr| - 1].0, pr[|pr| - 1].1)
  }

  /** Every suffix the walk appends, in search order. */
  function Suffixes(level: Level, state: string, regs: Reference): seq<string> {
    if regs == [] then []
    else Suffixes(level, state, regs[..|regs| - 1]) + RegionSuffixes(level, state, regs[|regs| - 1].1)
  }

  /** Starting from `q0` and appending `sfx` one by one, the `k`-th search gets
      `q0` followed by the first `k + 1` suffixes, and `q` is where the query ends. */
  predicate Accumulates(q0: string, sfx: seq<string>, queries: seq<string>, q: string) {
    && |queries| == |sfx|
    && q == q0 + Concat(sfx)
    && forall k :: 0 <= k < |queries| ==> queries[k] == q0 + Concat(sfx[..k + 1])
  }

  lemma {:induction false} ConcatAppend(s1: seq<string>, s2: seq<string>)
    ensures Concat(s1 + s2) == Concat(s1) + Concat(s2)
    decreases |s2|
  {
    if s2 == [] {
      assert s1 + s2 == s1;
      assert Concat(s1) + "" == Concat(s1);
    } else {
      var m := |s2| - 1;
      DropLastOfAppend(s1, s2);
      ConcatAppend(s1, s2[..m]);
      ConcatLast(s1 + s2);
      ConcatLast(s2);
      AppendAssoc(Concat(s1), Concat(s2[..m]), s2[m]);
    }
  }

  lemma ConcatLast(ss: seq<string>)
    requires ss != []
    ensures Concat(ss) == Concat(ss[..|ss| - 1]) + ss[|ss| - 1]
  {
  }

  lemma AccumulatesOne(q0: string, s: string)
    ensures Accumulates(q0, [s], [q0 + s], q0 + s)
  {
    assert [s][..1] == [s];
    assert Concat([s]) == s by {
      assert [s][..0] == [];
      assert "" + s == s;
    }
  }

  lemma AccumulatesNone(q0: string)
    ensures Accumulates(q0, [], [], q0)
  {
    assert q0 + "" == q0;
  }

  /** Two stretches of searches, one after the other. */
  lemma AccumulatesAppend(q0: string, s1: seq<string>, qs1: seq<string>, q1: string,
                          s2: seq<string>, qs2: seq<string>, q2: string)
    requires Accumulates(q0, s1, qs1, q1) && Accumulates(q1, s2, qs2, q2)
    ensures Accumulates(q0, s1 + s2, qs1 + qs2, q2)
  {
    ConcatAppend(s1, s2);
    AppendAssoc(q0, Concat(s1), Concat(s2));
    forall k | 0 <= k < |qs1 + qs2|
      ensures (qs1 + qs2)[k] == q0 + Concat((s1 + s2)[..k + 1])
    {
      AccumulatesAt(q0, s1, qs1, q1, s2, qs2, q2, k);
    }
  }

  lemma AccumulatesAt(q0: string, s1: seq<string>, qs1: seq<string>, q1: string,
                      s2: seq<string>, qs2: seq<string>, q2: string, k: nat)
    requires Accumulates(q0, s1, qs1, q1) && Accumulates(q1, s2, qs2, q2)
    requires k < |qs1 + qs2|
    ensures (qs1 + qs2)[k] == q0 + Concat((s1 + s2)[..k + 1])
  {
    TakeOfAppend(s1, s2, k + 1);
    if k >= |qs1| {
      var k2 := k - |qs1|;
      ConcatAppend(s1, s2[..k2 + 1]);
      AppendAssoc(q0, Concat(s1), Concat(s2[..k2 + 1]));
      assert (qs1 + qs2)[k] == qs2[k2];
    }
  }

  lemma {:induction false} ComuniAccumulate(ctx: Ctx, q0: string, n0: nat, region: string, province: string,
                                            uuid: string, cs: seq<string>)
    ensures var w := ComuniWalk(ctx, q0, n0, region, province, uuid, cs);
            Accumulates(q0, ComuneSuffixes(ctx.state, uuid, cs), w.queries, w.query)
  {
    if cs == [] {
      AccumulatesNone(q0);
    } else {
      var m := |cs| - 1;
      ComuniAccumulate(ctx, q0, n0, region, province, uuid, cs[..m]);
      var w := ComuniWalk(ctx, q0, n0, region, province, uuid, cs[..m]);
      var sfx := ComuneSuffix(cs[m], uuid, ctx.state);
      AccumulatesOne(w.query, sfx);
      AccumulatesAppend(q0, ComuneSuffixes(ctx.state, uuid, cs[..m]), w.queries, w.query,
                        [sfx], [w.query + sfx], w.query + sfx);
    }
  }

  lemma ProvinceAccumulate(ctx: Ctx, q0: string, n0: nat, region: string, province: string, p: ProvinceRef)
    ensures var pw := ProvinceWalk(ctx, q0, n0, region, province, p);
            Accumulates(q0, ProvinceSuffixes(ctx.level, ctx.state, province, p), pw.queries, pw.query)
  {
    if ctx.level == ProvinciaLevel {
      AccumulatesOne(q0, ProvinciaSuffix(province));
    } else if ctx.level == ComuneLevel {
      ComuniAccumulate(ctx, q0, n0, region, province, p.uuid, ComuniOf(p));
    } else {
      AccumulatesNone(q0);
    }
  }

  lemma {:induction false} RegionAccumulate(ctx: Ctx, q0: string, n0: nat, region: string, pr: RegionRef)
    ensures var w := RegionWalk(ctx, q0, n0, region, pr);
            Accumulates(q0, RegionSuffixes(ctx.level, ctx.state, pr), w.queries, w.query)
  {
    if pr == [] {
      AccumulatesNone(q0);
    } else {
      var m := |pr| - 1;
      RegionAccumulate(ctx, q0, n0, region, pr[..m]);
      var w := RegionWalk(ctx, q0, n0, region, pr[..m]);
      var pw := ProvinceWalk(ctx, w.query, n0 + |w.queries|, region, pr[m].0, pr[m].1);
      ProvinceAccumulate(ctx, w.query, n0 + |w.queries|, region, pr[m].0, pr[m].1);
      AccumulatesExtend(q0, RegionSuffixes(ctx.level, ctx.state, pr[..m]), w,
                        ProvinceSuffixes(ctx.level, ctx.state, pr[m].0, pr[m].1), NormalizeName(pr[m].0), pw);
      RegionWalkLast(ctx, q0, n0, region, pr);
    }
  }

  /** A walk followed by one child's walk accumulates both stretches of suffixes. */
  lemma AccumulatesExtend<V>(q0: string, s1: seq<string>, w: Walk<Entries<V>>, s2: seq<string>, key: string, sub: Walk<V>)
    requires Accumulates(q0, s1, w.queries, w.query) && Accumulates(w.query, s2, sub.queries, sub.query)
    ensures Accumulates(q0, s1 + s2, Extend(w, key, sub).queries, Extend(w, key, sub).query)
  {
    AccumulatesAppend(q0, s1, w.queries, w.query, s2, sub.queries, sub.query);
  }

  lemma {:induction false} StateAccumulate(ctx: Ctx, q0: string, regs: Reference)
    ensures var w := StateWalk(ctx, q0, regs);
            Accumulates(q0, Suffixes(ctx.level, ctx.state, regs), w.queries, w.query)
  {
    if regs == [] {
      AccumulatesNone(q0);
    } else {
      var m := |regs| - 1;
      StateAccumulate(ctx, q0, regs[..m]);
      var w := StateWalk(ctx, q0, regs[..m]);
      var rw := RegionWalk(ctx, w.query, |w.queries|, regs[m].0, regs[m].1);
      RegionAccumulate(ctx, w.query, |w.queries|, regs[m].0, regs[m].1);
      AccumulatesAppend(q0, Suffixes(ctx.level, ctx.state, regs[..m]), w.queries, w.query,
                        RegionSuffixes(ctx.level, ctx.state, regs[m].1), rw.queries, rw.query);
    }
  }

  /** The query is never reset: the `k`-th startMaps call of a run receives the
      original query followed by the suffixes of the first `k + 1` searches
      (`" provincia <name>"` per province, `", <comune>, <uuid>, <state>"` per comune). */
  lemma RunMapsQueries(reference: Reference, key: string, args: RunArgs, net: nat -> Script)
    requires !args.skipFinding
    ensures var sfx := Suffixes(LevelOf(args.level), args.state, Regs(reference, args));
            var qs := RunMapsSpec(reference, key, args, net).queries;
            && |qs| == |sfx|
            && forall k :: 0 <= k < |qs| ==> qs[k] == args.query + Concat(sfx[..k + 1])
  {
    StateAccumulate(WalkCtx(key, args, net), args.query, Regs(reference, args));
  }

  // ---------------------------------------------------------------------------
  // Where the results end up

  /** No two names of the list share a normalised key. */
  predicate NamesApart(names: seq<string>) {
    forall a, b :: 0 <= a < b < |names| ==> NormalizeName(names[a]) != NormalizeName(names[b])
  }

  lemma NamesApartPrefix(names: seq<string>, m: nat)
    requires NamesApart(names) && m <= |names|
    ensures NamesApart(names[..m])
  {
    forall a, b | 0 <= a < b < m ensures NormalizeName(names[..m][a]) != NormalizeName(names[..m][b]) {
      assert names[..m][a] == names[a] && names[..m][b] == names[b];
    }
  }

  lemma KeysPrefix<V>(fs: Entries<V>, m: nat)
    requires m <= |fs|
    ensures Keys(fs[..m]) == Keys(fs)[..m]
  {
  }

  /** The comune loop makes one search per comune. */
  lemma ComuniCount(ctx: Ctx, q0: string, n0: nat, region: string, province: string, uuid: string, cs: seq<string>)
    ensures |ComuniWalk(ctx, q0, n0, region, province, uuid, cs).queries| == |cs|
  {
    ComuniAccumulate(ctx, q0, n0, region, province, uuid, cs);
  }

  /** Reading a key after one child was stored. */
  lemma ExtendGet<V>(w: Walk<Entries<V>>, key: string, sub: Walk<V>, k: string)
    ensures Get(Extend(w, key, sub).node, k) == if k == key then Some(sub.node) else Get(w.node, k)
  {
    if k == key {
      SetGet(w.node, key, sub.node);
    } else {
      SetOther(w.node, key, sub.node, k);
    }
  }

  /** With distinct normalised names, the `k`-th comune's key holds the annotated
      results of the `k`-th search of the loop, tagged with the raw names. */
  lemma ComuniWalkGet(ctx: Ctx, q0: string, n0: nat, region: string, province: string, uuid: string,
                      comuni: seq<string>, k: nat)
    requires NamesApart(comuni) && k < |comuni|
    ensures Get(ComuniWalk(ctx, q0, n0, region, province, uuid, comuni).node, NormalizeName(comuni[k]))
            == Some(Records(ctx, n0 + k, region, province, uuid, Some(comuni[k])))
  {
    TakeAll(comuni);
    ComuniWalkLater(ctx, q0, n0, region, province, uuid, comuni, k);
    ComuniWalkKeep(ctx, q0, n0, region, province, uuid, comuni, k, |comuni|, NormalizeName(comuni[k]));
    ComuniWalkAt(ctx, q0, n0, region, province, uuid, comuni, k);
  }

  /** Right after its search, the `k`-th comune's key holds that search's results. */
  lemma ComuniWalkAt(ctx: Ctx, q0: string, n0: nat, region: string, province: string, uuid: string,
                     comuni: seq<string>, k: nat)
    requires k < |comuni|
    ensures Get(ComuniWalk(ctx, q0, n0, region, province, uuid, comuni[..k + 1]).node, NormalizeName(comuni[k]))
            == Some(Records(ctx, n0 + k, region, province, uuid, Some(comuni[k])))
  {
    var key := NormalizeName(comuni[k]);
    var w := ComuniWalk(ctx, q0, n0, region, province, uuid, comuni[..k]);
    var cw := ComuneSearch(ctx, w.query, n0 + |w.queries|, region, province, uuid, comuni[k]);
    ComuniWalkStep(ctx, q0, n0, region, province, uuid, comuni, k, w, cw);
    ComuniCount(ctx, q0, n0, region, province, uuid, comuni[..k]);
    assert cw.node == Records(ctx, n0 + k, region, province, uuid, Some(comuni[k]));
    ExtendGet(w, key, cw, key);
  }

  /** A key that no later comune touches keeps the value the `k`-th search stored. */
  lemma {:induction false} ComuniWalkKeep(ctx: Ctx, q0: string, n0: nat, region: string, province: string, uuid: string,
                                          comuni: seq<string>, k: nat, n: nat, key: string)
    requires k < n <= |comuni|
    requires forall m :: k + 1 < m <= |comuni| ==>
               Get(ComuniWalk(ctx, q0, n0, region, province, uuid, comuni[..m]).node, key)
               == Get(ComuniWalk(ctx, q0, n0, region, province, uuid, comuni[..m - 1]).node, key)
    ensures Get(ComuniWalk(ctx, q0, n0, region, province, uuid, comuni[..n]).node, key)
            == Get(ComuniWalk(ctx, q0, n0, region, province, uuid, comuni[..k + 1]).node, key)
  {
    if n > k + 1 {
      ComuniWalkKeep(ctx, q0, n0, region, province, uuid, comuni, k, n - 1, key);
    }
  }

  /** With distinct normalised names, no comune after the `k`-th touches its key. */
  lemma ComuniWalkLater(ctx: Ctx, q0: string, n0: nat, region: string, province: string, uuid: string,
                        comuni: seq<string>, k: nat)
    requires NamesApart(comuni) && k < |comuni|
    ensures forall m :: k + 1 < m <= |comuni| ==>
              Get(ComuniWalk(ctx, q0, n0, region, province, uuid, comuni[..m]).node, NormalizeName(comuni[k]))
              == Get(ComuniWalk(ctx, q0, n0, region, province, uuid, comuni[..m - 1]).node, NormalizeName(comuni[k]))
  {
    forall m | k + 1 < m <= |comuni|
      ensures Get(ComuniWalk(ctx, q0, n0, region, province, uuid, comuni[..m]).node, NormalizeName(comuni[k]))
              == Get(ComuniWalk(ctx, q0, n0, region, province, uuid, comuni[..m - 1]).node, NormalizeName(comuni[k]))
    {
      ComuniWalkEarlier(ctx, q0, n0, region, province, uuid, comuni, k, m);
    }
  }

  /** One more comune leaves the key of an earlier one alone. */
  lemma ComuniWalkEarlier(ctx: Ctx, q0: string, n0: nat, region: string, province: string, uuid: string,
                          comuni: seq<string>, k: nat, n: nat)
    requires NamesApart(comuni) && k < n - 1 && n <= |comuni|
    ensures Get(ComuniWalk(ctx, q0, n0, region, province, uuid, comuni[..n]).node, NormalizeName(comuni[k]))
            == Get(ComuniWalk(ctx, q0, n0, region, province, uuid, comuni[..n - 1]).node, NormalizeName(comuni[k]))
  {
    var w := ComuniWalk(ctx, q0, n0, region, province, uuid, comuni[..n - 1]);
    var cw := ComuneSearch(ctx, w.query, n0 + |w.queries|, region, province, uuid, comuni[n - 1]);
    ComuniWalkStep(ctx, q0, n0, region, province, uuid, comuni, n - 1, w, cw);
    assert NormalizeName(comuni[n - 1]) != NormalizeName(comuni[k]);
    ExtendGet(w, NormalizeName(comuni[n - 1]), cw, NormalizeName(comuni[k]));
  }

  /** With distinct normalised province names, province `j`'s key holds the node
      of its own walk `pj`, which starts where the walk `wj` of the provinces
      before it ended. */
  lemma RegionWalkGet(ctx: Ctx, q0: string, n0: nat, region: string, pr: RegionRef, j: nat,
                      wj: Walk<RegionNode>, pj: Walk<Leaf>)
    requires NamesApart(Keys(pr)) && j < |pr|
    requires wj == RegionWalk(ctx, q0, n0, region, pr[..j])
    requires pj == ProvinceWalk(ctx, wj.query, n0 + |wj.queries|, region, pr[j].0, pr[j].1)
    ensures Get(RegionWalk(ctx, q0, n0, region, pr).node, NormalizeName(pr[j].0)) == Some(pj.node)
  {
    var key := NormalizeName(pr[j].0);
    TakeAll(pr);
    RegionWalkLater(ctx, q0, n0, region, pr, j);
    RegionWalkKeep(ctx, q0, n0, region, pr, j, |pr|, key);
    RegionWalkStep(ctx, q0, n0, region, pr, j, wj, pj);
    ExtendGet(wj, key, pj, key);
  }

  /** A key that no later province touches keeps the value province `j` stored. */
  lemma {:induction false} RegionWalkKeep(ctx: Ctx, q0: string, n0: nat, region: string, pr: RegionRef,
                                          j: nat, n: nat, key: string)
    requires j < n <= |pr|
    requires forall m :: j + 1 < m <= |pr| ==>
               Get(RegionWalk(ctx, q0, n0, region, pr[..m]).node, key)
               == Get(RegionWalk(ctx, q0, n0, region, pr[..m - 1]).node, key)
    ensures Get(RegionWalk(ctx, q0, n0, region, pr[..n]).node, key)
            == Get(RegionWalk(ctx, q0, n0, region, pr[..j + 1]).node, key)
  {
    if n > j + 1 {
      RegionWalkKeep(ctx, q0, n0, region, pr, j, n - 1, key);
    }
  }

  /** With distinct normalised names, no province after the `j`-th touches its key. */
  lemma RegionWalkLater(ctx: Ctx, q0: string, n0: nat, region: string, pr: RegionRef, j: nat)
    requires NamesApart(Keys(pr)) && j < |pr|
    ensures forall m :: j + 1 < m <= |pr| ==>
              Get(RegionWalk(ctx, q0, n0, region, pr[..m]).node, NormalizeName(pr[j].0))
              == Get(RegionWalk(ctx, q0, n0, region, pr[..m - 1]).node, NormalizeName(pr[j].0))
  {
    forall m | j + 1 < m <= |pr|
      ensures Get(RegionWalk(ctx, q0, n0, region, pr[..m]).node, NormalizeName(pr[j].0))
              == Get(RegionWalk(ctx, q0, n0, region, pr[..m - 1]).node, NormalizeName(pr[j].0))
    {
      RegionWalkEarlier(ctx, q0, n0, region, pr, j, m);
    }
  }

  /** One more province leaves the key of an earlier one alone. */
  lemma RegionWalkEarlier(ctx: Ctx, q0: string, n0: nat, region: string, pr: RegionRef, j: nat, n: nat)
    requires NamesApart(Keys(pr)) && j < n - 1 && n <= |pr|
    ensures Get(RegionWalk(ctx, q0, n0, region, pr[..n]).node, NormalizeName(pr[j].0))
            == Get(RegionWalk(ctx, q0, n0, region, pr[..n - 1]).node, NormalizeName(pr[j].0))
  {
    var w := RegionWalk(ctx, q0, n0, region, pr[..n - 1]);
    var pw := ProvinceWalk(ctx, w.query, n0 + |w.queries|, region, pr[n - 1].0, pr[n - 1].1);
    RegionWalkStep(ctx, q0, n0, region, pr, n - 1, w, pw);
    assert NormalizeName(pr[n - 1].0) != NormalizeName(pr[j].0) by {
      assert Keys(pr)[j] == pr[j].0 && Keys(pr)[n - 1] == pr[n - 1].0;
    }
    ExtendGet(w, NormalizeName(pr[n - 1].0), pw, NormalizeName(pr[j].0));
  }

  /** With distinct normalised region names, region `i`'s key holds the node of
      its own walk `ri`, which starts where the walk `wi` of the regions before it ended. */
  lemma StateWalkGet(ctx: Ctx, q0: string, regs: Reference, i: nat, wi: Walk<StateNode>, ri: Walk<RegionNode>)
    requires NamesApart(Keys(regs)) && i < |regs|
    requires wi == StateWalk(ctx, q0, regs[..i])
    requires ri == RegionWalk(ctx, wi.query, |wi.queries|, regs[i].0, regs[i].1)
    ensures Get(StateWalk(ctx, q0, regs).node, NormalizeName(regs[i].0)) == Some(ri.node)
  {
    var key := NormalizeName(regs[i].0);
    TakeAll(regs);
    StateWalkLater(ctx, q0, regs, i);
    StateWalkKeep(ctx, q0, regs, i, |regs|, key);
    StateWalkStep(ctx, q0, regs, i, wi, ri);
    ExtendGet(wi, key, ri, key);
  }

  /** A key that no later region touches keeps the value region `i` stored. */
  lemma {:induction false} StateWalkKeep(ctx: Ctx, q0: string, regs: Reference, i: nat, n: nat, key: string)
    requires i < n <= |regs|
    requires forall m :: i + 1 < m <= |regs| ==>
               Get(StateWalk(ctx, q0, regs[..m]).node, key) == Get(StateWalk(ctx, q0, regs[..m - 1]).node, key)
    ensures Get(StateWalk(ctx, q0, regs[..n]).node, key) == Get(StateWalk(ctx, q0, regs[..i + 1]).node, key)
  {
    if n > i + 1 {
      StateWalkKeep(ctx, q0, regs, i, n - 1, key);
    }
  }

  /** With distinct normalised names, no region after the `i`-th touches its key. */
  lemma StateWalkLater(ctx: Ctx, q0: string, regs: Reference, i: nat)
    requires NamesApart(Keys(regs)) && i < |regs|
    ensures forall m :: i + 1 < m <= |regs| ==>
              Get(StateWalk(ctx, q0, regs[..m]).node, NormalizeName(regs[i].0))
              == Get(StateWalk(ctx, q0, regs[..m - 1]).node, NormalizeName(regs[i].0))
  {
    forall m | i + 1 < m <= |regs|
      ensures Get(StateWalk(ctx, q0, regs[..m]).node, NormalizeName(regs[i].0))
              == Get(StateWalk(ctx, q0, regs[..m - 1]).node, NormalizeName(regs[i].0))
    {
      StateWalkEarlier(ctx, q0, regs, i, m);
    }
  }

  /** One more region leaves the key of an earlier one alone. */
  lemma StateWalkEarlier(ctx: Ctx, q0: string, regs: Reference, i: nat, n: nat)
    requires NamesApart(Keys(regs)) && i < n - 1 && n <= |regs|
    ensures Get(StateWalk(ctx, q0, regs[..n]).node, NormalizeName(regs[i].0))
            == Get(StateWalk(ctx, q0, regs[..n - 1]).node, NormalizeName(regs[i].0))
  {
    var w := StateWalk(ctx, q0, regs[..n - 1]);
    var rw := RegionWalk(ctx, w.query, |w.queries|, regs[n - 1].0, regs[n - 1].1);
    StateWalkStep(ctx, q0, regs, n - 1, w, rw);
    assert NormalizeName(regs[n - 1].0) != NormalizeName(regs[i].0) by {
      assert Keys(regs)[i] == regs[i].0 && Keys(regs)[n - 1] == regs[n - 1].0;
    }
    ExtendGet(w, NormalizeName(regs[n - 1].0), rw, NormalizeName(regs[i].0));
  }

  // ---------------------------------------------------------------------------
  // What runMaps returns

  /** At provincia level every province makes one search. */
  lemma {:induction false} ProvinciaSearches(level: Level, state: string, pr: RegionRef)
    requires level == ProvinciaLevel
    ensures |RegionSuffixes(level, state, pr)| == |pr|
  {
    if pr != [] {
      ProvinciaSearches(level, state, pr[..|pr| - 1]);
    }
  }

  /** A prefix of the provinces makes no more searches than all of them. */
  lemma {:induction false} RegionSuffixesGrow(level: Level, state: string, pr: RegionRef, k: nat)
    requires k <= |pr|
    ensures |RegionSuffixes(level, state, pr[..k])| <= |RegionSuffixes(level, state, pr)|
    decreases |pr|
  {
    if k < |pr| {
      var m := |pr| - 1;
      RegionSuffixesGrow(level, state, pr[..m], k);
      TakeTake(pr, m, k);
    } else {
      assert pr[..k] == pr;
    }
  }

  /** The searches of province `j` follow those of the provinces before it. */
  lemma RegionSearchesCover(level: Level, state: string, pr: RegionRef, j: nat)
    requires j < |pr|
    ensures |RegionSuffixes(level, state, pr)|
            >= |RegionSuffixes(level, state, pr[..j])| + |ProvinceSuffixes(level, state, pr[j].0, pr[j].1)|
  {
    var t := pr[..j + 1];
    RegionSuffixesGrow(level, state, pr, j + 1);
    assert t[..j] == pr[..j] && t[j] == pr[j];
    assert |RegionSuffixes(level, state, t)|
           == |RegionSuffixes(level, state, t[..j])| + |ProvinceSuffixes(level, state, t[j].0, t[j].1)|;
  }

  /** A prefix of the regions makes no more searches than all of them. */
  lemma {:induction false} SuffixesGrow(level: Level, state: string, regs: Reference, k: nat)
    requires k <= |regs|
    ensures |Suffixes(level, state, regs[..k])| <= |Suffixes(level, state, regs)|
    decreases |regs|
  {
    if k < |regs| {
      var m := |regs| - 1;
      SuffixesGrow(level, state, regs[..m], k);
      TakeTake(regs, m, k);
    } else {
      assert regs[..k] == regs;
    }
  }

  /** The searches of region `i` follow those of the regions before it. */
  lemma SearchesCover(level: Level, state: string, regs: Reference, i: nat)
    requires i < |regs|
    ensures |Suffixes(level, state, regs)| >= |Suffixes(level, state, regs[..i])| + |RegionSuffixes(level, state, regs[i].1)|
  {
    var t := regs[..i + 1];
    SuffixesGrow(level, state, regs, i + 1);
    assert t[..i] == regs[..i] && t[i] == regs[i];
    assert |Suffixes(level, state, t)| == |Suffixes(level, state, t[..i])| + |RegionSuffixes(level, state, t[i].1)|;
  }

  /** At a level other than provincia and comune a region's walk searches nothing. */
  lemma {:induction false} RegionWalkIdle(ctx: Ctx, q0: string, n0: nat, region: string, pr: RegionRef)
    requires ctx.level == OtherLevel
    ensures var w := RegionWalk(ctx, q0, n0, region, pr);
            w.query == q0 && w.queries == [] && w.batches == []
  {
    if pr != [] {
      RegionWalkIdle(ctx, q0, n0, region, pr[..|pr| - 1]);
      RegionWalkLast(ctx, q0, n0, region, pr);
    }
  }

  lemma {:induction false} StateWalkIdle(ctx: Ctx, q0: string, regs: Reference)
    requires ctx.level == OtherLevel
    ensures var w := StateWalk(ctx, q0, regs);
            w.query == q0 && w.queries == [] && w.batches == []
  {
    if regs != [] {
      var m := |regs| - 1;
      StateWalkIdle(ctx, q0, regs[..m]);
      RegionWalkIdle(ctx, q0, 0, regs[m].0, regs[m].1);
      StateWalkLast(ctx, q0, regs);
    }
  }

  /** At any other level the loops only write `{}` placeholders into `temp`:
      no search, nothing inserted, and `res` stays `{}`. */
  lemma OtherLevelSearchesNothing(reference: Reference, key: string, args: RunArgs, net: nat -> Script)
    requires !args.skipFinding && args.level != "provincia" && args.level != "comune"
    ensures RunMapsSpec(reference, key, args, net) == Done([], [], [])
  {
    StateWalkIdle(WalkCtx(key, args, net), args.query, Regs(reference, args));
  }

  /** `res` is `{[state]: temp}` exactly when the reference data call for a search. */
  lemma RunMapsResult(reference: Reference, key: string, args: RunArgs, net: nat -> Script)
    requires !args.skipFinding
    ensures var r := RunMapsSpec(reference, key, args, net);
            var regs := Regs(reference, args);
            && r.Done?
            && r.res == if Suffixes(LevelOf(args.level), args.state, regs) == [] then []
                        else [(args.state, StateWalk(WalkCtx(key, args, net), args.query, regs).node)]
  {
    StateAccumulate(WalkCtx(key, args, net), args.query, Regs(reference, args));
  }

  /** The walk of some regions makes one search per suffix. */
  lemma StateCount(ctx: Ctx, q0: string, regs: Reference)
    ensures |StateWalk(ctx, q0, regs).queries| == |Suffixes(ctx.level, ctx.state, regs)|
  {
    StateAccumulate(ctx, q0, regs);
  }

  /** The walk of some provinces makes one search per suffix. */
  lemma RegionCount(ctx: Ctx, q0: string, n0: nat, region: string, pr: RegionRef)
    ensures |RegionWalk(ctx, q0, n0, region, pr).queries| == |RegionSuffixes(ctx.level, ctx.state, pr)|
  {
    RegionAccumulate(ctx, q0, n0, region, pr);
  }

  /** Region `i`, when no two regions share a key, holds the node of its own walk,
      which starts after the searches of the regions before it. */
  lemma StateRegionGet(ctx: Ctx, q0: string, regs: Reference, i: nat)
    requires NamesApart(Keys(regs)) && i < |regs|
    ensures Get(StateWalk(ctx, q0, regs).node, NormalizeName(regs[i].0))
            == Some(RegionWalk(ctx, StateWalk(ctx, q0, regs[..i]).query, |Suffixes(ctx.level, ctx.state, regs[..i])|,
                               regs[i].0, regs[i].1).node)
  {
    var wi := StateWalk(ctx, q0, regs[..i]);
    var ri := RegionWalk(ctx, wi.query, |wi.queries|, regs[i].0, regs[i].1);
    StateWalkGet(ctx, q0, regs, i, wi, ri);
    StateCount(ctx, q0, regs[..i]);
  }

  /** Province `j`, when no two provinces share a key, holds the node of its own
      walk, which starts after the searches of the provinces before it. */
  lemma RegionProvinceGet(ctx: Ctx, q0: string, n0: nat, region: string, pr: RegionRef, j: nat, q: string, n: nat)
    requires NamesApart(Keys(pr)) && j < |pr|
    requires q == RegionWalk(ctx, q0, n0, region, pr[..j]).query
    requires n == n0 + |RegionSuffixes(ctx.level, ctx.state, pr[..j])|
    ensures Get(RegionWalk(ctx, q0, n0, region, pr).node, NormalizeName(pr[j].0))
            == Some(ProvinceWalk(ctx, q, n, region, pr[j].0, pr[j].1).node)
  {
    RegionCount(ctx, q0, n0, region, pr[..j]);
    RegionWalkGet(ctx, q0, n0, region, pr, j, RegionWalk(ctx, q0, n0, region, pr[..j]),
                  ProvinceWalk(ctx, q, n, region, pr[j].0, pr[j].1));
  }

  /** At comune level a province's node is `{comuni: ...}`, and comune `k` (with
      distinct comune keys) holds the annotated results of search `n + k`. */
  lemma ComuneNode(ctx: Ctx, q: string, n: nat, region: string, province: string, p: ProvinceRef, k: nat)
    requires ctx.level == ComuneLevel && NamesApart(ComuniOf(p)) && k < |ComuniOf(p)|
    ensures var leaf := ProvinceWalk(ctx, q, n, region, province, p).node;
            && leaf.ByComune?
            && Get(leaf.comuni, NormalizeName(ComuniOf(p)[k]))
               == Some(Records(ctx, n + k, region, province, p.uuid, Some(ComuniOf(p)[k])))
  {
    ComuniWalkGet(ctx, q, n, region, province, p.uuid, ComuniOf(p), k);
  }

  /** At provincia level a province's node is the annotated results of its one search. */
  lemma ProvinciaNode(ctx: Ctx, q: string, n: nat, region: string, province: string, p: ProvinceRef)
    requires ctx.level == ProvinciaLevel
    ensures ProvinceWalk(ctx, q, n, region, province, p).node == Flat(Records(ctx, n, region, province, p.uuid, None))
  {
  }

  /** At comune level comune `k` of province `j`, when no two provinces and no two
      of its comuni share a key, holds the annotated results of its own search,
      made after those of the comuni before it. */
  lemma RegionComuneGet(ctx: Ctx, q0: string, n0: nat, region: string, pr: RegionRef, j: nat, k: nat, q: string, n: nat)
    requires ctx.level == ComuneLevel && NamesApart(Keys(pr)) && j < |pr|
    requires NamesApart(ComuniOf(pr[j].1)) && k < |ComuniOf(pr[j].1)|
    requires q == RegionWalk(ctx, q0, n0, region, pr[..j]).query
    requires n == n0 + |RegionSuffixes(ctx.level, ctx.state, pr[..j])|
    ensures var leaf := Get(RegionWalk(ctx, q0, n0, region, pr).node, NormalizeName(pr[j].0));
            var comune := ComuniOf(pr[j].1)[k];
            && leaf.Some? && leaf.value.ByComune?
            && Get(leaf.value.comuni, NormalizeName(comune))
               == Some(Records(ctx, n + k, region, pr[j].0, pr[j].1.uuid, Some(comune)))
  {
    RegionProvinceGet(ctx, q0, n0, region, pr, j, q, n);
    ComuneNode(ctx, q, n, region, pr[j].0, pr[j].1, k);
  }

  /** At provincia level, province `j` of region `i` holds the annotated results
      of search `n + j`, `n` being the number of searches of the regions before it. */
  lemma ProvinciaWalkLeaf(ctx: Ctx, q0: string, regs: Reference, i: nat, j: nat, q: string, n: nat, q': string, n': nat)
    requires ctx.level == ProvinciaLevel
    requires NamesApart(Keys(regs)) && i < |regs| && NamesApart(Keys(regs[i].1)) && j < |regs[i].1|
    requires q == StateWalk(ctx, q0, regs[..i]).query && n == |Suffixes(ctx.level, ctx.state, regs[..i])|
    requires q' == RegionWalk(ctx, q, n, regs[i].0, regs[i].1[..j]).query
    requires n' == n + |RegionSuffixes(ctx.level, ctx.state, regs[i].1[..j])|
    ensures Lookup2(StateWalk(ctx, q0, regs).node, NormalizeName(regs[i].0), NormalizeName(regs[i].1[j].0))
            == Some(Flat(Records(ctx, n', regs[i].0, regs[i].1[j].0, regs[i].1[j].1.uuid, None)))
  {
    StateRegionGet(ctx, q0, regs, i);
    RegionProvinceGet(ctx, q, n, regs[i].0, regs[i].1, j, q', n');
    ProvinciaNode(ctx, q', n', regs[i].0, regs[i].1[j].0, regs[i].1[j].1);
    Lookup2Get(StateWalk(ctx, q0, regs).node, NormalizeName(regs[i].0), NormalizeName(regs[i].1[j].0),
               RegionWalk(ctx, q, n, regs[i].0, regs[i].1).node);
  }

  /** runMaps at provincia level, with distinct region names and distinct province
      names in region `i`: `res[state][normalizeName(region)][normalizeName(province)]`
      holds the results of the `n`-th startMaps call, `n` counting the searches
      before it (one per earlier province, by `ProvinciaSearches`), each record
      tagged with the raw names. */
  lemma ProvinciaLeaf(reference: Reference, key: string, args: RunArgs, net: nat -> Script, i: nat, j: nat, n: nat)
    requires !args.skipFinding && args.level == "provincia"
    requires NamesApart(Keys(Regs(reference, args))) && i < |Regs(reference, args)|
    requires NamesApart(Keys(Regs(reference, args)[i].1)) && j < |Regs(reference, args)[i].1|
    requires n == |Suffixes(LevelOf(args.level), args.state, Regs(reference, args)[..i])|
                 + |RegionSuffixes(LevelOf(args.level), args.state, Regs(reference, args)[i].1[..j])|
    ensures var regs := Regs(reference, args);
            var region := regs[i].0;
            var province := regs[i].1[j].0;
            Lookup(RunMapsSpec(reference, key, args, net).res, args.state, NormalizeName(region), NormalizeName(province))
            == Some(Flat(AnnotatedAll(Fetched(net(n)), province, regs[i].1[j].1.uuid, args.state, region, None)))
  {
    var regs := Regs(reference, args);
    var ctx := WalkCtx(key, args, net);
    var q := StateWalk(ctx, args.query, regs[..i]).query;
    var m := |Suffixes(LevelOf(args.level), args.state, regs[..i])|;
    var q' := RegionWalk(ctx, q, m, regs[i].0, regs[i].1[..j]).query;
    ProvinciaWalkLeaf(ctx, args.query, regs, i, j, q, m, q', n);
    SearchesCover(LevelOf(args.level), args.state, regs, i);
    RegionSearchesCover(LevelOf(args.level), args.state, regs[i].1, j);
    RunMapsResult(reference, key, args, net);
  }

  /** At comune level, comune `k` of province `j` of region `i` holds the annotated
      results of search `n + k`, `n` being the number of searches before province `j`. */
  lemma ComuneWalkLeaf(ctx: Ctx, q0: string, regs: Reference, i: nat, j: nat, k: nat,
                       q: string, n: nat, q': string, n': nat)
    requires ctx.level == ComuneLevel
    requires NamesApart(Keys(regs)) && i < |regs| && NamesApart(Keys(regs[i].1)) && j < |regs[i].1|
    requires NamesApart(ComuniOf(regs[i].1[j].1)) && k < |ComuniOf(regs[i].1[j].1)|
    requires q == StateWalk(ctx, q0, regs[..i]).query && n == |Suffixes(ctx.level, ctx.state, regs[..i])|
    requires q' == RegionWalk(ctx, q, n, regs[i].0, regs[i].1[..j]).query
    requires n' == n + |RegionSuffixes(ctx.level, ctx.state, regs[i].1[..j])|
    ensures var p := regs[i].1[j];
            var leaf := Lookup2(StateWalk(ctx, q0, regs).node, NormalizeName(regs[i].0), NormalizeName(p.0));
            && leaf.Some? && leaf.value.ByComune?
            && Get(leaf.value.comuni, NormalizeName(ComuniOf(p.1)[k]))
               == Some(Records(ctx, n' + k, regs[i].0, p.0, p.1.uuid, Some(ComuniOf(p.1)[k])))
  {
    StateRegionGet(ctx, q0, regs, i);
    RegionComuneGet(ctx, q, n, regs[i].0, regs[i].1, j, k, q', n');
    Lookup2Get(StateWalk(ctx, q0, regs).node, NormalizeName(regs[i].0), NormalizeName(regs[i].1[j].0),
               RegionWalk(ctx, q, n, regs[i].0, regs[i].1).node);
  }

  /** runMaps at comune level, with distinct names at each step of the path:
      `res[state][region][province].comuni[comune]` under the normalised names holds
      the results of the `n`-th startMaps call, `n` counting the comuni searched
      before it, each record tagged with the raw names and the comune as `city`. */
  lemma ComuneLeaf(reference: Reference, key: string, args: RunArgs, net: nat -> Script, i: nat, j: nat, k: nat, n: nat)
    requires !args.skipFinding && args.level == "comune"
    requires NamesApart(Keys(Regs(reference, args))) && i < |Regs(reference, args)|
    requires NamesApart(Keys(Regs(reference, args)[i].1)) && j < |Regs(reference, args)[i].1|
    requires NamesApart(ComuniOf(Regs(reference, args)[i].1[j].1)) && k < |ComuniOf(Regs(reference, args)[i].1[j].1)|
    requires n == |Suffixes(LevelOf(args.level), args.state, Regs(reference, args)[..i])|
                 + |RegionSuffixes(LevelOf(args.level), args.state, Regs(reference, args)[i].1[..j])|
    ensures var regs := Regs(reference, args);
            var p := regs[i].1[j];
            var comune := ComuniOf(p.1)[k];
            var leaf := Lookup(RunMapsSpec(reference, key, args, net).res, args.state, NormalizeName(regs[i].0), NormalizeName(p.0));
            && leaf.Some? && leaf.value.ByComune?
            && Get(leaf.value.comuni, NormalizeName(comune))
               == Some(AnnotatedAll(Fetched(net(n + k)), p.0, p.1.uuid, args.state, regs[i].0, Some(comune)))
  {
    var regs := Regs(reference, args);
    var ctx := WalkCtx(key, args, net);
    var q := StateWalk(ctx, args.query, regs[..i]).query;
    var m := |Suffixes(LevelOf(args.level), args.state, regs[..i])|;
    var q' := RegionWalk(ctx, q, m, regs[i].0, regs[i].1[..j]).query;
    ComuneWalkLeaf(ctx, args.query, regs, i, j, k, q, m, q', n);
    SearchesCover(LevelOf(args.level), args.state, regs, i);
    RegionSearchesCover(LevelOf(args.level), args.state, regs[i].1, j);
    RunMapsResult(reference, key, args, net);
  }
}

/**
  The result tree both runMaps variants build, `res[state][region][province]`,
  the annotation each fetched record receives on its way into the tree, and
  transformForMongo, which reads one path of the tree back out for a bulk insert.
 */
module ResultTree {
  import opened Wrappers
  import opened AssocList
  import opened Js

  /** What a province key of the tree holds. */
  datatype Leaf =
    | Empty                                  // the `{}` placeholder written before the fetch
    | Flat(records: seq<Fields>)             // provincia level: the annotated results
    | ByComune(comuni: Entries<seq<Fields>>) // comune level: `{comuni: {name: results}}`

  type RegionNode = Entries<Leaf>
  type StateNode = Entries<RegionNode>
  type Tree = Entries<StateNode>

  /** The fields `el.provinciaID = ...; el.provinciaUUID = ...; el.state = ...;
      el.regione = ...` (and `el.city = ...` at comune level) assign, in order. */
  function Coordinates(province: string, uuid: string, state: string, region: string, city: Option<string>): Fields {
    [("provinciaID", Str(province)), ("provinciaUUID", Str(uuid)), ("state", Str(state)), ("regione", Str(region))]
    + match city case Some(c) => [("city", Str(c))] case None => []
  }

  /** One fetched record after the annotation assignments. */
  function Annotate(el: Fields, province: string, uuid: string, state: string, region: string, city: Option<string>): (r: Fields)
    ensures forall k :: k in Keys(r) <==> k in Keys(el) || k in Keys(Coordinates(province, uuid, state, region, city))
  {
    SetAllKeys(el, Coordinates(province, uuid, state, region, city));
    SetAll(el, Coordinates(province, uuid, state, region, city))
  }

  /** Every record of one fetch, annotated, in fetch order. */
  function AnnotatedAll(records: seq<Fields>, province: string, uuid: string, state: string, region: string, city: Option<string>): seq<Fields> {
    seq(|records|, i requires 0 <= i < |records| => Annotate(records[i], province, uuid, state, region, city))
  }

  /** The names the annotation writes. */
  predicate IsAnnotationKey(k: string) {
    k == "provinciaID" || k == "provinciaUUID" || k == "state" || k == "regione" || k == "city"
  }

  lemma CoordinatesKeys(province: string, uuid: string, state: string, region: string, city: Option<string>)
    ensures Keys(Coordinates(province, uuid, state, region, city))
            == ["provinciaID", "provinciaUUID", "state", "regione"] + (if city.Some? then ["city"] else [])
    ensures DistinctKeys(Coordinates(province, uuid, state, region, city))
  {
    var coords := Coordinates(province, uuid, state, region, city);
    assert Keys(coords) == ["provinciaID", "provinciaUUID", "state", "regione"] + (if city.Some? then ["city"] else []);
  }

  /** An annotated record reads each coordinate (`provinciaID` the province,
      `provinciaUUID` its uuid, `state`, `regione`, and `city` at comune level)
      whatever it held before. */
  lemma AnnotateFields(el: Fields, province: string, uuid: string, state: string, region: string, city: Option<string>, i: nat)
    requires i < |Coordinates(province, uuid, state, region, city)|
    ensures var coords := Coordinates(province, uuid, state, region, city);
            Get(Annotate(el, province, uuid, state, region, city), coords[i].0) == Some(coords[i].1)
  {
    var coords := Coordinates(province, uuid, state, region, city);
    CoordinatesKeys(province, uuid, state, region, city);
    SetAllGet(el, coords, coords[i].0);
    GetDistinct(coords, i);
    assert coords[i].0 == Keys(coords)[i];
  }

  /** The annotation leaves every other field of the record as it was. */
  lemma AnnotateKeepsOthers(el: Fields, province: string, uuid: string, state: string, region: string, city: Option<string>, k: string)
    requires !IsAnnotationKey(k)
    ensures Get(Annotate(el, province, uuid, state, region, city), k) == Get(el, k)
  {
    CoordinatesKeys(province, uuid, state, region, city);
    SetAllGet(el, Coordinates(province, uuid, state, region, city), k);
  }

  /** The `byMaps.forEach(el => { ...; tt.push(el) })` loop. */
  method AnnotateAll(records: seq<Fields>, province: string, uuid: string, state: string, region: string, city: Option<string>)
    returns (tt: seq<Fields>)
    ensures |tt| == |records|
    ensures forall i :: 0 <= i < |records| ==> tt[i] == Annotate(records[i], province, uuid, state, region, city)
    ensures tt == AnnotatedAll(records, province, uuid, state, region, city)
  {
    tt := [];
    var i := 0;
    while i < |records|
      invariant 0 <= i <= |records|
      invariant |tt| == i
      invariant forall j :: 0 <= j < i ==> tt[j] == Annotate(records[j], province, uuid, state, region, city)
    {
      tt := tt + [Annotate(records[i], province, uuid, state, region, city)];
      i := i + 1;
    }
    assert |tt| == |AnnotatedAll(records, province, uuid, state, region, city)|;
  }

  /** `data[stateKey][regionKey]` on a missing state throws outside the try block. */
  datatype TransformError = StateMissing(key: string)

  /** An absent key parameter is `undefined`, used as the property name "undefined". */
  function KeyName(k: Option<string>): string {
    match k
    case Some(s) => s
    case None => "undefined"
  }

  /** transformForMongo: `[stateKeyParam] || ...` is always the one-element array,
      so exactly one path is visited. At comune level it returns the records of the
      named comune, otherwise the records of a provincia-level leaf; any missing step
      below the region, and any leaf that cannot be spread, is swallowed by the
      try block and gives `[]`. */
  function TransformForMongo(data: Tree, level: string, stateKey: Option<string>, regionKey: Option<string>,
                             provinceKey: Option<string>, cityKey: Option<string>): (r: Result<seq<Fields>, TransformError>)
    ensures r.Err? <==> KeyName(stateKey) !in Keys(data)
  {
    match Get(data, KeyName(stateKey))
    case None => Err(StateMissing(KeyName(stateKey)))
    case Some(regions) =>
      Ok(
        match Get(regions, KeyName(regionKey))
        case None => []
        case Some(provinces) =>
          var province: Option<Leaf> := Get(provinces, KeyName(provinceKey));
          if level == "comune" then
            match province
            case Some(ByComune(comuni)) =>
              (match Get(comuni, KeyName(cityKey)) case Some(city) => city case None => [])
            case _ => []
          else
            match province
            case Some(Flat(records)) => records
            case _ => [])
  }

  /** With the state present, a missing region or province gives no records. */
  lemma TransformMissingPath(data: Tree, level: string, s: string, r: string, p: string, c: Option<string>)
    requires s in Keys(data)
    requires var regions := Get(data, s).value;
             r !in Keys(regions) || p !in Keys(Get(regions, r).value)
    ensures TransformForMongo(data, level, Some(s), Some(r), Some(p), c) == Ok([])
  {
  }

  /** Right after `comuni[c] = records` at the path `state / region / province`,
      transformForMongo on that path returns exactly `records`, whatever the rest
      of the tree holds. */
  lemma TransformAfterStore(regions: StateNode, provinces: RegionNode, comuni: Entries<seq<Fields>>,
                            state: string, region: string, province: string, city: string, records: seq<Fields>)
    ensures var data := [(state, Set(regions, region, Set(provinces, province, ByComune(Set(comuni, city, records)))))];
            TransformForMongo(data, "comune", Some(state), Some(region), Some(province), Some(city)) == Ok(records)
  {
    var leaf := ByComune(Set(comuni, city, records));
    var provs := Set(provinces, province, leaf);
    var regs := Set(regions, region, provs);
    SetGet(comuni, city, records);
    SetGet(provinces, province, leaf);
    SetGet(regions, region, provs);
    assert Get([(state, regs)], state) == Some(regs);
  }

  /** A tree as JavaScript objects hold it: no key twice at any level. */
  predicate WellFormed(t: Tree) {
    && DistinctKeys(t)
    && (forall i :: 0 <= i < |t| ==> DistinctKeys(t[i].1))
    && (forall i, j :: 0 <= i < |t| && 0 <= j < |t[i].1| ==> DistinctKeys(t[i].1[j].1))
  }

  /** `regions[r][p]`, when both steps are there. */
  function Lookup2<V>(regions: Entries<Entries<V>>, r: string, p: string): Option<V> {
    match Get(regions, r)
    case None => None
    case Some(provinces) => Get(provinces, p)
  }

  /** `t[s][r][p]`, when every step is there. */
  function Lookup<V>(t: Entries<Entries<Entries<V>>>, s: string, r: string, p: string): Option<V> {
    match Get(t, s)
    case None => None
    case Some(regions) => Lookup2(regions, r, p)
  }

  /** Once `regions[r]` is known, `regions[r][p]` is a lookup in it. */
  lemma Lookup2Get<V>(regions: Entries<Entries<V>>, r: string, p: string, provinces: Entries<V>)
    requires Get(regions, r) == Some(provinces)
    ensures Lookup2(regions, r, p) == Get(provinces, p)
  {
  }
}

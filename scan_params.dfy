/**
  The scraping controller of the web API: `mapScraperScanHandler` turns the
  query string of a scan request into the options of `runMaps`, and
  `getExtractionHandler` turns its query into the arguments of `getExportByMaps`.
 */
module ScanParams {
  import opened Wrappers
  import opened AssocList
  import opened Js

  /** A raw, unvalidated query-string value: one occurrence of the key gives its
      text, a repeated key gives the array of its texts. */
  datatype Param = One(text: string) | Many(texts: seq<string>)

  type Query = Entries<Param>

  /** `v[0]`: the first character of a text, the first text of an array. */
  function First(v: Param): string
    requires Length(v) > 0
  {
    match v
    case One(s) => [s[0]]
    case Many(vs) => vs[0]
  }

  function Length(v: Param): nat {
    match v
    case One(s) => |s|
    case Many(vs) => |vs|
  }

  /** `v.length > 0 ? v[0]?.split(',') : []` on a present value. */
  function ListOf(v: Param): (r: seq<string>)
    ensures Length(v) == 0 <==> r == []
    ensures Length(v) > 0 ==> Join(r, ',') == First(v)
    ensures forall i :: 0 <= i < |r| ==> Lacks(r[i], ',')
  {
    if Length(v) > 0 then
      JoinSplit(First(v), ',');
      SplitPieces(First(v), ',');
      Split(First(v), ',')
    else []
  }

  /** `params.regioni` and `params.province` must be present: reading `.length`
      of `undefined` throws. `None` stands for that TypeError. */
  function Required(p: Option<Param>): (r: Option<seq<string>>)
    ensures r.None? <==> p.None?
    ensures p.Some? ==> r == Some(ListOf(p.value))
  {
    match p
    case None => None
    case Some(v) => Some(ListOf(v))
  }

  /** `params?.comuni?.length > 0 ? ... : []`: an absent `comuni` is the empty list. */
  function Optional(p: Option<Param>): (r: seq<string>)
    ensures p.None? ==> r == []
    ensures p.Some? ==> r == ListOf(p.value)
  {
    match p
    case None => []
    case Some(v) => ListOf(v)
  }

  /** The options `mapScraperScanHandler` passes to `runMaps`: a copy of the
      query whose `regioni`, `province` and `comuni` are replaced by lists;
      `None` when `regioni` or `province` is missing and the handler throws. */
  function ScanParams(query: Query): (r: Option<Query>)
    ensures r.None? <==> Get(query, "regioni").None? || Get(query, "province").None?
    ensures r.Some? ==> Get(r.value, "regioni") == Some(Many(Required(Get(query, "regioni")).value))
    ensures r.Some? ==> Get(r.value, "province") == Some(Many(Required(Get(query, "province")).value))
    ensures r.Some? ==> Get(r.value, "comuni") == Some(Many(Optional(Get(query, "comuni"))))
    ensures r.Some? ==> forall k :: k != "regioni" && k != "province" && k != "comuni" ==> Get(r.value, k) == Get(query, k)
  {
    match (Required(Get(query, "regioni")), Required(Get(query, "province")))
    case (Some(regioni), Some(province)) =>
      var comuni := Optional(Get(query, "comuni"));
      var p1 := Set(query, "regioni", Many(regioni));
      var p2 := Set(p1, "province", Many(province));
      var p3 := Set(p2, "comuni", Many(comuni));
      SetGet(query, "regioni", Many(regioni));
      SetOther(p1, "province", Many(province), "regioni");
      SetOther(p2, "comuni", Many(comuni), "regioni");
      SetGet(p1, "province", Many(province));
      SetOther(p2, "comuni", Many(comuni), "province");
      SetGet(p2, "comuni", Many(comuni));
      forall k | k != "regioni" && k != "province" && k != "comuni"
        ensures Get(p3, k) == Get(query, k)
      {
        SetOther(query, "regioni", Many(regioni), k);
        SetOther(p1, "province", Many(province), k);
        SetOther(p2, "comuni", Many(comuni), k);
      }
      Some(p3)
    case _ => None
  }

  /** Only the first occurrence of a repeated key is split; the others are ignored. */
  lemma FirstOccurrenceOnly(v: string, rest: seq<string>, rest': seq<string>)
    ensures ListOf(Many([v] + rest)) == ListOf(Many([v] + rest')) == Split(v, ',')
  {
    assert First(Many([v] + rest)) == v;
    assert First(Many([v] + rest')) == v;
  }

  /** Given a raw single string (the route's schema coercion to an array is not
      modelled), the handler indexes it like a string: only its first character
      is split, so the raw value `lazio,umbria` selects the one-letter region `l`. */
  lemma SingleOccurrenceFirstChar(s: string)
    requires |s| > 0 && s[0] != ','
    ensures ListOf(One(s)) == [[s[0]]]
  {
    SplitCons(s[0], "", ',');
    assert [s[0]] + "" == [s[0]];
  }

  /** The arguments `getExtractionHandler` passes to `getExportByMaps`:
      `filename || ''` and `!!clean`. */
  function ExtractionArgs(query: Query): (r: (Param, bool))
    ensures r.0 == (if Get(query, "filename").Some? then Get(query, "filename").value else One(""))
    ensures r.1 <==> Get(query, "clean").Some? && Get(query, "clean").value != One("")
  {
    var filename: Option<Param> := Get(query, "filename");
    var clean: Option<Param> := Get(query, "clean");
    (Or(filename, One("")), clean.Some? && TruthyParam(clean.value))
  }

  /** A text is truthy when not empty; an array always is. */
  predicate TruthyParam(v: Param) {
    match v
    case One(s) => s != ""
    case Many(_) => true
  }

  /** `v || fallback`: a falsy value, absent or empty, gives the fallback. */
  function Or(v: Option<Param>, fallback: Param): Param {
    if v.Some? && TruthyParam(v.value) then v.value else fallback
  }

  /** Given the raw string `false` as `clean` (the route's schema coercion to a
      boolean is not modelled), the handler still asks for the clean export: any
      non-empty text is truthy. */
  lemma CleanFalseIsTrue(query: Query)
    requires Get(query, "clean") == Some(One("false"))
    ensures ExtractionArgs(query).1
  {
  }
}

/**
  The pagination protocol of the places text-search endpoint, shared by both
  scraper variants. The network is an oracle: the answers the endpoint gives to
  the successive requests of one pagination run. A request past the end of the
  script fails, like a network error, so every run is finite.
 */
module Paging {
  import opened Wrappers
  import opened Js

  /** One answer: a page of results and, maybe, the token of the next page. */
  datatype Response = Page(results: seq<Fields>, nextPageToken: Option<string>) | NetworkError

  type Script = seq<Response>

  /** The parameters of one GET request to the endpoint (`undefined` fields are `None`). */
  datatype Request = Request(
    url: string,
    key: string,
    pagetoken: Option<string>,
    location: Option<string>,
    radius: Option<Json>,
    query: Option<string>)

  /** The template literal `${latitude},${longitude}`. */
  function Location(latitude: Json, longitude: Json): string {
    ToJsString(latitude) + "," + ToJsString(longitude)
  }

  /** `if (!nextPageToken)` ends the run: an absent or empty token is no token. */
  predicate HasToken(t: Option<string>) {
    t.Some? && t.value != ""
  }

  /** A page that asks for the next one. */
  predicate Continues(r: Response) {
    r.Page? && HasToken(r.nextPageToken)
  }

  /** How many pages one run reads: it stops after the first page without a
      token, or at the first failed request. Each page read is followed by one wait. */
  function PagesRead(script: Script): (n: nat)
    ensures n <= |script|
  {
    if script == [] || !script[0].Page? then 0
    else if HasToken(script[0].nextPageToken) then 1 + PagesRead(script[1..])
    else 1
  }

  /** Whether the run stopped on a failed request (a network error, or the script
      running out) rather than on a page without a token. */
  predicate EndedByError(script: Script) {
    script == [] || !script[0].Page? || (HasToken(script[0].nextPageToken) && EndedByError(script[1..]))
  }

  /** Requests a run sends: one per page read, plus the one that failed. */
  function RequestCount(script: Script): nat {
    PagesRead(script) + if EndedByError(script) then 1 else 0
  }

  /** The results of some responses, concatenated in order (`res = [...res, ...t]`). */
  function ConcatResults(rs: seq<Response>): seq<Fields> {
    if rs == [] then []
    else ConcatResults(rs[..|rs| - 1]) + (if rs[|rs| - 1].Page? then rs[|rs| - 1].results else [])
  }

  /** What a run accumulates: the results of every page it read. */
  function Fetched(script: Script): seq<Fields> {
    ConcatResults(script[..PagesRead(script)])
  }

  /** The token a request carries: none on the first request, then the token of
      the page just read. */
  function TokenFor(script: Script, k: nat): Option<string>
    requires k <= |script|
  {
    if k == 0 || !script[k - 1].Page? then None else script[k - 1].nextPageToken
  }

  lemma {:induction false} ConcatResultsAppend(rs: seq<Response>, r: Response)
    ensures ConcatResults(rs + [r]) == ConcatResults(rs) + (if r.Page? then r.results else [])
  {
    assert (rs + [r])[..|rs|] == rs;
  }

  /** Reading pages that all carry a token does not end the run. */
  lemma {:induction false} PagesReadAfter(script: Script, i: nat)
    requires i <= |script|
    requires forall k :: 0 <= k < i ==> Continues(script[k])
    ensures PagesRead(script) == i + PagesRead(script[i..])
    ensures EndedByError(script) == EndedByError(script[i..])
  {
    if i > 0 {
      assert Continues(script[0]);
      PagesReadAfter(script[1..], i - 1);
      assert script[1..][i - 1..] == script[i..];
    }
  }

  /** Pages chained by tokens up to one without a token: the run reads them all,
      returns their results concatenated in order, waits once after each of them
      (also after the last), and sends one request per page. */
  lemma {:induction false} FetchAllPages(pages: Script)
    requires |pages| > 0
    requires forall k :: 0 <= k < |pages| - 1 ==> Continues(pages[k])
    requires pages[|pages| - 1].Page? && !HasToken(pages[|pages| - 1].nextPageToken)
    ensures PagesRead(pages) == |pages|
    ensures !EndedByError(pages)
    ensures Fetched(pages) == ConcatResults(pages)
    ensures RequestCount(pages) == |pages|
  {
    var n := |pages| - 1;
    PagesReadAfter(pages, n);
    assert pages[n..] == [pages[n]];
    assert pages[..|pages|] == pages;
  }

  /** A failure after `k` token-carrying pages: the run returns the results of those
      `k` pages, in order, having sent `k + 1` requests. */
  lemma {:induction false} FetchStopsAtFailure(script: Script, k: nat)
    requires k <= |script|
    requires forall j :: 0 <= j < k ==> Continues(script[j])
    requires k < |script| ==> script[k].NetworkError?
    ensures PagesRead(script) == k
    ensures EndedByError(script)
    ensures Fetched(script) == ConcatResults(script[..k])
    ensures RequestCount(script) == k + 1
  {
    PagesReadAfter(script, k);
  }

  /** Reading one more page adds its results and hands its token to the next request. */
  lemma PageStep(script: Script, i: nat)
    requires i < |script| && script[i].Page?
    ensures ConcatResults(script[..i + 1]) == ConcatResults(script[..i]) + script[i].results
    ensures TokenFor(script, i + 1) == script[i].nextPageToken
  {
    ConcatResultsAppend(script[..i], script[i]);
    assert script[..i + 1] == script[..i] + [script[i]];
  }

  /** Before its `i`-th request a run is still going: what it reads from here on is
      what a run over the rest of the script would read. */
  predicate RunsOn(script: Script, i: nat) {
    && i <= |script|
    && PagesRead(script) == i + PagesRead(script[i..])
    && EndedByError(script) == EndedByError(script[i..])
  }

  lemma RunsOnStart(script: Script)
    ensures RunsOn(script, 0)
  {
    assert script[0..] == script;
  }

  /** The `i`-th request is answered by a page: its results are added, its token
      goes with the next request, and without a token the run ends here. */
  lemma RunsOnPage(script: Script, i: nat)
    requires RunsOn(script, i) && i < |script| && script[i].Page?
    ensures ConcatResults(script[..i + 1]) == ConcatResults(script[..i]) + script[i].results
    ensures TokenFor(script, i + 1) == script[i].nextPageToken
    ensures HasToken(script[i].nextPageToken) ==> RunsOn(script, i + 1)
    ensures !HasToken(script[i].nextPageToken) ==>
              PagesRead(script) == i + 1 && RequestCount(script) == i + 1 && Fetched(script) == ConcatResults(script[..i + 1])
  {
    PageStep(script, i);
    assert script[i..][1..] == script[i + 1..];
  }

  /** The `i`-th request fails: the run has read `i` pages and sent `i + 1` requests. */
  lemma RunsOnFailure(script: Script, i: nat)
    requires RunsOn(script, i) && (i == |script| || script[i].NetworkError?)
    ensures PagesRead(script) == i && EndedByError(script) && RequestCount(script) == i + 1
    ensures Fetched(script) == ConcatResults(script[..i])
  {
  }

  /** A run whose `i`-th page is the first without a token reads exactly `i` pages. */
  lemma {:induction false} FetchEndsAtPage(script: Script, i: nat)
    requires 0 < i <= |script|
    requires forall k :: 0 <= k < i - 1 ==> Continues(script[k])
    requires script[i - 1].Page? && !HasToken(script[i - 1].nextPageToken)
    ensures PagesRead(script) == i && !EndedByError(script)
    ensures Fetched(script) == ConcatResults(script[..i]) && RequestCount(script) == i
  {
    PagesReadAfter(script, i - 1);
  }

  /** Every request after the first follows a page that carried a token. */
  lemma {:induction false} RequestFollowsToken(script: Script, k: nat)
    requires 0 < k < RequestCount(script)
    ensures script[k - 1].Page? && HasToken(script[k - 1].nextPageToken)
  {
    assert Continues(script[0]);
    if k > 1 {
      RequestFollowsToken(script[1..], k - 1);
    }
  }
}

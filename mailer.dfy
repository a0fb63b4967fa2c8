/**
  The mailer: `loadTemplate` fills `{{key}}` placeholders of an e-mail template
  with the entries of a data object, and `sendMail` merges its default options
  with the caller's.
 */
module Mailer {
  import opened Wrappers
  import opened AssocList
  import opened Js

  // ---------------------------------------------------------------------------
  // String.prototype.replace with a string pattern

  /** `pat` occurs in `s` at position `i`. */
  predicate IsAt(s: string, pat: string, i: nat) {
    i + |pat| <= |s| && s[i..i + |pat|] == pat
  }

  ghost predicate Occurs(s: string, pat: string) {
    exists i: nat :: IsAt(s, pat, i)
  }

  /** `s.indexOf(pat, from)`: the first occurrence at or after `from`. */
  function IndexOf(s: string, pat: string, from: nat): (r: Option<nat>)
    ensures r.Some? ==> from <= r.value && IsAt(s, pat, r.value)
    ensures r.Some? ==> forall j: nat :: from <= j < r.value ==> !IsAt(s, pat, j)
    ensures r.None? ==> forall j: nat :: from <= j ==> !IsAt(s, pat, j)
    decreases |s| - from
  {
    if from + |pat| > |s| then None
    else if s[from..from + |pat|] == pat then Some(from)
    else IndexOf(s, pat, from + 1)
  }

  /** The replacement text with its `$` patterns expanded, for a match with no
      capture groups (GetSubstitution, section 22.1.3.19.1 of ECMAScript 2023):
      `$$` is a dollar, `$&` the match, `` $` `` the text before it, `$'` the text
      after it; any other `$` stays as it is. */
  function Expand(rep: string, before: string, matched: string, after: string): (r: string)
    ensures Lacks(rep, '$') ==> r == rep
    ensures rep == "$&" ==> r == matched
    decreases |rep|
  {
    if rep == [] then ""
    else if rep[0] == '$' && |rep| >= 2 && rep[1] in "$&`'" then
      var piece := if rep[1] == '$' then "$" else if rep[1] == '&' then matched else if rep[1] == '`' then before else after;
      piece + Expand(rep[2..], before, matched, after)
    else [rep[0]] + Expand(rep[1..], before, matched, after)
  }

  /** `s.replace(pat, rep)`: only the first occurrence is replaced; with none,
      `s` comes back unchanged. */
  function ReplaceFirst(s: string, pat: string, rep: string): (r: string)
    ensures IndexOf(s, pat, 0).None? ==> r == s
    ensures IndexOf(s, pat, 0).Some? ==>
              var i := IndexOf(s, pat, 0).value;
              r == s[..i] + Expand(rep, s[..i], pat, s[i + |pat|..]) + s[i + |pat|..]
  {
    match IndexOf(s, pat, 0)
    case None => s
    case Some(i) => s[..i] + Expand(rep, s[..i], pat, s[i + |pat|..]) + s[i + |pat|..]
  }

  // ---------------------------------------------------------------------------
  // loadTemplate

  /** `` `{{${k}}}` ``. */
  function Placeholder(k: string): (r: string)
    ensures |r| == |k| + 4
  {
    "{{" + k + "}}"
  }

  /** Each entry in turn replaces the first placeholder of its key with its value. */
  function Fill(text: string, es: Fields): string
    decreases |es|
  {
    if es == [] then text
    else
      var (k, v) := es[|es| - 1];
      ReplaceFirst(Fill(text, es[..|es| - 1]), Placeholder(k), ToJsString(v))
  }

  /** `Object.entries(data)` when `data` is truthy; the template as read otherwise. */
  function Render(template: string, data: Json): string {
    if Truthy(data) then Fill(template, ForIn(data)) else template
  }

  /** `loadTemplate(templateName, data)`, given the text read from the template file. */
  method LoadTemplate(template: string, data: Json) returns (text: string)
    ensures text == Render(template, data)
  {
    text := template;
    if Truthy(data) {
      var es := ForIn(data);
      for i := 0 to |es|
        invariant text == Fill(template, es[..i])
      {
        var (k, v) := es[i];
        assert es[..i + 1][..i] == es[..i];
        text := ReplaceFirst(text, Placeholder(k), ToJsString(v));
      }
      assert es[..|es|] == es;
    }
  }

  /** With no data entries the template is returned as read. */
  lemma EmptyDataUnchanged(template: string, data: Json)
    requires data == Undefined || data == Null || data == Obj([])
    ensures Render(template, data) == template
  {
  }

  /** Only the first placeholder of a key is filled: a second one further on
      survives the replacement. */
  lemma {:induction false} SecondPlaceholderKept(s: string, k: string, v: string, i: nat, j: nat)
    requires Lacks(v, '$')
    requires IsAt(s, Placeholder(k), i) && IsAt(s, Placeholder(k), j) && i + |k| + 4 <= j
    ensures IsAt(ReplaceFirst(s, Placeholder(k), v), Placeholder(k), j - (|k| + 4) + |v|)
  {
    var pat := Placeholder(k);
    var f := IndexOf(s, pat, 0).value;
    assert f <= i;
    var r := ReplaceFirst(s, pat, v);
    var tail := s[f + |pat|..];
    assert r == s[..f] + v + tail;
    var p := j - |pat| + |v|;
    assert p == |s[..f] + v| + (j - (f + |pat|));
    assert r[p..p + |pat|] == tail[j - (f + |pat|)..j - (f + |pat|) + |pat|];
  }

  predicate BraceFree(k: string) {
    Lacks(k, '{') && Lacks(k, '}')
  }

  /** Inside a placeholder with a brace-free key, position `d` holds a `{`
      only at 0 and 1. */
  lemma OpenBraces(k: string, d: nat)
    requires BraceFree(k) && d < |k| + 4 && Placeholder(k)[d] == '{'
    ensures d <= 1
  {
  }

  /** Two placeholders of different brace-free keys never overlap. */
  lemma {:induction false} PlaceholdersApart(s: string, a: string, b: string, i: nat, p: nat)
    requires BraceFree(a) && BraceFree(b) && a != b
    requires IsAt(s, Placeholder(a), i) && IsAt(s, Placeholder(b), p)
    ensures p + |b| + 4 <= i || i + |a| + 4 <= p
  {
    var A, B := Placeholder(a), Placeholder(b);
    if i <= p < i + |A| {
      assert A[p - i] == s[p] == B[0] == '{';
      OpenBraces(a, p - i);
      if p == i + 1 {
        assert A[2] == s[p + 1] == B[1] == '{';
        OpenBraces(a, 2);
        assert false;
      }
      SamePlaceholder(s, a, b, i);
    } else if p < i < p + |B| {
      assert B[i - p] == s[i] == A[0] == '{';
      OpenBraces(b, i - p);
      assert B[2] == s[i + 1] == A[1] == '{';
      OpenBraces(b, 2);
      assert false;
    }
  }

  /** Within the key of a placeholder there is no `}`. */
  lemma NoCloseInside(s: string, k: string, i: nat, m: nat)
    requires BraceFree(k) && IsAt(s, Placeholder(k), i) && 2 <= m < |k| + 2
    ensures s[i + m] != '}'
  {
    assert s[i + m] == Placeholder(k)[m] == k[m - 2];
  }

  /** Two placeholders with brace-free keys starting at the same place are the same. */
  lemma SamePlaceholder(s: string, a: string, b: string, i: nat)
    requires BraceFree(a) && BraceFree(b)
    requires IsAt(s, Placeholder(a), i) && IsAt(s, Placeholder(b), i)
    ensures a == b
  {
    var A, B := Placeholder(a), Placeholder(b);
    if |a| < |b| {
      NoCloseInside(s, b, i, |a| + 2);
      assert false;
    } else if |b| < |a| {
      NoCloseInside(s, a, i, |b| + 2);
      assert false;
    } else {
      assert forall d :: 0 <= d < |a| ==> a[d] == A[d + 2] == s[i + d + 2] == B[d + 2] == b[d];
    }
  }

  /** Filling one key leaves every placeholder of another key in place. */
  lemma {:induction false} ReplaceKeepsOther(s: string, a: string, v: string, b: string)
    requires BraceFree(a) && BraceFree(b) && a != b
    requires Occurs(s, Placeholder(b))
    ensures Occurs(ReplaceFirst(s, Placeholder(a), v), Placeholder(b))
  {
    var A, B := Placeholder(a), Placeholder(b);
    var p: nat :| IsAt(s, B, p);
    match IndexOf(s, A, 0)
    case None =>
      assert IsAt(ReplaceFirst(s, A, v), B, p);
    case Some(i) =>
      PlaceholdersApart(s, a, b, i, p);
      var pre, ins, tail := s[..i], Expand(v, s[..i], A, s[i + |A|..]), s[i + |A|..];
      var r := ReplaceFirst(s, A, v);
      assert r == pre + ins + tail;
      if p + |B| <= i {
        assert r[p..p + |B|] == pre[p..p + |B|];
        assert IsAt(r, B, p);
      } else {
        var q := |pre| + |ins| + (p - (i + |A|));
        assert r[q..q + |B|] == tail[p - (i + |A|)..p - (i + |A|) + |B|];
        assert IsAt(r, B, q);
      }
  }

  /** A placeholder whose key is not among the data's keys is left intact,
      when the keys hold no braces. */
  lemma {:induction false} AbsentKeyKept(text: string, es: Fields, b: string)
    requires BraceFree(b) && Occurs(text, Placeholder(b))
    requires forall n :: 0 <= n < |es| ==> BraceFree(es[n].0) && es[n].0 != b
    ensures Occurs(Fill(text, es), Placeholder(b))
    decreases |es|
  {
    if es != [] {
      var (k, v) := es[|es| - 1];
      AbsentKeyKept(text, es[..|es| - 1], b);
      ReplaceKeepsOther(Fill(text, es[..|es| - 1]), k, ToJsString(v), b);
    }
  }

  /** A text that is exactly the pattern is replaced as a whole. */
  lemma ReplaceWhole(s: string, v: string)
    requires Lacks(v, '$')
    ensures ReplaceFirst(s, s, v) == v
  {
    assert IsAt(s, s, 0) by {
      assert s[0..|s|] == s;
    }
    assert s[..0] == "" && s[|s|..] == "";
  }

  /** Replacement is sequential: text put in by one entry is matched by the
      placeholder of a later one. */
  lemma Sequential()
    ensures Fill("{{a}}", [("a", Str("{{b}}")), ("b", Str("x"))]) == "x"
  {
    var e1, e2 := ("a", Str("{{b}}")), ("b", Str("x"));
    assert [e1, e2][..1] == [e1];
    assert [e1][..0] == [];
    assert Placeholder("a") == "{{a}}" && Placeholder("b") == "{{b}}";
    ReplaceWhole("{{a}}", "{{b}}");
    assert Fill("{{a}}", [e1]) == "{{b}}";
    ReplaceWhole("{{b}}", "x");
  }

  /** A value `$&` puts the placeholder itself back: the template is unchanged. */
  lemma DollarAmpersandKeepsPlaceholder(s: string, k: string)
    ensures ReplaceFirst(s, Placeholder(k), "$&") == s
  {
    var pat := Placeholder(k);
    match IndexOf(s, pat, 0)
    case None =>
    case Some(i) =>
      assert s[i..i + |pat|] == pat;
      assert s == s[..i] + s[i..i + |pat|] + s[i + |pat|..];
  }

  // ---------------------------------------------------------------------------
  // sendMail

  /** The constructor's `defaultMailOptions`: `from` set from the environment. */
  function DefaultOptions(from: Json): Fields {
    [("from", from)]
  }

  /** `{...defaultMailOptions, ...mailOptions}`: own enumerable properties of the
      defaults, then of the caller's options, assigned in order. */
  function MergeOptions(defaults: Fields, options: Json): (r: Fields)
    ensures forall k :: k in Keys(r) <==> k in Keys(defaults) || k in Keys(ForIn(options))
  {
    SetAllKeys([], defaults);
    SetAllKeys(SetAll([], defaults), ForIn(options));
    SetAll(SetAll([], defaults), ForIn(options))
  }

  lemma GetAbsent<V>(fs: Entries<V>, k: string)
    requires k !in Keys(fs)
    ensures Get(fs, k) == None
  {
    if Get(fs, k).Some? {
      var i := GetIndex(fs, k);
      assert false;
    }
  }

  /** Each option reads the caller's value when the caller gives one, and the
      default otherwise. */
  lemma MergeOverrides(defaults: Fields, options: Json, k: string)
    requires DistinctKeys(defaults) && DistinctKeys(ForIn(options))
    ensures Get(MergeOptions(defaults, options), k) ==
            if k in Keys(ForIn(options)) then Get(ForIn(options), k) else Get(defaults, k)
  {
    SetAllGet(SetAll([], defaults), ForIn(options), k);
    SetAllGet([], defaults, k);
    if k !in Keys(defaults) {
      GetAbsent(defaults, k);
      GetAbsent<Json>([], k);
    }
  }

  /** The default sender survives exactly when the caller names none. */
  lemma DefaultFrom(from: Json, options: Json)
    requires DistinctKeys(ForIn(options))
    ensures "from" !in Keys(ForIn(options)) ==> Get(MergeOptions(DefaultOptions(from), options), "from") == Some(from)
    ensures "from" in Keys(ForIn(options)) ==> Get(MergeOptions(DefaultOptions(from), options), "from") == Get(ForIn(options), "from")
  {
    assert DistinctKeys(DefaultOptions(from));
    MergeOverrides(DefaultOptions(from), options, "from");
  }
}

/**
  The name normaliser of MapScraperClass: `name.replace(/[^a-zA-Z]+/g, '_').toLowerCase()`.
  Its results are the keys of the pruned hierarchy and of the result tree.
 */
module Names {

  predicate IsAsciiLetter(c: char) {
    'a' <= c <= 'z' || 'A' <= c <= 'Z'
  }

  /** `toLowerCase` on the characters that can survive the replacement. */
  function Lower(c: char): char {
    if 'A' <= c <= 'Z' then (c as int + 32) as char else c
  }

  /** A character a normalised name may contain. */
  predicate IsKeyChar(c: char) {
    'a' <= c <= 'z' || c == '_'
  }

  predicate NoDoubleUnderscore(s: string) {
    forall i :: 0 <= i < |s| - 1 ==> !(s[i] == '_' && s[i + 1] == '_')
  }

  /** The shape every normalised name has. */
  predicate IsNormalized(s: string) {
    (forall i :: 0 <= i < |s| ==> IsKeyChar(s[i])) && NoDoubleUnderscore(s)
  }

  /** Drops the rest of a run of non-letters (the regex's `+`). */
  function SkipNonLetters(s: string): (r: string)
    ensures |r| <= |s|
    ensures r == [] || IsAsciiLetter(r[0])
  {
    if s == [] || IsAsciiLetter(s[0]) then s else SkipNonLetters(s[1..])
  }

  /** `normalizeName`: each maximal run of characters other than ASCII letters
      becomes one `_`, and letters are lower-cased. */
  function NormalizeName(s: string): (r: string)
    ensures |r| <= |s|
    ensures r == [] <==> s == []
    ensures s != [] ==> r[0] == (if IsAsciiLetter(s[0]) then Lower(s[0]) else '_')
    decreases |s|
  {
    if s == [] then []
    else if IsAsciiLetter(s[0]) then [Lower(s[0])] + NormalizeName(s[1..])
    else ['_'] + NormalizeName(SkipNonLetters(s[1..]))
  }

  /** The output holds only `a`-`z` and `_`, never two `_` in a row, is no longer
      than the input, and starts with the image of the input's first character. */
  lemma {:induction false} NormalizeShape(s: string)
    ensures IsNormalized(NormalizeName(s))
    ensures |NormalizeName(s)| <= |s|
    ensures s != [] ==>
              NormalizeName(s) != [] &&
              NormalizeName(s)[0] == (if IsAsciiLetter(s[0]) then Lower(s[0]) else '_')
    decreases |s|
  {
    if s != [] {
      if IsAsciiLetter(s[0]) {
        NormalizeShape(s[1..]);
      } else {
        NormalizeShape(SkipNonLetters(s[1..]));
      }
    }
  }

  /** A name that already has the normalised shape is left as it is. */
  lemma {:induction false} NormalizedIsFixed(s: string)
    requires IsNormalized(s)
    ensures NormalizeName(s) == s
  {
    if s != [] {
      assert IsNormalized(s[1..]);
      if s[0] == '_' {
        assert s[1..] == [] || IsAsciiLetter(s[1]);
        assert SkipNonLetters(s[1..]) == s[1..];
      }
      NormalizedIsFixed(s[1..]);
    }
  }

  /** `normalizeName(normalizeName(x)) == normalizeName(x)`. */
  lemma NormalizeIdempotent(s: string)
    ensures NormalizeName(NormalizeName(s)) == NormalizeName(s)
  {
    NormalizeShape(s);
    NormalizedIsFixed(NormalizeName(s));
  }

  // ----- letters are kept, in order, lower-cased -----

  function Letters(s: string): string {
    if s == [] then [] else (if IsAsciiLetter(s[0]) then [s[0]] else []) + Letters(s[1..])
  }

  function LowerAll(s: string): string {
    if s == [] then [] else [Lower(s[0])] + LowerAll(s[1..])
  }

  /** The letters of a normalised name, i.e. everything but its underscores. */
  function KeyLetters(s: string): string {
    if s == [] then [] else (if s[0] == '_' then [] else [s[0]]) + KeyLetters(s[1..])
  }

  lemma {:induction false} SkipKeepsLetters(s: string)
    ensures Letters(SkipNonLetters(s)) == Letters(s)
  {
    if s != [] && !IsAsciiLetter(s[0]) {
      SkipKeepsLetters(s[1..]);
    }
  }

  /** The ASCII letters of the input come out in the same order, lower-cased,
      and they are the only characters other than `_`. */
  lemma {:induction false} NormalizeKeepsLetters(s: string)
    ensures KeyLetters(NormalizeName(s)) == LowerAll(Letters(s))
    decreases |s|
  {
    if s != [] {
      var r := NormalizeName(s);
      if IsAsciiLetter(s[0]) {
        NormalizeKeepsLetters(s[1..]);
        assert r[1..] == NormalizeName(s[1..]);
        assert Lower(s[0]) != '_';
      } else {
        SkipKeepsLetters(s[1..]);
        NormalizeKeepsLetters(SkipNonLetters(s[1..]));
        assert r == ['_'] + NormalizeName(SkipNonLetters(s[1..]));
        assert KeyLetters(r) == KeyLetters(r[1..]);
        assert Letters(s) == Letters(s[1..]);
      }
    }
  }

  // ----- an independent statement of the regex: map, then merge runs -----

  /** What each single character turns into before runs are merged. */
  function Classify(c: char): char {
    if IsAsciiLetter(c) then Lower(c) else '_'
  }

  function ClassifyAll(s: string): (r: string)
    ensures |r| == |s|
  {
    if s == [] then [] else [Classify(s[0])] + ClassifyAll(s[1..])
  }

  /** Merges every run of adjacent underscores into one. */
  function Squash(s: string): string {
    if |s| <= 1 then s
    else if s[0] == '_' && s[1] == '_' then Squash(s[1..])
    else [s[0]] + Squash(s[1..])
  }

  lemma {:induction false} SquashSkips(t: string)
    ensures Squash(['_'] + ClassifyAll(t)) == Squash(['_'] + ClassifyAll(SkipNonLetters(t)))
  {
    if t != [] && !IsAsciiLetter(t[0]) {
      var c := ClassifyAll(t);
      assert c[0] == '_' && c[1..] == ClassifyAll(t[1..]);
      assert (['_'] + c)[1..] == c;
      assert Squash(['_'] + c) == Squash(c);
      assert c == ['_'] + ClassifyAll(t[1..]);
      SquashSkips(t[1..]);
    }
  }

  /** `normalizeName` is "classify every character, then merge runs of `_`":
      every maximal run of non-letters, accented letters included, becomes exactly one `_`. */
  lemma {:induction false} NormalizeIsClassifyThenSquash(s: string)
    ensures NormalizeName(s) == Squash(ClassifyAll(s))
    decreases |s|
  {
    if s != [] {
      var c := ClassifyAll(s);
      assert c == [Classify(s[0])] + ClassifyAll(s[1..]);
      if IsAsciiLetter(s[0]) {
        NormalizeIsClassifyThenSquash(s[1..]);
        assert Lower(s[0]) != '_';
        if |c| > 1 {
          assert Squash(c) == [c[0]] + Squash(c[1..]);
        }
      } else {
        var u := SkipNonLetters(s[1..]);
        SquashSkips(s[1..]);
        NormalizeIsClassifyThenSquash(u);
        var cu := ClassifyAll(u);
        if u != [] {
          assert cu[0] == Lower(u[0]) && cu[0] != '_';
          assert (['_'] + cu)[1..] == cu;
          assert Squash(['_'] + cu) == ['_'] + Squash(cu);
        }
      }
    }
  }

  lemma NormalizeLetterFirst(c: char, t: string)
    requires IsAsciiLetter(c)
    ensures NormalizeName([c] + t) == [Lower(c)] + NormalizeName(t)
  {
    assert ([c] + t)[1..] == t;
  }

  lemma NormalizeCesena()
    ensures NormalizeName("Cesena") == "cesena"
    ensures NormalizeName("cesena") == "cesena"
  {
    NormalizeLetterFirst('e', "sena");
    NormalizeLetterFirst('s', "ena");
    NormalizeLetterFirst('e', "na");
    NormalizeLetterFirst('n', "a");
    NormalizeLetterFirst('a', "");
    NormalizeLetterFirst('C', "esena");
    NormalizeLetterFirst('c', "esena");
    assert Lower('C') == 'c';
    assert ['C'] + "esena" == "Cesena";
    assert ['c'] + "esena" == "cesena";
  }

  lemma NormalizeAccentedTail()
    ensures NormalizeName("ì-Cesena") == "_cesena"
  {
    NormalizeCesena();
    assert SkipNonLetters("-Cesena") == "Cesena";
    assert "ì-Cesena"[1..] == "-Cesena";
  }

  /** A leading run of letters is only lower-cased. */
  lemma {:induction false} NormalizeLettersFirst(w: string, t: string)
    requires forall i :: 0 <= i < |w| ==> IsAsciiLetter(w[i])
    ensures NormalizeName(w + t) == LowerAll(w) + NormalizeName(t)
  {
    if w == [] {
      assert w + t == t;
    } else {
      NormalizeLettersFirst(w[1..], t);
      assert (w + t)[0] == w[0] && (w + t)[1..] == w[1..] + t;
      calc {
        NormalizeName(w + t);
        [Lower(w[0])] + NormalizeName(w[1..] + t);
        [Lower(w[0])] + (LowerAll(w[1..]) + NormalizeName(t));
        ([Lower(w[0])] + LowerAll(w[1..])) + NormalizeName(t);
        LowerAll(w) + NormalizeName(t);
      }
    }
  }

  lemma ForliCesenaKey(accented: string)
    requires accented == "Forlì-Cesena"
    ensures NormalizeName(accented) == "forl_cesena"
  {
    NormalizeAccentedTail();
    NormalizeForlTail("ì-Cesena");
    ForlJoins();
  }

  lemma ForlJoins()
    ensures "Forl" + "ì-Cesena" == "Forlì-Cesena"
    ensures "forl" + "_cesena" == "forl_cesena"
  {
  }

  lemma NormalizeForlTail(t: string)
    ensures NormalizeName("Forl" + t) == "forl" + NormalizeName(t)
  {
    NormalizeLettersFirst("Forl", t);
  }

  /** An accented letter is not folded: "Forlì-Cesena" and "forli_cesena" get different keys. */
  lemma AccentsAreNotFolded(accented: string, plain: string)
    requires accented == "Forlì-Cesena" && plain == "forli_cesena"
    ensures NormalizeName(accented) == "forl_cesena"
    ensures NormalizeName(plain) == plain
    ensures NormalizeName(accented) != NormalizeName(plain)
  {
    ForliCesenaKey(accented);
    NormalizedIsFixed(plain);
  }
}

/**
  JSON-like JavaScript values: what the scraper reads from the places API, stores
  in its result tree and hands to the utilities. `ObjectId` is the database
  driver's identifier object, kept as an opaque leaf carrying its hex text.
 */
module Js {
  import opened Wrappers
  import opened AssocList

  datatype Json =
    | Undefined
    | Null
    | Bool(b: bool)
    | Num(n: int)
    | Str(s: string)
    | Arr(items: seq<Json>)
    | Obj(fields: Entries<Json>)
    | ObjectId(hex: string)

  /** A plain object's own properties, in order. */
  type Fields = Entries<Json>

  /** JavaScript truthiness (`if (v)`, `v || w`, `!!v`). */
  predicate Truthy(j: Json) {
    match j
    case Undefined => false
    case Null => false
    case Bool(b) => b
    case Num(n) => n != 0
    case Str(s) => s != ""
    case _ => true
  }

  /** `typeof v === 'object'` for a truthy value: objects, arrays and ObjectIds. */
  predicate IsObjectLike(j: Json) {
    j.Arr? || j.Obj? || j.ObjectId?
  }

  /** Reading `o.k` where `o` is a plain object: `undefined` when absent. */
  function Prop(fs: Fields, k: string): Json {
    match Get(fs, k)
    case Some(v) => v
    case None => Undefined
  }

  /** `v.k` for a named property (not an index, not `length`): `None` when the
      access throws a TypeError, on `null` and `undefined`; an object's own
      property; `undefined` on every other value. */
  function Member(v: Json, k: string): (r: Option<Json>)
    ensures r.None? <==> v.Undefined? || v.Null?
  {
    match v
    case Undefined => None
    case Null => None
    case Obj(fs) => Some(Prop(fs, k))
    case _ => Some(Undefined)
  }

  predicate IsDigit(c: char) { '0' <= c <= '9' }

  function DigitChar(d: nat): char
    requires d < 10
  {
    ['0', '1', '2', '3', '4', '5', '6', '7', '8', '9'][d]
  }

  /** Decimal rendering of a natural number, as `String(n)` gives it. */
  function NatToString(n: nat): (s: string)
    ensures |s| > 0
    ensures forall i :: 0 <= i < |s| ==> IsDigit(s[i])
    ensures s[0] == '0' ==> n == 0 && s == "0"
    decreases n
  {
    if n < 10 then [DigitChar(n)] else NatToString(n / 10) + [DigitChar(n % 10)]
  }

  function IntToString(i: int): string {
    if i < 0 then "-" + NatToString(-i) else NatToString(i)
  }

  /** The value of a string of decimal digits. */
  function DigitsValue(s: string): nat
    requires forall i :: 0 <= i < |s| ==> IsDigit(s[i])
  {
    if s == [] then 0
    else
      assert IsDigit(s[|s| - 1]);
      10 * DigitsValue(s[..|s| - 1]) + (s[|s| - 1] as int - '0' as int)
  }

  lemma {:induction false} DigitsValueOfNatToString(n: nat)
    ensures DigitsValue(NatToString(n)) == n
    decreases n
  {
    if n >= 10 {
      var s := NatToString(n);
      DigitsValueOfNatToString(n / 10);
      assert s[..|s| - 1] == NatToString(n / 10);
    }
  }

  /** `String(v)`, as template literals and string concatenation use it. */
  function ToJsString(j: Json): string {
    match j
    case Undefined => "undefined"
    case Null => "null"
    case Bool(b) => if b then "true" else "false"
    case Num(n) => IntToString(n)
    case Str(s) => s
    case Arr(xs) => JoinItems(xs, ",")
    case Obj(_) => "[object Object]"
    case ObjectId(h) => h
  }

  /** `xs.join(sep)`: `null` and `undefined` elements render as the empty string. */
  function JoinItems(xs: seq<Json>, sep: string): string {
    if xs == [] then ""
    else
      var head := if xs[0].Undefined? || xs[0].Null? then "" else ToJsString(xs[0]);
      if |xs| == 1 then head else head + sep + JoinItems(xs[1..], sep)
  }

  /** `for (const key in current)`: the own enumerable keys with their values.
      An array's keys are its indices, and so are a string's; a number, a boolean,
      `null`, `undefined` and an ObjectId have none. */
  function ForIn(j: Json): Fields {
    match j
    case Obj(fs) => fs
    case Arr(items) => seq(|items|, i requires 0 <= i < |items| => (NatToString(i), items[i]))
    case Str(s) => seq(|s|, i requires 0 <= i < |s| => (NatToString(i), Str([s[i]])))
    case _ => []
  }

  /** The `i`-th key and value of the loop: an object's own entry, an array's
      `i`-th element under the key `String(i)`, a one-character string. */
  lemma ForInEntry(j: Json, i: nat)
    requires i < |ForIn(j)|
    ensures j.Obj? ==> ForIn(j)[i] == j.fields[i]
    ensures j.Arr? ==> i < |j.items| && ForIn(j)[i] == (NatToString(i), j.items[i])
    ensures j.Str? ==> i < |j.s| && ForIn(j)[i] == (NatToString(i), Str([j.s[i]]))
    ensures j.Obj? || j.Arr? || j.Str?
  {
  }

  // ---------------------------------------------------------------------------
  // String.prototype.split with a one-character separator

  predicate Lacks(s: string, c: char) {
    forall i :: 0 <= i < |s| ==> s[i] != c
  }

  /** `s.split(sep)`: the text between separators, empty pieces included. */
  function Split(s: string, sep: char): (r: seq<string>)
    ensures |r| >= 1
  {
    if s == [] then [""]
    else if s[0] == sep then [""] + Split(s[1..], sep)
    else
      var rest := Split(s[1..], sep);
      [[s[0]] + rest[0]] + rest[1..]
  }

  /** A character other than the separator joins the first piece. */
  lemma SplitCons(c: char, t: string, sep: char)
    requires c != sep
    ensures Split([c] + t, sep) == [[c] + Split(t, sep)[0]] + Split(t, sep)[1..]
  {
    assert ([c] + t)[0] == c && ([c] + t)[1..] == t;
  }

  /** Splitting a separator-free prefix glued to `t` glues it to the first piece of `t`. */
  lemma {:induction false} SplitPrefix(a: string, t: string, sep: char)
    requires Lacks(a, sep)
    ensures Split(a + t, sep) == [a + Split(t, sep)[0]] + Split(t, sep)[1..]
  {
    var s := Split(t, sep);
    if a == [] {
      assert a + t == t && a + s[0] == s[0];
      assert s == [s[0]] + s[1..];
    } else {
      SplitPrefix(a[1..], t, sep);
      assert a + t == [a[0]] + (a[1..] + t);
      SplitCons(a[0], a[1..] + t, sep);
      assert [a[0]] + (a[1..] + s[0]) == a + s[0];
    }
  }

  /** `p.join(sep)` on an array of strings. */
  function Join(p: seq<string>, sep: char): string {
    if p == [] then ""
    else if |p| == 1 then p[0]
    else p[0] + [sep] + Join(p[1..], sep)
  }

  /** Splitting undoes joining when no piece holds the separator. */
  lemma {:induction false} SplitJoin(p: seq<string>, sep: char)
    requires p != [] && forall i :: 0 <= i < |p| ==> Lacks(p[i], sep)
    ensures Split(Join(p, sep), sep) == p
  {
    if |p| == 1 {
      SplitPrefix(p[0], "", sep);
      assert p[0] + "" == p[0];
    } else {
      SplitJoin(p[1..], sep);
      var t := [sep] + Join(p[1..], sep);
      SplitPrefix(p[0], t, sep);
      assert t[1..] == Join(p[1..], sep);
      assert Split(t, sep) == [""] + p[1..];
      assert p[0] + Join(p[1..], sep) == p[0] + "" + Join(p[1..], sep);
      assert p[0] + [sep] + Join(p[1..], sep) == p[0] + t;
      assert p[0] + "" == p[0];
      assert p == [p[0]] + p[1..];
    }
  }

  /** Joining the pieces with the separator gives back the text that was split. */
  lemma {:induction false} JoinSplit(s: string, sep: char)
    ensures Join(Split(s, sep), sep) == s
  {
    if s != [] {
      var rest := Split(s[1..], sep);
      JoinSplit(s[1..], sep);
      if s[0] == sep {
        assert Split(s, sep) == [""] + rest;
        assert s == [sep] + s[1..];
      } else {
        var r := Split(s, sep);
        assert r == [[s[0]] + rest[0]] + rest[1..];
        if |rest| == 1 {
          assert rest == [rest[0]];
          assert s == [s[0]] + s[1..];
        } else {
          assert r[1..] == rest[1..];
          assert Join(rest, sep) == rest[0] + [sep] + Join(rest[1..], sep);
          assert s == [s[0]] + s[1..];
        }
      }
    }
  }

  /** No piece holds the separator. */
  lemma {:induction false} SplitPieces(s: string, sep: char)
    ensures forall i :: 0 <= i < |Split(s, sep)| ==> Lacks(Split(s, sep)[i], sep)
  {
    if s != [] {
      SplitPieces(s[1..], sep);
      var rest := Split(s[1..], sep);
      if s[0] != sep {
        assert Lacks([s[0]] + rest[0], sep) by {
          assert Lacks(rest[0], sep);
        }
      }
    }
  }
}

/**
  The dotted-key codec of the web utilities: `flattenObject` turns a nested
  object into a one-level object whose keys are the `.`-joined paths of its
  leaves, and `unflattenObject` rebuilds nested containers from such keys.
 */
module Flattening {
  import opened Wrappers
  import opened AssocList
  import opened Js
  import opened Seqs

  /** The keys leading from the root to a leaf. */
  type Path = seq<string>

  /** A leaf with its path, as `flattenObject` meets it. */
  type PathLeaf = (Path, Json)

  // ---------------------------------------------------------------------------
  // Paths as dotted keys

  predicate DotFree(k: string) {
    Lacks(k, '.')
  }

  predicate DotFreePath(p: Path) {
    forall i :: 0 <= i < |p| ==> DotFree(p[i])
  }

  /** Two dot-free paths with the same dotted key are the same path. */
  lemma JoinInjective(p: Path, q: Path)
    requires p != [] && DotFreePath(p) && q != [] && DotFreePath(q)
    requires Join(p, '.') == Join(q, '.')
    ensures p == q
  {
    SplitJoin(p, '.');
    SplitJoin(q, '.');
  }

  // ---------------------------------------------------------------------------
  // flattenObject

  /** `convertObjectIdToString`: an ObjectId becomes its hex text; anything else is kept. */
  function ConvertObjectId(v: Json): (r: Json)
    ensures !r.ObjectId?
  {
    if v.ObjectId? then Str(v.hex) else v
  }

  /** The test that sends `flattenObject` into a value: truthy, of type `object`,
      and not under a key listed in `skipKeys`. */
  predicate Descends(k: string, v: Json, skipKeys: seq<string>) {
    Truthy(v) && IsObjectLike(v) && k !in skipKeys
  }

  /** The paths in `segs`, each preceded by `prefix`. */
  function Under(prefix: Path, segs: seq<PathLeaf>): (r: seq<PathLeaf>)
    ensures |r| == |segs|
    ensures forall i :: 0 <= i < |segs| ==> r[i] == (prefix + segs[i].0, segs[i].1)
  {
    seq(|segs|, i requires 0 <= i < |segs| => (prefix + segs[i].0, segs[i].1))
  }

  /** The leaves `flattenObject` writes for `j`, in the order it writes them,
      with their paths below `j`. */
  function Segs(j: Json, skipKeys: seq<string>): seq<PathLeaf>
    decreases j, 1
  {
    SegsFrom(j, |ForIn(j)|, skipKeys)
  }

  lemma SegsAll(j: Json, skipKeys: seq<string>)
    ensures Segs(j, skipKeys) == SegsFrom(j, |ForIn(j)|, skipKeys)
  {
  }

  /** The leaves written by the first `n` passes of the loop over `j`'s keys. */
  function SegsFrom(j: Json, n: nat, skipKeys: seq<string>): seq<PathLeaf>
    requires n <= |ForIn(j)|
    decreases j, 0, n
  {
    if n == 0 then [] else SegsFrom(j, n - 1, skipKeys) + EntrySegs(j, n - 1, skipKeys)
  }

  /** The leaves written by the pass for `j`'s `i`-th key: a nested object or
      array is walked, an ObjectId is stringified, anything else is a leaf. */
  function EntrySegs(j: Json, i: nat, skipKeys: seq<string>): seq<PathLeaf>
    requires i < |ForIn(j)|
    decreases j, 0, i
  {
    ForInEntry(j, i);
    var (k, v) := ForIn(j)[i];
    if Descends(k, v, skipKeys) then
      if v.ObjectId? then [([k], ConvertObjectId(v))]
      else Under([k], Segs(v, skipKeys))
    else [([k], ConvertObjectId(v))]
  }

  /** `result[key] = value` for each leaf in turn, under its dotted path. */
  function WriteAll(acc: Fields, segs: seq<PathLeaf>): Fields
    decreases |segs|
  {
    if segs == [] then acc
    else
      var last := segs[|segs| - 1];
      Set(WriteAll(acc, segs[..|segs| - 1]), Join(last.0, '.'), last.1)
  }

  /** What `flattenObject(obj, skipKeys)` returns. */
  function Flatten(obj: Json, skipKeys: seq<string>): Fields {
    WriteAll([], Segs(obj, skipKeys))
  }

  lemma {:induction false} WriteAllAppend(acc: Fields, a: seq<PathLeaf>, b: seq<PathLeaf>)
    ensures WriteAll(acc, a + b) == WriteAll(WriteAll(acc, a), b)
    decreases |b|
  {
    if b == [] {
      assert a + b == a;
    } else {
      DropLastOfAppend(a, b);
      WriteAllAppend(acc, a, b[..|b| - 1]);
    }
  }

  /** Writing one leaf is one assignment. */
  lemma WriteOne(acc: Fields, path: Path, key: string, v: Json)
    ensures WriteAll(acc, Under(path, [([key], v)])) == Set(acc, Join(path + [key], '.'), v)
  {
    var u := Under(path, [([key], v)]);
    assert u[..0] == [];
  }

  lemma UnderAppend(prefix: Path, a: seq<PathLeaf>, b: seq<PathLeaf>)
    ensures Under(prefix, a + b) == Under(prefix, a) + Under(prefix, b)
  {
  }

  lemma UnderUnder(p: Path, q: Path, segs: seq<PathLeaf>)
    ensures Under(p, Under(q, segs)) == Under(p + q, segs)
  {
    forall i | 0 <= i < |segs| ensures p + (q + segs[i].0) == (p + q) + segs[i].0 {
      AppendAssoc(p, q, segs[i].0);
    }
  }

  lemma UnderNothing(segs: seq<PathLeaf>)
    ensures Under([], segs) == segs
  {
    forall i | 0 <= i < |segs| ensures [] + segs[i].0 == segs[i].0 { }
  }

  /** The closure of `flattenObject`: `result` is the object it writes into, and
      `recurse` walks one value below a path. */
  class Flattener {
    var result: Fields
    const skipKeys: seq<string>

    constructor (skipKeys: seq<string>)
      ensures result == [] && this.skipKeys == skipKeys
    {
      result := [];
      this.skipKeys := skipKeys;
    }

    /** `recurse(current, path)`: writes the leaves below `current`, in order. */
    method Recurse(current: Json, path: Path)
      modifies this
      ensures result == WriteAll(old(result), Under(path, Segs(current, skipKeys)))
      decreases current, 1
    {
      var es := ForIn(current);
      ghost var start := result;
      ghost var done: seq<PathLeaf> := [];
      for i := 0 to |es|
        invariant done == SegsFrom(current, i, skipKeys)
        invariant result == WriteAll(start, Under(path, done))
      {
        Visit(current, es, i, path, start, done);
        done := done + EntrySegs(current, i, skipKeys);
      }
      SegsAll(current, skipKeys);
    }

    /** The body of the `for ... in` loop for `current`'s `i`-th key. */
    method Visit(current: Json, es: Fields, i: nat, path: Path, ghost start: Fields, ghost done: seq<PathLeaf>)
      requires es == ForIn(current) && i < |es|
      requires result == WriteAll(start, Under(path, done))
      modifies this
      ensures result == WriteAll(start, Under(path, done + EntrySegs(current, i, skipKeys)))
      decreases current, 0
    {
      ForInEntry(current, i);
      var key, v := es[i].0, es[i].1;
      var newPath := path + [key];
      if Truthy(v) && IsObjectLike(v) && !(key in skipKeys) {
        if v.ObjectId? {
          result := Set(result, Join(newPath, '.'), ConvertObjectId(v));
          WriteOne(old(result), path, key, ConvertObjectId(v));
        } else {
          Recurse(v, newPath);
          UnderUnder(path, [key], Segs(v, skipKeys));
        }
      } else {
        result := Set(result, Join(newPath, '.'), ConvertObjectId(v));
        WriteOne(old(result), path, key, ConvertObjectId(v));
      }
      UnderAppend(path, done, EntrySegs(current, i, skipKeys));
      WriteAllAppend(start, Under(path, done), Under(path, EntrySegs(current, i, skipKeys)));
    }
  }

  /** `flattenObject(obj, skipKeys)`. */
  method FlattenObject(obj: Json, skipKeys: seq<string>) returns (r: Fields)
    ensures r == Flatten(obj, skipKeys)
  {
    var f := new Flattener(skipKeys);
    f.Recurse(obj, []);
    UnderNothing(Segs(obj, skipKeys));
    r := f.result;
  }

  // ---------------------------------------------------------------------------
  // unflattenObject

  /** `!isNaN(Number(s))` for the strings the model tells apart: the empty string
      and strings of decimal digits. */
  predicate IsNumeric(s: string) {
    forall i :: 0 <= i < |s| ==> IsDigit(s[i])
  }

  /** A fresh container for the next key: `[]` before a numeric key, `{}` otherwise. */
  function Container(next: string): Json {
    if IsNumeric(next) then Arr([]) else Obj([])
  }

  /** Why `unflattenObject` gives no value: a `TypeError` thrown (`push` on an
      object, a property written on a primitive), or a case the model does not
      follow (a property or a hole written on an array, a property on an ObjectId). */
  datatype UnflatError = TypeError | Unmodelled

  /** The inner loop of `unflattenObject` for one dotted key: walks `keys` down
      from `node`, creating or reusing a container at each step, and at the last
      key assigns `v` or, when the key is numeric, pushes it. */
  function Insert(node: Json, keys: seq<string>, v: Json): (r: Result<Json, UnflatError>)
    requires keys != []
    ensures r.Ok? ==> (r.value.Obj? <==> node.Obj?) && (r.value.Arr? <==> node.Arr?)
    ensures !node.Obj? && !node.Arr? ==> r.Err?
    ensures node.Obj? && |keys| == 1 ==>
              if IsNumeric(keys[0]) then r == Err(TypeError)
              else r.Ok? && Get(r.value.fields, keys[0]) == Some(v)
    ensures node.Arr? && |keys| == 1 ==>
              if IsNumeric(keys[0]) then r == Ok(Arr(node.items + [v])) else r.Err?
    decreases |keys|
  {
    var k := keys[0];
    match node
    case Obj(fs) =>
      if |keys| == 1 then
        if IsNumeric(k) then Err(TypeError) else SetGet(fs, k, v); Ok(Obj(Set(fs, k, v)))
      else
        var existing := Prop(fs, k);
        var child := if Truthy(existing) then existing else Container(keys[1]);
        (match Insert(child, keys[1..], v)
         case Err(e) => Err(e)
         case Ok(c) => Ok(Obj(Set(fs, k, c))))
    case Arr(items) =>
      if !IsNumeric(k) then Err(Unmodelled)
      else if |keys| == 1 then Ok(Arr(items + [v]))
      else if k != NatToString(DigitsValue(k)) || DigitsValue(k) > |items| then Err(Unmodelled)
      else
        var d := DigitsValue(k);
        var child := if d < |items| && Truthy(items[d]) then items[d] else Container(keys[1]);
        (match Insert(child, keys[1..], v)
         case Err(e) => Err(e)
         case Ok(c) => Ok(Arr(if d < |items| then items[d := c] else items + [c])))
    case ObjectId(_) => Err(Unmodelled)
    case _ => Err(TypeError)
  }

  /** The outer loop of `unflattenObject` after the entries `entries`, from `acc`. */
  function UnflattenFrom(acc: Json, entries: Fields): Result<Json, UnflatError>
    decreases |entries|
  {
    if entries == [] then Ok(acc)
    else
      var last := entries[|entries| - 1];
      match UnflattenFrom(acc, entries[..|entries| - 1])
      case Err(e) => Err(e)
      case Ok(a) => Insert(a, Split(last.0, '.'), last.1)
  }

  /** `unflattenObject(obj)`: the entries in key order, each inserted by its dotted key. */
  method UnflattenObject(obj: Fields) returns (r: Result<Json, UnflatError>)
    ensures r == UnflattenFrom(Obj([]), obj)
  {
    var result := Obj([]);
    var i := 0;
    while i < |obj|
      invariant 0 <= i <= |obj|
      invariant UnflattenFrom(Obj([]), obj[..i]) == Ok(result)
    {
      var keys := Split(obj[i].0, '.');
      var step := Insert(result, keys, obj[i].1);
      TakeOneMore(obj, i);
      if step.Err? {
        TakeAll(obj);
        UnflattenStops(Obj([]), obj, i + 1);
        return step;
      }
      result := step.value;
      i := i + 1;
    }
    TakeAll(obj);
    return Ok(result);
  }

  /** An error thrown while inserting the first `n` entries ends the whole call. */
  lemma {:induction false} UnflattenStops(acc: Json, entries: Fields, n: nat)
    requires n <= |entries| && UnflattenFrom(acc, entries[..n]).Err?
    ensures UnflattenFrom(acc, entries) == UnflattenFrom(acc, entries[..n])
    decreases |entries|
  {
    if n < |entries| {
      var m := |entries| - 1;
      TakeTake(entries, m, n);
      UnflattenStops(acc, entries[..m], n);
    } else {
      assert entries[..n] == entries;
    }
  }
}

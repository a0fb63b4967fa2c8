/**
  `dbErrorParser` of the web utilities: classifies an error raised by the
  database layer into the reply the API sends back.
 */
module DbErrors {
  import opened Wrappers
  import opened AssocList
  import opened Js

  /** `{status: 400, message: 'Resource already exists'}`: a duplicate key (code 11000). */
  const AlreadyExists: Json := Obj([("status", Num(400)), ("message", Str("Resource already exists"))])

  /** `{status: 404, message: 'Resource not found'}`: a failed cast of an identifier. */
  const NotFound: Json := Obj([("status", Num(404)), ("message", Str("Resource not found"))])

  predicate HasCode(error: Json, code: int) {
    Member(error, "code") == Some(Num(code))
  }

  predicate Named(error: Json, name: string) {
    Member(error, "name") == Some(Str(name))
  }

  /** A `ValidationError` whose `errors` property is truthy. */
  predicate HasErrors(error: Json) {
    Named(error, "ValidationError") && Truthy(Member(error, "errors").value)
  }

  /** The validation errors, visited with `for (const key in error.errors)`. */
  function ErrorEntries(error: Json): Fields
    requires HasErrors(error)
  {
    ForIn(Member(error, "errors").value)
  }

  /** Reading `e.message` of one entry throws only when the entry is `null` or `undefined`. */
  predicate MessageThrows(e: Json)
    ensures MessageThrows(e) <==> Member(e, "message").None?
  {
    e.Undefined? || e.Null?
  }

  /** `e.message` of an entry that does not throw: an object's own `message`
      property, or `undefined` when it has none; `undefined` for any other value. */
  function MessageOf(e: Json): (m: Json)
    requires !MessageThrows(e)
    ensures e.Obj? && "message" in Keys(e.fields) ==> ("message", m) in e.fields
    ensures e.Obj? && "message" !in Keys(e.fields) ==> m == Undefined
    ensures !e.Obj? ==> m == Undefined
  {
    Member(e, "message").value
  }

  /** The messages of the validation errors in key order, or `None` when reading
      one of them throws (and the `catch` hands back the error itself). */
  function Messages(es: Fields): (r: Option<seq<Json>>)
    ensures r.None? <==> exists i :: 0 <= i < |es| && MessageThrows(es[i].1)
    ensures r.Some? ==> |r.value| == |es|
    ensures r.Some? ==> forall i :: 0 <= i < |es| ==> Some(r.value[i]) == Member(es[i].1, "message")
  {
    if exists i :: 0 <= i < |es| && MessageThrows(es[i].1) then None
    else Some(seq(|es|, i requires 0 <= i < |es| => MessageOf(es[i].1)))
  }

  /** The reply `dbErrorParser` gives, case by case in the order it tests them. */
  function Parse(error: Json): (r: Json)
    // a duplicate key wins over any name
    ensures HasCode(error, 11000) ==> r == AlreadyExists
    ensures !HasCode(error, 11000) && Named(error, "CastError") ==> r == NotFound
    ensures !HasCode(error, 11000) && HasErrors(error) && Messages(ErrorEntries(error)).Some? ==>
              r == Str(JoinItems(Messages(ErrorEntries(error)).value, ", "))
    // in every other case the error comes back unchanged
    ensures r != error ==> HasCode(error, 11000) || Named(error, "CastError") || HasErrors(error)
    ensures r.Str? && r != error ==> HasErrors(error)
    // a message read that throws is caught and the error comes back unchanged
    ensures (!HasCode(error, 11000) && !Named(error, "CastError") && HasErrors(error) &&
             Messages(ErrorEntries(error)).None?) ==> r == error
  {
    if error.Undefined? || error.Null? then error
    else if HasCode(error, 11000) then AlreadyExists
    else if Named(error, "CastError") then NotFound
    else if HasErrors(error) then
      match Messages(ErrorEntries(error))
      case Some(ms) => Str(JoinItems(ms, ", "))
      case None => error
    else error
  }

  /** `dbErrorParser(error)`, with its loop collecting the messages. */
  method DbErrorParser(error: Json) returns (r: Json)
    ensures r == Parse(error)
  {
    if error.Undefined? || error.Null? {
      return error;
    }
    if HasCode(error, 11000) {
      return AlreadyExists;
    }
    if Named(error, "CastError") {
      return NotFound;
    }
    if !HasErrors(error) {
      return error;
    }
    var messages := CollectMessages(ErrorEntries(error));
    r := if messages.Some? then Str(JoinItems(messages.value, ", ")) else error;
  }

  /** The `for ... in` loop of `dbErrorParser`, pushing each entry's message. */
  method CollectMessages(es: Fields) returns (r: Option<seq<Json>>)
    ensures r == Messages(es)
  {
    var messages: seq<Json> := [];
    for i := 0 to |es|
      invariant |messages| == i
      invariant forall m :: 0 <= m < i ==> !MessageThrows(es[m].1) && messages[m] == MessageOf(es[m].1)
    {
      var e := es[i].1;
      if e.Undefined? || e.Null? {
        assert MessageThrows(es[i].1);
        return None;
      }
      messages := messages + [MessageOf(e)];
    }
    assert Messages(es).Some?;
    assert forall m :: 0 <= m < |es| ==> Messages(es).value[m] == messages[m];
    assert Messages(es).value == messages;
    return Some(messages);
  }

  /** A validation error with an empty `errors` object gives the empty string. */
  lemma EmptyErrorsGiveEmptyText(error: Json)
    requires !HasCode(error, 11000) && Named(error, "ValidationError")
    requires Member(error, "errors") == Some(Obj([]))
    ensures Parse(error) == Str("")
  {
    assert ErrorEntries(error) == [];
    assert Messages([]) == Some([]);
  }

  /** One validation message comes back as the bare message text. */
  lemma OneMessage(error: Json, key: string, m: string)
    requires !HasCode(error, 11000) && Named(error, "ValidationError")
    requires Member(error, "errors") == Some(Obj([(key, Obj([("message", Str(m))]))]))
    ensures Parse(error) == Str(m)
  {
    var e := Obj([("message", Str(m))]);
    assert ErrorEntries(error) == [(key, e)];
    assert Get(e.fields, "message") == Some(Str(m));
    assert Messages([(key, e)]).value == [Str(m)];
    assert JoinItems([Str(m)], ", ") == m;
  }
}

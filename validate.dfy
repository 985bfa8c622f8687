/** `validate`: every schema violation of a protocol as a readable message.
    jsonschema's validator is not part of the model: what iterating its
    `iter_errors(data)` produces is an input, a sequence of events, each an error
    yielded or an exception raised. */
module Validate {
  import opened Runtime
  import opened Text
  import opened Json

  /** An element of a jsonschema error path: a property name or an array position. */
  datatype PathElement = Key(name: string) | Position(index: int)

  /** A jsonschema validation error: where in the document, and what is wrong. */
  datatype SchemaError = SchemaError(path: seq<PathElement>, message: string)

  /** One step of iterating over the validator's errors. */
  datatype Event = Yield(error: SchemaError) | Raise(exception: Exception)

  /** `str(p)` of a path element. */
  function ElementText(p: PathElement): string
  {
    match p
    case Key(name) => name
    case Position(index) => IntToString(index)
  }

  function ElementTexts(path: seq<PathElement>): (r: seq<string>)
    ensures |r| == |path| && forall k :: 0 <= k < |path| ==> r[k] == ElementText(path[k])
  {
    if |path| == 0 then [] else [ElementText(path[0])] + ElementTexts(path[1..])
  }

  /** The path of an error: "root" for the document itself, else the elements
      joined by " -> ". */
  function PathText(path: seq<PathElement>): string
  {
    if |path| == 0 then "root" else Join(ElementTexts(path), " -> ")
  }

  /** The message recorded for one error. */
  function Message(e: SchemaError): string
  {
    "Path '" + PathText(e.path) + "': " + e.message
  }

  /** The messages the loop collects: one per yielded error, in order, until an
      `AttributeError` ends the iteration quietly; any other exception escapes. */
  function Collected(events: seq<Event>): Result<seq<string>>
  {
    if |events| == 0 then Ok([])
    else
      match events[0]
      case Yield(e) => (var rest :- Collected(events[1..]); Ok([Message(e)] + rest))
      case Raise(x) => if x == AttributeError then Ok([]) else Err(x)
  }

  /** The errors yielded before the iteration first raises. */
  function Yielded(events: seq<Event>): (r: seq<SchemaError>)
    ensures |r| <= |events|
  {
    if |events| == 0 || events[0].Raise? then [] else [events[0].error] + Yielded(events[1..])
  }

  /** The exception that ends the iteration, if any. */
  function Stop(events: seq<Event>): Option<Exception>
  {
    if |events| == 0 then None
    else if events[0].Raise? then Some(events[0].exception)
    else Stop(events[1..])
  }

  /** The `(is_valid, errors)` pair `validate_with_all_errors` returns. */
  function Outcome(events: seq<Event>): Result<(bool, seq<string>)>
  {
    var errors :- Collected(events);
    Ok((|errors| == 0, errors))
  }

  /** The collected messages are exactly one message per error yielded before the
      first exception, in order; collecting fails only when that exception is not
      an `AttributeError`. */
  lemma {:induction false} CollectedYielded(events: seq<Event>)
    ensures Collected(events).Err? <==> Stop(events).Some? && Stop(events).value != AttributeError
    ensures Collected(events).Err? ==> Collected(events).error == Stop(events).value
    ensures Collected(events).Ok? ==>
              var errors := Collected(events).value;
              |errors| == |Yielded(events)|
              && forall k :: 0 <= k < |errors| ==> errors[k] == Message(Yielded(events)[k])
  {
    if |events| > 0 && events[0].Yield? {
      CollectedYielded(events[1..]);
    }
  }

  /** Without an exception every event is an error, and each gives a message. */
  lemma {:induction false} YieldedAll(events: seq<Event>)
    requires Stop(events).None?
    ensures |Yielded(events)| == |events|
    ensures forall k :: 0 <= k < |events| ==> events[k] == Yield(Yielded(events)[k])
  {
    if |events| > 0 {
      YieldedAll(events[1..]);
    }
  }

  /** The document is valid exactly when no error is collected. */
  lemma {:induction false} OutcomeValid(events: seq<Event>)
    ensures Outcome(events).Ok? ==> (Outcome(events).value.0 <==> Outcome(events).value.1 == [])
    ensures Outcome(events).Ok? ==> (Outcome(events).value.0 <==> Yielded(events) == [])
  {
    CollectedYielded(events);
  }

  /** A one-element path is that element's text. */
  lemma {:induction false} PathTextSingle(p: PathElement)
    ensures PathText([p]) == ElementText(p)
  {
  }

  /** Descending one level appends " -> " and the new element's text. */
  lemma {:induction false} PathTextExtend(path: seq<PathElement>, p: PathElement)
    requires path != []
    ensures PathText(path + [p]) == PathText(path) + " -> " + ElementText(p)
  {
    var texts := ElementTexts(path);
    assert ElementTexts(path + [p]) == texts + [ElementText(p)];
    JoinSnoc(texts, ElementText(p), " -> ");
  }

  /** `Ok(done + rest)` when `r` is `Ok(rest)`, the same error otherwise. */
  function Then(done: seq<string>, r: Result<seq<string>>): Result<seq<string>>
  {
    match r
    case Ok(rest) => Ok(done + rest)
    case Err(e) => Err(e)
  }

  /** `SchemaValidator`: the schema a protocol is checked against. */
  class SchemaValidator {
    var schema: JSON

    constructor(schema: JSON)
      ensures this.schema == schema
    {
      this.schema := schema;
    }

    /** `validate_with_all_errors(data)`, where `events` is what iterating
        `iter_errors(data)` produces. */
    method ValidateWithAllErrors(events: seq<Event>) returns (r: Result<(bool, seq<string>)>)
      ensures r == Outcome(events)
    {
      var errors: seq<string> := [];
      var i := 0;
      assert events[0..] == events;
      assert Then([], Collected(events)) == Collected(events) by {
        if Collected(events).Ok? {
          assert [] + Collected(events).value == Collected(events).value;
        }
      }
      while i < |events|
        invariant 0 <= i <= |events|
        invariant Collected(events) == Then(errors, Collected(events[i..]))
      {
        assert events[i..][0] == events[i] && events[i..][1..] == events[i + 1..];
        match events[i] {
          case Yield(e) =>
            ThenMessage(errors, Message(e), Collected(events[i + 1..]));
            errors := errors + [Message(e)];
          case Raise(x) =>
            if x == AttributeError {
              assert errors + [] == errors;
              return Ok((|errors| == 0, errors));
            }
            return Err(x);
        }
        i := i + 1;
      }
      assert errors + [] == errors;
      return Ok((|errors| == 0, errors));
    }
  }

  lemma {:induction false} ThenMessage(done: seq<string>, m: string, r: Result<seq<string>>)
    ensures Then(done, match r case Ok(rest) => Ok([m] + rest) case Err(e) => Err(e)) == Then(done + [m], r)
  {
    if r.Ok? {
      assert done + ([m] + r.value) == (done + [m]) + r.value;
    }
  }

  /** `validate(protocol, verbose)`: the validator's pair, whatever `verbose` is;
      `schema` is the schema file's content. */
  method Validate(schema: JSON, events: seq<Event>, verbose: bool) returns (r: Result<(bool, seq<string>)>)
    ensures r == Outcome(events)
  {
    var validator := new SchemaValidator(schema);
    r := validator.ValidateWithAllErrors(events);
  }
}

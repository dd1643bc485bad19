/**
 `bindBodyParser` (index.js:18-36): the request body is accumulated chunk by
 chunk into a string buffer; when the stream ends, the `end` handler runs three
 settling steps in order, and only the first one settles the promise. A
 non-empty buffer is rejected with no reason at line 27 (`reject()` does not
 return, so `JSON.parse` still runs, but its result or its error no longer
 matters); an empty buffer makes `JSON.parse("")` throw, and the `catch`
 rejects with that error.
 */
module BodyParser {
  import opened Wrappers

  /** Why the body promise was rejected. */
  datatype Rejection =
    | NoReason          // `reject()` at index.js:27: the rejection value is undefined
    | JsonSyntaxError   // `JSON.parse` threw, caught at index.js:31-32

  /**
   What awaiting the body gives: a parsed JSON value, of which only `body?.model`
   (coerced to a property key) matters, or a rejection.
   */
  datatype BodyOutcome = Parsed(model: Option<string>) | Rejected(reason: Rejection)

  /** The body promise: not settled yet, or settled for good. */
  datatype Promise = Pending | Settled(outcome: BodyOutcome)

  /** A call of `resolve` or `reject`: it settles a pending promise and does nothing to a settled one. */
  function SettleOnce(p: Promise, o: BodyOutcome): (q: Promise)
    ensures q.Settled?
    ensures p.Settled? ==> q == p
    ensures p.Pending? ==> q.outcome == o
  {
    if p.Pending? then Settled(o) else p
  }

  /** The buffer after appending each chunk in turn (`buffer += chunk.toString()`). */
  function Concat(chunks: seq<string>): (buffer: string)
    ensures forall i :: 0 <= i < |chunks| ==> |chunks[i]| <= |buffer|
  {
    if chunks == [] then "" else Concat(chunks[..|chunks| - 1]) + chunks[|chunks| - 1]
  }

  /**
   The `end` handler (index.js:24-34) on the whole buffer, step by step. `parse`
   is what `JSON.parse(buffer)` gives: `None` when it throws, `Some(model)` with
   the parsed value's `model` when it returns. Parsing the empty string always
   throws, which is what the precondition says about `parse`.
   */
  function EndHandler(buffer: string, parse: Option<Option<string>>): (p: Promise)
    requires buffer == "" ==> parse.None?
    ensures p.Settled?
  {
    var afterCheck := if buffer != "" then SettleOnce(Pending, Rejected(NoReason)) else Pending;
    match parse
    case Some(model) => SettleOnce(afterCheck, Parsed(model))         // resolve(JSON.parse(buffer))
    case None => SettleOnce(afterCheck, Rejected(JsonSyntaxError))    // catch (error) { reject(error) }
  }

  /** The outcome the promise settles on, given the whole buffer. */
  function Settle(buffer: string): (r: BodyOutcome)
    ensures r.Rejected?
    ensures r.reason == NoReason <==> buffer != ""
  {
    if buffer != "" then Rejected(NoReason) else Rejected(JsonSyntaxError)
  }

  /** Whatever `JSON.parse` does with a non-empty buffer, the handler settles on `Settle`. */
  lemma EndHandlerSettles(buffer: string, parse: Option<Option<string>>)
    requires buffer == "" ==> parse.None?
    ensures EndHandler(buffer, parse) == Settled(Settle(buffer))
  {
  }

  /** The `data` handler appends every chunk, the `end` handler settles on the result. */
  method ReadBody(chunks: seq<string>, parse: Option<Option<string>>) returns (r: BodyOutcome)
    requires Concat(chunks) == "" ==> parse.None?
    ensures r == EndHandler(Concat(chunks), parse).outcome
    ensures r == Settle(Concat(chunks))
    ensures r.Rejected?
    ensures r.reason == JsonSyntaxError <==> forall i :: 0 <= i < |chunks| ==> chunks[i] == ""
  {
    var buffer := "";
    var k := 0;
    while k < |chunks|
      invariant 0 <= k <= |chunks|
      invariant buffer == Concat(chunks[..k])
    {
      assert chunks[..k + 1][..k] == chunks[..k];
      buffer := buffer + chunks[k];
      k := k + 1;
    }
    assert chunks[..k] == chunks;
    var settled := EndHandler(buffer, parse);
    r := settled.outcome;
    EndHandlerSettles(buffer, parse);
    ConcatEmpty(chunks);
  }

  /** The buffer is empty exactly when every chunk is. */
  lemma {:induction false} ConcatEmpty(chunks: seq<string>)
    ensures Concat(chunks) == "" <==> forall i :: 0 <= i < |chunks| ==> chunks[i] == ""
  {
    if chunks != [] {
      var init := chunks[..|chunks| - 1];
      ConcatEmpty(init);
      assert forall i :: 0 <= i < |init| ==> init[i] == chunks[i];
      if Concat(chunks) == "" {
        assert Concat(init) == "" && chunks[|chunks| - 1] == "";
      }
    }
  }

  /**
   Whatever arrives and whatever `JSON.parse` makes of it, the body reader never
   yields a parsed value; it rejects with no reason exactly when some chunk is non-empty.
   */
  lemma NeverParsed(chunks: seq<string>, parse: Option<Option<string>>)
    requires Concat(chunks) == "" ==> parse.None?
    ensures !EndHandler(Concat(chunks), parse).outcome.Parsed?
    ensures EndHandler(Concat(chunks), parse).outcome == Rejected(NoReason) <==>
            exists i :: 0 <= i < |chunks| && chunks[i] != ""
  {
    EndHandlerSettles(Concat(chunks), parse);
    ConcatEmpty(chunks);
  }
}

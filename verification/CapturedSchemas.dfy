/** A body's payloads and the schemas stored from them: what is stored does not depend on how the body
    was cut up. parse is what JSON decoding makes of a payload. */
module CapturedSchemas {
  import opened Wrappers
  import opened WireSchemas
  import opened SseCapture

  /** The store once the payloads were looked at, in order. */
  function Stored(s: Store, parse: string -> Option<Response>, events: seq<string>): Store {
    if events == [] then s
    else Captured(Stored(s, parse, events[..|events| - 1]), parse(events[|events| - 1]))
  }

  /** What one payload makes of the store. */
  function Alone(s: Store, parse: string -> Option<Response>): string -> Store {
    (payload: string) => Captured(s, parse(payload))
  }

  lemma StoredOne(s: Store, parse: string -> Option<Response>, payload: string)
    ensures Stored(s, parse, [payload]) == Captured(s, parse(payload))
  {
    assert [payload][..0] == [];
    assert Stored(s, parse, []) == s;
  }

  ghost predicate StoresAlike(s: Store, parse: string -> Option<Response>, valid: string -> bool, text: string) {
    forall pieces, last {:trigger ReadBody(false, valid, pieces, last)} ::
      Concat(pieces) + last == text
      ==> Stored(s, parse, ReadBody(false, valid, pieces, last).events) == Captured(s, parse(text))
  }

  /** A JSON body stores the same in every cutting exactly when no beginning of it is a JSON value that
      stores something else. */
  lemma JsonStoresAlikeExactly(s: Store, parse: string -> Option<Response>, valid: string -> bool, text: string)
    ensures StoresAlike(s, parse, valid, text) <==> BeginsAlike(valid, Alone(s, parse), text)
  {
    var means := Alone(s, parse);
    forall pieces, last | Concat(pieces) + last == text
      ensures var events := ReadBody(false, valid, pieces, last).events;
              |events| == 1 && Stored(s, parse, events) == means(events[0])
    {
      JsonSoFar(valid, text, pieces, last);
      var events := ReadBody(false, valid, pieces, last).events;
      assert events == [events[0]];
      StoredOne(s, parse, events[0]);
    }
    JsonMeansAlikeExactly(valid, means, text);
    assert StoresAlike(s, parse, valid, text) <==> MeansAlike(valid, means, text);
  }

  /** A response in a JSON body is an object, and stores the same in every cutting. */
  lemma ObjectStoresAlike(s: Store, parse: string -> Option<Response>, valid: string -> bool, text: string)
    requires JsonLike(valid) && valid(text) && Object(text)
    requires forall a, b :: valid(a) && valid(b) && TrimRight(a) == TrimRight(b) ==> parse(a) == parse(b)
    ensures StoresAlike(s, parse, valid, text)
  {
    forall k | 0 <= k < |text| && valid(text[..k]) ensures Alone(s, parse)(text[..k]) == Alone(s, parse)(text) {
      BeginningIsObject(valid, text, k);
    }
    JsonStoresAlikeExactly(s, parse, valid, text);
  }

  function Answered(s: Store, responses: seq<Response>): Store {
    if responses == [] then s
    else Captured(Answered(s, responses[..|responses| - 1]), Some(responses[|responses| - 1]))
  }

  ghost predicate Reads(parse: string -> Option<Response>, payloads: seq<string>, responses: seq<Response>) {
    |payloads| == |responses| && forall i :: 0 <= i < |payloads| ==> parse(payloads[i]) == Some(responses[i])
  }

  /** The stores before, between and after the responses, each of which leaves what a response leaves. */
  ghost predicate Absorbs(stores: seq<Store>, responses: seq<Response>) {
    && |stores| == |responses| + 1
    && forall i :: 0 <= i < |responses| ==> Absorbed(stores[i], Some(responses[i]), stores[i + 1])
  }

  lemma {:induction false} AnswersAbsorbed(s: Store, responses: seq<Response>) returns (stores: seq<Store>)
    ensures Absorbs(stores, responses) && stores[0] == s && stores[|responses|] == Answered(s, responses)
  {
    if responses == [] {
      stores := [s];
    } else {
      var n := |responses| - 1;
      var front := AnswersAbsorbed(s, responses[..n]);
      AbsorbedExactly(Answered(s, responses[..n]), Some(responses[n]));
      stores := front + [Answered(s, responses)];
    }
  }

  /** Responses written as an event stream, among other events, are stored as if each had come by itself, in
      order, in every cutting of the stream. */
  lemma StreamStores(s: Store, parse: string -> Option<Response>, valid: string -> bool, events: seq<Event>,
                     open: Event, cr: bool, cut: bool, responses: seq<Response>, pieces: seq<string>, last: string)
    requires Sendable(open) && forall i :: 0 <= i < |events| ==> Sendable(events[i])
    requires Concat(pieces) + last + (if cut then "\n" else "") == Stream(events, cr) + Fields(open, cr)
    requires Reads(parse, Heard(events + [open]), responses)
    ensures exists stores :: Absorbs(stores, responses) && stores[0] == s
                             && stores[|responses|] == Stored(s, parse, ReadBody(true, valid, pieces, last).events)
  {
    var stores := AnswersAbsorbed(s, responses);
    StreamDelivers(valid, events, open, cr, cut, pieces, last);
    ReadStores(s, parse, Heard(events + [open]), responses);
  }

  lemma {:induction false} ReadStores(s: Store, parse: string -> Option<Response>, payloads: seq<string>,
                                      responses: seq<Response>)
    requires Reads(parse, payloads, responses)
    ensures Stored(s, parse, payloads) == Answered(s, responses)
  {
    if payloads != [] {
      var n := |payloads| - 1;
      ReadStores(s, parse, payloads[..n], responses[..n]);
    }
  }
}

/** The subscriber's decoder: a snapshot first, then consecutive events. */
module Subscription {
  import opened Options

  const U64_MAX: nat := 0xffff_ffff_ffff_ffff

  type U64 = x: nat | x <= U64_MAX

  /** An optional member of a response. */
  datatype Part<+T> = Absent | Invalid | Present(value: T)

  /** A frame after JSON decoding; `Malformed` is anything refused before the kind
      of envelope matters. `result` carries `next_seq`, `valid` says that the data
      of an event decodes. */
  datatype Envelope =
    | Malformed
    | Response(id: U64, ok: bool, result: Part<U64>, error: Part<string>)
    | Event(number: U64, valid: bool)

  datatype Message = Snapshot(nextSeq: U64) | Accepted(number: U64)

  /** The message a frame yields to a decoder that expects `expected`. */
  function Decoded(requestId: U64, expected: Option<U64>, envelope: Envelope): Option<Message> {
    match (expected, envelope)
    case (None, Response(id, ok, result, error)) =>
      if id == requestId && ok && result.Present? && error.Absent? then Some(Snapshot(result.value)) else None
    case (Some(n), Event(number, valid)) => if number == n && valid && n < U64_MAX then Some(Accepted(number)) else None
    case (_, _) => None
  }

  /** A snapshot that names the first event, and the events from there on without
      gap, repetition or reordering. */
  predicate IsStream(messages: seq<Message>) {
    messages != [] ==>
      && messages[0].Snapshot?
      && forall i {:trigger messages[i]} :: 1 <= i < |messages| ==>
           messages[i].Accepted? && messages[i].number == messages[0].nextSeq + i - 1
  }

  predicate Expects(messages: seq<Message>, expected: Option<U64>) {
    && IsStream(messages)
    && (messages == [] <==> expected == None)
    && (messages != [] ==> expected.value == messages[0].nextSeq + |messages| - 1)
  }

  /** What a server sends that answers the request and then every event from there. */
  predicate Orderly(id: U64, next: U64, envelopes: seq<Envelope>) {
    && (envelopes != [] ==> envelopes[0] == Response(id, true, Present(next), Absent))
    && next + |envelopes| <= U64_MAX
    && forall i :: 1 <= i < |envelopes| ==> envelopes[i].Event? && envelopes[i] == Event(next + i - 1, true)
  }

  class SubscriptionDecoder {
    const requestId: U64
    var expectedSeq: Option<U64>

    constructor (id: U64)
      ensures requestId == id && expectedSeq == None
    {
      requestId, expectedSeq := id, None;
    }

    /** A refused frame leaves the decoder as it was. */
    method Decode(envelope: Envelope) returns (message: Option<Message>)
      modifies `expectedSeq
      ensures message == Decoded(requestId, old(expectedSeq), envelope)
      ensures expectedSeq ==
        match message
        case None => old(expectedSeq)
        case Some(Snapshot(next)) => Some(next)
        case Some(Accepted(number)) => Some(number + 1)
      ensures forall next: U64 :: message == Some(Snapshot(next)) <==>
        old(expectedSeq) == None && envelope == Response(requestId, true, Present(next), Absent)
      ensures forall number: U64 :: message == Some(Accepted(number)) <==>
        old(expectedSeq) == Some(number) && envelope == Event(number, true) && number < U64_MAX
    {
      match envelope
      case Malformed => return None;
      case Response(id, ok, result, error) =>
        if expectedSeq.Some? || id != requestId || result.Invalid? || error.Invalid? { return None; }
        if !ok || error.Present? || result.Absent? { return None; }
        expectedSeq := Some(result.value);
        return Some(Snapshot(result.value));
      case Event(number, valid) =>
        if expectedSeq.None? || number != expectedSeq.value || !valid || number == U64_MAX { return None; }
        expectedSeq := Some(number + 1);
        return Some(Accepted(number));
    }

    /** Whatever frames arrive, what is accepted is one gapless stream. */
    method DecodeAll(envelopes: seq<Envelope>) returns (messages: seq<Message>)
      requires expectedSeq == None
      modifies `expectedSeq
      ensures Expects(messages, expectedSeq)
      ensures forall next: U64 :: Orderly(requestId, next, envelopes) ==>
        |messages| == |envelopes| && (messages != [] ==> messages[0] == Snapshot(next))
    {
      messages := [];
      for i := 0 to |envelopes|
        invariant Expects(messages, expectedSeq)
        invariant forall next: U64 :: Orderly(requestId, next, envelopes) ==>
          |messages| == i && (messages != [] ==> messages[0] == Snapshot(next))
      {
        var message := Decode(envelopes[i]);
        if message.Some? { messages := messages + [message.value]; }
      }
    }
  }
}

/** The tag under any sequence of commands, link losses and changes of its settings. */
module HceRuns {
  import opened Options
  import opened HceTag

  datatype Event =
    | Command(apdu: Bytes)
    | Deactivated
    | SetOffer(offer: Option<Bytes>)
    | SetAccepting(accepting: bool)

  /** `wire` is the transcript, every command with the tag's answer; `inbox` the payloads delivered. */
  datatype Tag = Tag(offer: Option<Bytes>, accepting: bool, draft: Draft, wire: seq<(Bytes, Bytes)>, inbox: seq<Bytes>)

  const FRESH: Tag := Tag(None, false, Idle, [], [])

  function Step(tag: Tag, e: Event): Tag
  {
    match e
    case Command(apdu) =>
      var r := Process(tag.offer, tag.accepting, tag.draft, apdu);
      Tag(tag.offer, tag.accepting, r.draft, tag.wire + [(apdu, r.response)],
          if r.written.Some? then tag.inbox + [r.written.value] else tag.inbox)
    case Deactivated => tag.(draft := Idle)
    case SetOffer(offer) => tag.(offer := offer)
    case SetAccepting(accepting) => tag.(accepting := accepting)
  }

  function Run(tag: Tag, es: seq<Event>): Tag
  {
    if es == [] then tag else Step(Run(tag, es[..|es| - 1]), es[|es| - 1])
  }

  // ---- What the wire says, read without looking into the tag -------------

  /** A declared length and the chunks answered 90 00 since its header chunk. */
  datatype Accepted = Accepted(total: nat, bytes: Bytes)

  predicate IsAcceptedPut(exchange: (Bytes, Bytes))
  {
    |exchange.0| >= 5 && exchange.0[1] == INS_PUT_DATA && exchange.1 == SW_OK
    && |exchange.0| >= 5 + exchange.0[4] as nat
  }

  function ChunkOf(apdu: Bytes): Bytes
    requires |apdu| >= 5 && |apdu| >= 5 + apdu[4] as nat
  {
    apdu[5..5 + apdu[4] as nat]
  }

  function Hear(heard: Accepted, exchange: (Bytes, Bytes)): Accepted
  {
    if !IsAcceptedPut(exchange) then heard
    else
      var chunk := ChunkOf(exchange.0);
      if U16(exchange.0[2], exchange.0[3]) == 0 && |chunk| >= 2
      then Accepted(U16(chunk[0], chunk[1]), chunk[2..])
      else Accepted(heard.total, heard.bytes + chunk)
  }

  function OnWire(wire: seq<(Bytes, Bytes)>): Accepted
  {
    if wire == [] then Accepted(0, []) else Hear(OnWire(wire[..|wire| - 1]), wire[|wire| - 1])
  }

  lemma WireAppend(wire: seq<(Bytes, Bytes)>, exchange: (Bytes, Bytes))
    ensures OnWire(wire + [exchange]) == Hear(OnWire(wire), exchange)
  {
  }

  /** The payloads the wire says were completed, in order. */
  function CompletedOnWire(wire: seq<(Bytes, Bytes)>): seq<Bytes>
  {
    if wire == [] then []
    else
      var before, last := wire[..|wire| - 1], wire[|wire| - 1];
      var heard := OnWire(wire);
      if IsAcceptedPut(last) && |heard.bytes| == heard.total then CompletedOnWire(before) + [heard.bytes]
      else CompletedOnWire(before)
  }

  ghost predicate InStep(tag: Tag)
  {
    && (tag.draft.Receiving? ==>
          && |tag.draft.got| < tag.draft.total <= MAX_PAYLOAD
          && OnWire(tag.wire) == Accepted(tag.draft.total, tag.draft.got))
    && tag.inbox == CompletedOnWire(tag.wire)
  }

  /** A PUT answered 90 00 either completes its draft or extends it, and says so on the wire. */
  lemma PutInStep(accepting: bool, draft: Draft, apdu: Bytes, heard: Accepted)
    requires |apdu| >= 5 && apdu[1] == INS_PUT_DATA
    requires draft.Receiving? ==> |draft.got| < draft.total <= MAX_PAYLOAD && heard == Accepted(draft.total, draft.got)
    ensures var r := PutData(accepting, draft, apdu);
            var now := Hear(heard, (apdu, r.response));
            && (r.draft.Receiving? ==> |r.draft.got| < r.draft.total <= MAX_PAYLOAD && now == Accepted(r.draft.total, r.draft.got))
            && (r.written.Some? <==> IsAcceptedPut((apdu, r.response)) && |now.bytes| == now.total)
            && (r.written.Some? ==> r.written.value == now.bytes)
  {
    assert SW_OK[0] != SW_NOT_ACCEPTING[0] && SW_OK[0] != SW_WRONG_LENGTH[0] && SW_OK[0] != SW_WRONG_OFFSET[0];
    assert draft.Receiving? ==> draft.got + [] == draft.got;
  }

  lemma StepInStep(tag: Tag, e: Event)
    requires InStep(tag)
    ensures InStep(Step(tag, e))
  {
    if e.Command? {
      var r := Process(tag.offer, tag.accepting, tag.draft, e.apdu);
      WireAppend(tag.wire, (e.apdu, r.response));
      assert (tag.wire + [(e.apdu, r.response)])[..|tag.wire|] == tag.wire;
      if |e.apdu| >= 5 && e.apdu[1] == INS_PUT_DATA {
        PutInStep(tag.accepting, tag.draft, e.apdu, OnWire(tag.wire));
      }
    }
  }

  /**
   * For any sequence of commands, resets and setting changes: a live draft is shorter than
   * its declared total, which is at most 4096, and is exactly the concatenation of the
   * chunks accepted since its header chunk; and the payloads delivered are exactly those the
   * wire shows completed.
   */
  lemma {:induction false} DeliveredWhatWireShows(es: seq<Event>)
    ensures InStep(Run(FRESH, es))
    ensures var tag := Run(FRESH, es);
            && (tag.draft.Receiving? ==> 0 <= |tag.draft.got| < tag.draft.total <= 4096)
            && tag.inbox == CompletedOnWire(tag.wire)
  {
    if es != [] {
      DeliveredWhatWireShows(es[..|es| - 1]);
      StepInStep(Run(FRESH, es[..|es| - 1]), es[|es| - 1]);
    }
  }
}

/** Whole transfers over the tag: reading its offer and writing a payload to it. */
module HceTransfer {
  import opened Options
  import opened HceTag

  /** The two bytes of an offset or a length. */
  ghost function BigEndian(n: nat): (b: (byte, byte))
    requires n < 65536
    ensures U16(b.0, b.1) == n
  {
    assert U16(n / 256, n % 256) == n;
    var hi: byte, lo: byte :| U16(hi, lo) == n;
    (hi, lo)
  }

  method EncodeU16(n: nat) returns (hi: byte, lo: byte)
    requires n < 65536
    ensures U16(hi, lo) == n && BigEndian(n) == (hi, lo)
  {
    hi, lo := n / 256 % 256, n % 256;
  }

  function PutApdu(offset: (byte, byte), data: Bytes): Bytes
    requires |data| < 256
  {
    [0x00, INS_PUT_DATA, offset.0, offset.1, |data|] + data
  }

  /** The data field of a chunk: the first one carries the payload's length. */
  function Framed(first: bool, total: (byte, byte), chunk: Bytes): Bytes
  {
    if first then [total.0, total.1] + chunk else chunk
  }

  // ---- Writing -----------------------------------------------------------

  function Flatten(chunks: seq<Bytes>): Bytes
  {
    if chunks == [] then [] else chunks[0] + Flatten(chunks[1..])
  }

  /** The longest chunk one command carries: the first one shares its data field with the length. */
  function Room(offset: nat): nat
  {
    if offset == 0 then 253 else 255
  }

  ghost function PutOf(total: nat, offset: nat, chunk: Bytes): Bytes
    requires total < 65536 && offset < 65536 && |chunk| <= Room(offset)
  {
    PutApdu(BigEndian(offset), Framed(offset == 0, BigEndian(total), chunk))
  }

  predicate Sendable(total: nat, offset: nat, chunks: seq<Bytes>)
  {
    && offset + |Flatten(chunks)| == total <= MAX_PAYLOAD
    && (forall i :: 0 <= i < |chunks| ==> 0 < |chunks[i]| <= Room(offset + i))
  }

  /** What a writer sending a list of chunks hears and causes. */
  datatype Sending = Sending(draft: Draft, allOk: bool, written: seq<Bytes>)

  ghost function Send(draft: Draft, total: nat, offset: nat, chunks: seq<Bytes>): Sending
    requires Sendable(total, offset, chunks)
    decreases |chunks|
  {
    if chunks == [] then Sending(draft, true, [])
    else
      var r := Process(None, true, draft, PutOf(total, offset, chunks[0]));
      var rest := Send(r.draft, total, offset + |chunks[0]|, chunks[1..]);
      Sending(rest.draft, r.response == SW_OK && rest.allOk, (if r.written.Some? then [r.written.value] else []) + rest.written)
  }

  /** The draft a chunk of this payload must find: its own bytes so far, or anything before the first. */
  predicate ReadyFor(draft: Draft, total: nat, sent: Bytes)
  {
    |sent| > 0 ==> draft == Receiving(total, sent)
  }

  function Taken(total: nat, got: Bytes): Reaction
  {
    if |got| == total then Reaction(Idle, SW_OK, false, Some(got)) else Reaction(Receiving(total, got), SW_OK, false, None)
  }

  lemma FirstChunkIsTaken(draft: Draft, apdu: Bytes, chunk: Bytes)
    requires |apdu| == 7 + |chunk| && apdu[4] == 2 + |chunk| && apdu[7..] == chunk
    requires U16(apdu[2], apdu[3]) == 0
    requires 0 < |chunk| <= U16(apdu[5], apdu[6]) <= MAX_PAYLOAD
    ensures PutData(true, draft, apdu) == Taken(U16(apdu[5], apdu[6]), chunk)
  {
    var data := apdu[5..5 + (2 + |chunk|)];
    assert data[2..] == chunk && [] + chunk == chunk;
  }

  lemma LaterChunkIsTaken(total: nat, sent: Bytes, apdu: Bytes, chunk: Bytes)
    requires |apdu| == 5 + |chunk| && apdu[4] == |chunk| && apdu[5..] == chunk
    requires U16(apdu[2], apdu[3]) == |sent| > 0
    requires |sent| + |chunk| <= total
    ensures PutData(true, Receiving(total, sent), apdu) == Taken(total, sent + chunk)
  {
    assert apdu[5..5 + |chunk|] == chunk;
  }

  lemma PutDispatches(offer: Option<Bytes>, accepting: bool, draft: Draft, apdu: Bytes)
    requires |apdu| >= 5 && apdu[1] == INS_PUT_DATA
    ensures Process(offer, accepting, draft, apdu) == PutData(accepting, draft, apdu)
  {
  }

  lemma PutIsTaken(draft: Draft, total: nat, sent: Bytes, chunk: Bytes)
    requires 0 < |chunk| <= Room(|sent|) && |sent| + |chunk| <= total <= MAX_PAYLOAD && ReadyFor(draft, total, sent)
    ensures |PutOf(total, |sent|, chunk)| >= 5 && PutOf(total, |sent|, chunk)[1] == INS_PUT_DATA
    ensures PutData(true, draft, PutOf(total, |sent|, chunk)) == Taken(total, sent + chunk)
  {
    var apdu := PutOf(total, |sent|, chunk);
    if |sent| == 0 {
      assert apdu[7..] == chunk;
      FirstChunkIsTaken(draft, apdu, chunk);
      assert sent + chunk == chunk;
    } else {
      assert apdu[5..] == chunk;
      LaterChunkIsTaken(total, sent, apdu, chunk);
    }
  }

  /** One chunk that fits is appended, from any draft if it is the first. */
  lemma ChunkIsTaken(offer: Option<Bytes>, draft: Draft, total: nat, sent: Bytes, chunk: Bytes)
    requires 0 < |chunk| <= Room(|sent|) && |sent| + |chunk| <= total <= MAX_PAYLOAD && ReadyFor(draft, total, sent)
    ensures Process(offer, true, draft, PutOf(total, |sent|, chunk)) == Taken(total, sent + chunk)
  {
    PutIsTaken(draft, total, sent, chunk);
    PutDispatches(offer, true, draft, PutOf(total, |sent|, chunk));
  }

  lemma SendableRest(total: nat, offset: nat, chunks: seq<Bytes>)
    requires Sendable(total, offset, chunks) && chunks != []
    ensures Sendable(total, offset + |chunks[0]|, chunks[1..])
    ensures chunks[1..] != [] ==> offset + |chunks[0]| < total
    ensures chunks[1..] == [] ==> offset + |chunks[0]| == total && Flatten(chunks) == chunks[0]
  {
  }

  lemma SendOne(draft: Draft, total: nat, sent: Bytes, chunks: seq<Bytes>)
    requires Sendable(total, |sent|, chunks) && chunks != [] && ReadyFor(draft, total, sent)
    ensures |sent| + |chunks[0]| <= total && Sendable(total, |sent + chunks[0]|, chunks[1..])
    ensures var r := Taken(total, sent + chunks[0]);
            var rest := Send(r.draft, total, |sent + chunks[0]|, chunks[1..]);
            Send(draft, total, |sent|, chunks)
            == Sending(rest.draft, rest.allOk, (if r.written.Some? then [r.written.value] else []) + rest.written)
  {
    SendableRest(total, |sent|, chunks);
    ChunkIsTaken(None, draft, total, sent, chunks[0]);
  }

  lemma {:induction false} SendFrom(draft: Draft, total: nat, sent: Bytes, chunks: seq<Bytes>)
    requires Sendable(total, |sent|, chunks) && chunks != [] && ReadyFor(draft, total, sent)
    ensures Send(draft, total, |sent|, chunks) == Sending(Idle, true, [sent + Flatten(chunks)])
    decreases |chunks|
  {
    SendOne(draft, total, sent, chunks);
    SendableRest(total, |sent|, chunks);
    if chunks[1..] != [] {
      SendFrom(Receiving(total, sent + chunks[0]), total, sent + chunks[0], chunks[1..]);
      assert sent + chunks[0] + Flatten(chunks[1..]) == sent + Flatten(chunks);
    }
  }

  /**
   * Write round trip: whatever the tag was doing before, a payload of 1 to 4096 bytes cut
   * into any non-empty chunks that fit a command is accepted chunk by chunk and delivered once, byte for byte.
   */
  lemma WriteRoundTrip(draft: Draft, chunks: seq<Bytes>)
    requires 1 <= |Flatten(chunks)| <= MAX_PAYLOAD
    requires forall i :: 0 <= i < |chunks| ==> 0 < |chunks[i]| <= Room(i)
    ensures Send(draft, |Flatten(chunks)|, 0, chunks) == Sending(Idle, true, [Flatten(chunks)])
  {
    SendFrom(draft, |Flatten(chunks)|, [], chunks);
    assert [] + Flatten(chunks) == Flatten(chunks);
  }

  // ---- The reader phone's two loops --------------------------------------

  predicate StatusOk(r: Bytes)
  {
    |r| >= 2 && r[|r| - 2..] == SW_OK
  }

  lemma GetReply(payload: Bytes, draft: Draft, apdu: Bytes)
    requires |apdu| == 5 && U16(apdu[2], apdu[3]) <= |payload| < 65536
    ensures var offset := U16(apdu[2], apdu[3]);
            var end := Min(offset + CHUNK, |payload|);
            var r := GetData(Some(payload), draft, apdu);
            && |r.response| == 4 + (end - offset)
            && U16(r.response[0], r.response[1]) == |payload|
            && r.response[2..|r.response| - 2] == payload[offset..end]
            && StatusOk(r.response)
            && r.read == (end == |payload|)
            && r.draft == draft
  {
  }

  /** One GET DATA: the payload's length and up to 200 bytes of it from `offset` on. */
  method Get(tag: HceService, offset: nat) returns (response: Bytes, read: bool)
    requires tag.Valid() && offset < 65536
    modifies tag, tag.incoming
    ensures tag.Valid() && tag.offer == old(tag.offer) && tag.acceptWrites == old(tag.acceptWrites)
    ensures tag.incoming == null || tag.incoming == old(tag.incoming) || fresh(tag.incoming)
    ensures tag.offer.None? ==> response == SW_NO_DATA && !read
    ensures tag.offer.Some? && offset <= |tag.offer.value| < 65536 ==>
              var payload := tag.offer.value;
              var end := Min(offset + CHUNK, |payload|);
              && |response| == 4 + (end - offset)
              && U16(response[0], response[1]) == |payload|
              && response[2..|response| - 2] == payload[offset..end]
              && StatusOk(response)
              && read == (end == |payload|)
  {
    var hi, lo := EncodeU16(offset);
    var apdu: Bytes := [0x00, INS_GET_DATA, hi, lo, 0x00];
    if tag.offer.Some? && offset <= |tag.offer.value| < 65536 {
      GetReply(tag.offer.value, tag.Pending(), apdu);
    }
    var written;
    response, read, written := tag.ProcessCommandApdu(apdu);
  }

  /**
   * Reads the tag's whole offer. `cap` is the largest payload the reader takes; `served`
   * counts how often the tag reported its offer as read.
   */
  method ReadOffer(tag: HceService, cap: nat) returns (peer: Option<Bytes>, served: nat)
    requires tag.Valid() && cap < 65536
    requires tag.offer.Some? ==> |tag.offer.value| < 65536
    modifies tag, tag.incoming
    ensures tag.Valid() && tag.offer == old(tag.offer)
    ensures peer == if tag.offer.Some? && 0 < |tag.offer.value| <= cap then tag.offer else None
    ensures peer.Some? ==> served == 1
  {
    var response, read := Get(tag, 0);
    served := if read then 1 else 0;
    if response == SW_NO_DATA {
      return None, served;
    }
    if !StatusOk(response) || |response| < 4 {
      return None, served;
    }
    ghost var payload := tag.offer.value;
    var total := U16(response[0], response[1]);
    if total == 0 || total > cap {
      return None, served;
    }
    var buffer := response[2..|response| - 2];
    while |buffer| < total
      invariant tag.Valid() && tag.offer == old(tag.offer) == Some(payload)
      invariant tag.incoming == null || tag.incoming == old(tag.incoming) || fresh(tag.incoming)
      invariant |buffer| <= total == |payload| && buffer == payload[..|buffer|]
      invariant served == if |buffer| == total then 1 else 0
      decreases total - |buffer|
    {
      response, read := Get(tag, |buffer|);
      served := served + if read then 1 else 0;
      if !StatusOk(response) || |response| < 5 {
        return None, served;
      }
      if U16(response[0], response[1]) != total {
        return None, served;
      }
      buffer := buffer + response[2..|response| - 2];
    }
    assert payload[..|payload|] == payload;
    return Some(buffer), served;
  }

  /** One PUT DATA: the next chunk of a payload of `total` bytes, after `sent`. */
  method Put(tag: HceService, total: nat, ghost sent: Bytes, offset: nat, chunk: Bytes)
    returns (response: Bytes, inbox: seq<Bytes>)
    requires tag.Valid() && tag.acceptWrites
    requires offset == |sent| && 0 < |chunk| <= CHUNK && |sent| + |chunk| <= total <= MAX_PAYLOAD
    requires ReadyFor(tag.Pending(), total, sent)
    modifies tag, tag.incoming
    ensures tag.Valid() && tag.acceptWrites
    ensures tag.incoming == null || tag.incoming == old(tag.incoming) || fresh(tag.incoming)
    ensures response == SW_OK
    ensures var r := Taken(total, sent + chunk);
            tag.Pending() == r.draft && inbox == if r.written.Some? then [r.written.value] else []
  {
    var offsetHi, offsetLo := EncodeU16(offset);
    var totalHi, totalLo := EncodeU16(total);
    var data := Framed(offset == 0, (totalHi, totalLo), chunk);
    var apdu := PutApdu((offsetHi, offsetLo), data);
    ChunkIsTaken(tag.offer, tag.Pending(), total, sent, chunk);
    assert apdu == PutOf(total, |sent|, chunk);
    var read, written;
    response, read, written := tag.ProcessCommandApdu(apdu);
    inbox := if written == null then [] else [written[..]];
  }

  /** Writes `payload` to the tag in chunks of 200 bytes; `inbox` collects what the tag delivered. */
  method PutPayload(tag: HceService, payload: Bytes) returns (delivered: bool, inbox: seq<Bytes>)
    requires tag.Valid() && tag.acceptWrites
    requires 1 <= |payload| <= MAX_PAYLOAD
    modifies tag, tag.incoming
    ensures tag.Valid() && tag.Pending() == Idle
    ensures delivered && inbox == [payload]
  {
    inbox := [];
    var offset := 0;
    while offset < |payload|
      invariant 0 <= offset <= |payload|
      invariant tag.Valid() && tag.acceptWrites
      invariant tag.incoming == null || tag.incoming == old(tag.incoming) || fresh(tag.incoming)
      invariant offset < |payload| ==> ReadyFor(tag.Pending(), |payload|, payload[..offset])
      invariant offset == |payload| ==> tag.Pending() == Idle
      invariant inbox == if offset == |payload| then [payload] else []
    {
      var end := Min(offset + CHUNK, |payload|);
      var chunk := payload[offset..end];
      assert payload[..offset] + chunk == payload[..end] && payload[..|payload|] == payload;
      var response, got := Put(tag, |payload|, payload[..offset], offset, chunk);
      if !StatusOk(response) {
        return false, inbox;
      }
      inbox := inbox + got;
      offset := end;
    }
    return true, inbox;
  }
}

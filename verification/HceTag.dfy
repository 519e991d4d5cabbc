/**
 * The tag side of the NFC exchange: one command in, one response out, a payload buffer
 * filled chunk by chunk in between.
 *
 * `Process` says what a command does to a `Draft`, the bytes of a payload accepted so far;
 * the class `HceService` keeps that draft in a byte array it fills in place.
 */
module HceTag {
  import opened Options

  type byte = x: int | 0 <= x < 256

  type Bytes = seq<byte>

  const AID: Bytes := [0xF0, 0x47, 0x68, 0x6F, 0x53, 0x74, 0x6C]
  const INS_SELECT: byte := 0xA4
  const INS_GET_DATA: byte := 0xCA
  const INS_PUT_DATA: byte := 0xDA
  const CHUNK: nat := 200
  const MAX_PAYLOAD: nat := 4096

  const SW_OK: Bytes := [0x90, 0x00]
  const SW_NO_DATA: Bytes := [0x6A, 0x82]
  const SW_WRONG_OFFSET: Bytes := [0x6A, 0x86]
  const SW_WRONG_LENGTH: Bytes := [0x67, 0x00]
  const SW_NOT_ACCEPTING: Bytes := [0x69, 0x85]
  const SW_UNKNOWN: Bytes := [0x6D, 0x00]

  /** A payload being written to the tag. */
  datatype Draft = Idle | Receiving(total: nat, got: Bytes)

  /** `written` is the payload handed to `onWritten`; `read` says `onRead` fired. */
  datatype Reaction = Reaction(draft: Draft, response: Bytes, read: bool, written: Option<Bytes>)

  function U16(hi: byte, lo: byte): nat
  {
    hi * 256 + lo
  }

  function Hi(n: nat): byte
  {
    n / 256 % 256
  }

  function Lo(n: nat): byte
  {
    n % 256
  }

  function Min(a: nat, b: nat): nat
  {
    if a < b then a else b
  }

  function Refuse(draft: Draft, status: Bytes): Reaction
  {
    Reaction(draft, status, false, None)
  }

  function Select(draft: Draft, apdu: Bytes): Reaction
    requires |apdu| >= 5
  {
    var length: nat := apdu[4];
    if |apdu| < 5 + length then Refuse(draft, SW_UNKNOWN)
    else if apdu[5..5 + length] != AID then Refuse(draft, SW_UNKNOWN)
    else Refuse(Idle, SW_OK)
  }

  function GetData(offer: Option<Bytes>, draft: Draft, apdu: Bytes): Reaction
    requires |apdu| >= 5
  {
    if offer.None? then Refuse(draft, SW_NO_DATA)
    else
      var payload := offer.value;
      var offset := U16(apdu[2], apdu[3]);
      if offset > |payload| then Refuse(draft, SW_WRONG_OFFSET)
      else
        var end := Min(offset + CHUNK, |payload|);
        Reaction(draft, [Hi(|payload|), Lo(|payload|)] + payload[offset..end] + SW_OK, end == |payload|, None)
  }

  /** Adds one chunk to the draft, which may complete it. */
  function Append(draft: Draft, offset: nat, data: Bytes): Reaction
  {
    if draft.Idle? || offset != |draft.got| then Refuse(draft, SW_WRONG_OFFSET)
    else if |draft.got| + |data| > draft.total then Refuse(Idle, SW_WRONG_LENGTH)
    else if |draft.got| + |data| == draft.total then Reaction(Idle, SW_OK, false, Some(draft.got + data))
    else Refuse(Receiving(draft.total, draft.got + data), SW_OK)
  }

  function PutData(accepting: bool, draft: Draft, apdu: Bytes): Reaction
    requires |apdu| >= 5
  {
    if !accepting then Refuse(draft, SW_NOT_ACCEPTING)
    else
      var offset := U16(apdu[2], apdu[3]);
      var length: nat := apdu[4];
      if |apdu| < 5 + length then Refuse(draft, SW_WRONG_LENGTH)
      else
        var data := apdu[5..5 + length];
        if offset != 0 then Append(draft, offset, data)
        else if |data| < 2 then Refuse(draft, SW_WRONG_LENGTH)
        else
          var total := U16(data[0], data[1]);
          if total == 0 || total > MAX_PAYLOAD then Refuse(draft, SW_WRONG_LENGTH)
          else Append(Receiving(total, []), 0, data[2..])
  }

  function Process(offer: Option<Bytes>, accepting: bool, draft: Draft, apdu: Bytes): Reaction
  {
    if |apdu| < 5 then Refuse(draft, SW_UNKNOWN)
    else if apdu[1] == INS_SELECT then Select(draft, apdu)
    else if apdu[1] == INS_GET_DATA then GetData(offer, draft, apdu)
    else if apdu[1] == INS_PUT_DATA then PutData(accepting, draft, apdu)
    else Refuse(draft, SW_UNKNOWN)
  }

  class HceService {
    var offer: Option<Bytes>
    var acceptWrites: bool
    var incoming: array?<byte>
    var incomingTotal: nat
    var incomingLength: nat
    /** Every buffer handed to `onWritten` so far. */
    ghost var delivered: set<array<byte>>

    constructor ()
      ensures Valid() && Pending() == Idle && delivered == {}
    {
      offer, acceptWrites := None, false;
      incoming, incomingTotal, incomingLength := null, 0, 0;
      delivered := {};
    }

    ghost predicate Valid()
      reads this
    {
      incoming != null ==>
        && incoming.Length == incomingTotal
        && incomingLength < incomingTotal <= MAX_PAYLOAD
        && incoming !in delivered
    }

    ghost function Pending(): Draft
      requires Valid()
      reads this, incoming
    {
      if incoming == null then Idle else Receiving(incomingTotal, incoming[..incomingLength])
    }

    /** A null command reaches this as the empty one: both are shorter than a header. */
    method ProcessCommandApdu(apdu: Bytes) returns (response: Bytes, read: bool, written: array?<byte>)
      requires Valid()
      modifies this`incoming, this`incomingTotal, this`incomingLength, this`delivered, incoming
      ensures Valid()
      ensures Reaction(Pending(), response, read, if written == null then None else Some(written[..]))
           == Process(offer, acceptWrites, old(Pending()), apdu)
      ensures delivered == old(delivered) + if written == null then {} else {written}
      ensures forall buffer :: buffer in old(delivered) ==> buffer[..] == old(buffer[..])
      ensures incoming == null || incoming == old(incoming) || fresh(incoming)
      ensures written == null || written == old(incoming) || fresh(written)
    {
      read, written := false, null;
      if |apdu| < 5 {
        return SW_UNKNOWN, read, written;
      }
      if apdu[1] == INS_SELECT {
        var aidLen: nat := apdu[4];
        if |apdu| < 5 + aidLen { return SW_UNKNOWN, read, written; }
        if apdu[5..5 + aidLen] != AID { return SW_UNKNOWN, read, written; }
        incoming := null;
        return SW_OK, read, written;
      } else if apdu[1] == INS_GET_DATA {
        if offer.None? { return SW_NO_DATA, read, written; }
        var payload := offer.value;
        var offset := U16(apdu[2], apdu[3]);
        if offset > |payload| { return SW_WRONG_OFFSET, read, written; }
        var end := Min(offset + CHUNK, |payload|);
        var header: Bytes := [Hi(|payload|), Lo(|payload|)];
        response := header + payload[offset..end] + SW_OK;
        read := end == |payload|;
      } else if apdu[1] == INS_PUT_DATA {
        response, written := AcceptChunk(apdu);
      } else {
        response := SW_UNKNOWN;
      }
    }

    method AcceptChunk(apdu: Bytes) returns (response: Bytes, written: array?<byte>)
      requires Valid() && |apdu| >= 5
      modifies this`incoming, this`incomingTotal, this`incomingLength, this`delivered, incoming
      ensures Valid()
      ensures Reaction(Pending(), response, false, if written == null then None else Some(written[..]))
           == PutData(acceptWrites, old(Pending()), apdu)
      ensures delivered == old(delivered) + if written == null then {} else {written}
      ensures forall buffer :: buffer in old(delivered) ==> buffer[..] == old(buffer[..])
      ensures incoming == null || incoming == old(incoming) || fresh(incoming)
      ensures written == null || written == old(incoming) || fresh(written)
    {
      written := null;
      if !acceptWrites { return SW_NOT_ACCEPTING, written; }
      var offset := U16(apdu[2], apdu[3]);
      var lc: nat := apdu[4];
      if |apdu| < 5 + lc { return SW_WRONG_LENGTH, written; }
      var data := apdu[5..5 + lc];
      if offset == 0 {
        if |data| < 2 { return SW_WRONG_LENGTH, written; }
        var total := U16(data[0], data[1]);
        if total == 0 || total > MAX_PAYLOAD { return SW_WRONG_LENGTH, written; }
        incoming := new byte[total];
        incomingTotal := total;
        incomingLength := 0;
        data := data[2..];
      }
      var buffer := incoming;
      if buffer == null || offset != incomingLength { return SW_WRONG_OFFSET, written; }
      if incomingLength + |data| > incomingTotal {
        incoming := null;
        return SW_WRONG_LENGTH, written;
      }
      ghost var before := buffer[..incomingLength];
      CopyInto(buffer, incomingLength, data);
      assert buffer[..incomingLength + |data|] == before + data;
      incomingLength := incomingLength + |data|;
      if incomingLength == incomingTotal {
        incoming := null;
        written := buffer;
        delivered := delivered + {buffer};
        assert buffer[..] == before + data;
      }
      return SW_OK, written;
    }

    method CopyInto(buffer: array<byte>, at: nat, data: Bytes)
      requires at + |data| <= buffer.Length
      modifies buffer
      ensures buffer[..] == old(buffer[..at]) + data + old(buffer[at + |data|..])
    {
      for i := 0 to |data|
        invariant buffer[..at] == old(buffer[..at])
        invariant buffer[at..at + i] == data[..i]
        invariant buffer[at + i..] == old(buffer[at + i..])
      {
        buffer[at + i] := data[i];
        assert buffer[at..at + i + 1] == buffer[at..at + i] + [data[i]];
      }
      assert buffer[..] == buffer[..at] + buffer[at..at + |data|] + buffer[at + |data|..];
    }

    method OnDeactivated()
      requires Valid()
      modifies this`incoming
      ensures Valid() && Pending() == Idle
    {
      incoming := null;
    }
  }
}

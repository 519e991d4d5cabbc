/** What the tag answers to each command, exactly. */
module HceAnswers {
  import opened Options
  import opened HceTag

  /** The data field a command announces is there. */
  predicate Complete(apdu: Bytes)
  {
    |apdu| >= 5 && |apdu| >= 5 + apdu[4] as nat
  }

  function DataOf(apdu: Bytes): Bytes
    requires Complete(apdu)
  {
    apdu[5..5 + apdu[4] as nat]
  }

  /** Too short, or an instruction the tag does not know: 6D 00, and nothing changes. */
  lemma UnknownCommands(offer: Option<Bytes>, accepting: bool, draft: Draft, apdu: Bytes)
    requires |apdu| < 5 || (apdu[1] != 0xA4 && apdu[1] != 0xCA && apdu[1] != 0xDA)
    ensures Process(offer, accepting, draft, apdu) == Reaction(draft, [0x6D, 0x00], false, None)
  {
  }

  /** A SELECT is accepted exactly for the application's own identifier, and then drops any half-written payload. */
  lemma SelectAnswers(offer: Option<Bytes>, accepting: bool, draft: Draft, apdu: Bytes)
    requires |apdu| >= 5 && apdu[1] == 0xA4
    ensures Process(offer, accepting, draft, apdu) ==
            if Complete(apdu) && DataOf(apdu) == [0xF0, 0x47, 0x68, 0x6F, 0x53, 0x74, 0x6C]
            then Reaction(Idle, [0x90, 0x00], false, None) else Reaction(draft, [0x6D, 0x00], false, None)
  {
  }

  /** A GET is refused without an offer and past its end, and otherwise carries on from its offset; no draft changes. */
  lemma GetAnswers(offer: Option<Bytes>, accepting: bool, draft: Draft, apdu: Bytes)
    requires |apdu| >= 5 && apdu[1] == 0xCA
    ensures var r := Process(offer, accepting, draft, apdu);
            var offset := apdu[2] as nat * 256 + apdu[3] as nat;
            && r.draft == draft && r.written == None
            && (offer == None ==> r.response == [0x6A, 0x82] && !r.read)
            && (offer.Some? && offset > |offer.value| ==> r.response == [0x6A, 0x86] && !r.read)
            && (offer.Some? && offset <= |offer.value| ==>
                  var end := if offset + 200 < |offer.value| then offset + 200 else |offer.value|;
                  && |r.response| == 4 + (end - offset)
                  && r.response[2..|r.response| - 2] == offer.value[offset..end]
                  && r.response[|r.response| - 2..] == [0x90, 0x00]
                  && (r.read <==> end == |offer.value|))
  {
  }

  /** What a PUT must be to be looked at: allowed, complete, and, as a first chunk, with a length from 1 to 4096. */
  predicate Admitted(accepting: bool, apdu: Bytes)
    requires |apdu| >= 5
  {
    && accepting && Complete(apdu)
    && (apdu[2] == 0 && apdu[3] == 0 ==>
          |DataOf(apdu)| >= 2 && 1 <= DataOf(apdu)[0] as nat * 256 + DataOf(apdu)[1] as nat <= 4096)
  }

  /** A PUT that is not looked at changes nothing: 69 85 while writes are off, 67 00 for a bad length. */
  lemma RefusedPuts(offer: Option<Bytes>, accepting: bool, draft: Draft, apdu: Bytes)
    requires |apdu| >= 5 && apdu[1] == 0xDA && !Admitted(accepting, apdu)
    ensures Process(offer, accepting, draft, apdu)
         == Reaction(draft, if accepting then [0x67, 0x00] else [0x69, 0x85], false, None)
  {
  }

  /** A first chunk begins anew, whatever was being written, and may be all of it or too much. */
  lemma FirstPuts(offer: Option<Bytes>, accepting: bool, draft: Draft, apdu: Bytes)
    requires |apdu| >= 5 && apdu[1] == 0xDA && Admitted(accepting, apdu) && apdu[2] == 0 && apdu[3] == 0
    ensures var total := DataOf(apdu)[0] as nat * 256 + DataOf(apdu)[1] as nat;
            var chunk := DataOf(apdu)[2..];
            Process(offer, accepting, draft, apdu) ==
              if |chunk| > total then Reaction(Idle, [0x67, 0x00], false, None)
              else if |chunk| == total then Reaction(Idle, [0x90, 0x00], false, Some(chunk))
              else Reaction(Receiving(total, chunk), [0x90, 0x00], false, None)
  {
    assert [] + DataOf(apdu)[2..] == DataOf(apdu)[2..];
  }

  /** A later chunk is taken exactly where the last one ended; one that overruns the length ends the transfer. */
  lemma LaterPuts(offer: Option<Bytes>, accepting: bool, draft: Draft, apdu: Bytes)
    requires |apdu| >= 5 && apdu[1] == 0xDA && Admitted(accepting, apdu) && !(apdu[2] == 0 && apdu[3] == 0)
    ensures var offset := apdu[2] as nat * 256 + apdu[3] as nat;
            var chunk := DataOf(apdu);
            Process(offer, accepting, draft, apdu) ==
              if draft == Idle || offset != |draft.got| then Reaction(draft, [0x6A, 0x86], false, None)
              else if offset + |chunk| > draft.total then Reaction(Idle, [0x67, 0x00], false, None)
              else if offset + |chunk| == draft.total then Reaction(Idle, [0x90, 0x00], false, Some(draft.got + chunk))
              else Reaction(Receiving(draft.total, draft.got + chunk), [0x90, 0x00], false, None)
  {
  }
}

/**
 * The sender's pre-signed force collect: what is fixed when the cheque is written is what
 * the receiver's transaction, rebuilt from the database row, later asks for.
 */
module Preauth {
  import opened Options
  import Money
  import MoneyRoundTrip
  import opened Escrow
  import opened ChequeService
  import EscrowSettlement
  import opened ScVal

  const NANOS_PER_SECOND: int := 1_000_000_000

  /** What CreateCheque holds in memory; `expiresAt` is in nanoseconds since the epoch. */
  datatype Draft = Draft(id: ChequeId, sender: Address, receiver: Address, token: Address, amount: int, expiresAt: nat)

  /** What the row keeps of it: the id and the amount as text, the expiry in microseconds. */
  datatype Row = Row(idText: string, sender: Address, receiver: Address, token: Address, amountText: string, expiresAt: nat)

  function IntText(raw: int): string
  {
    Money.Sign(raw < 0) + Money.Text(Money.Abs(raw))
  }

  function ReadInt(s: string): Option<int>
  {
    Money.Parse(s, 0)
  }

  function Stored(d: Draft, idText: ChequeId -> string): Row
  {
    Row(idText(d.id), d.sender, d.receiver, d.token, IntText(d.amount), d.expiresAt / NANOS_PER_MICRO)
  }

  /** The arguments of the lock transaction the service builds for the sender. */
  function LockArgs(d: Draft): seq<Value>
    requires d.expiresAt / NANOS_PER_SECOND < TWO_64
  {
    var expiresAt := U64Value(d.expiresAt / NANOS_PER_SECOND);
    var amount := I128Value(EncodeI128(d.amount));
    [AddressValue(d.sender), BytesValue(d.id), AddressValue(d.receiver), AddressValue(d.token), amount, expiresAt]
  }

  /** The arguments fixed in the authorisation entry the sender signs beside it. */
  function SignedArgs(d: Draft): seq<Value>
    requires d.expiresAt / NANOS_PER_SECOND < TWO_64
  {
    [AddressValue(d.sender), BytesValue(d.id), AddressValue(d.receiver), AddressValue(d.token),
     I128Value(EncodeI128(d.amount)), U64Value(d.expiresAt / NANOS_PER_SECOND)]
  }

  /** The arguments ForceCollectXDR rebuilds from the row, if the row's texts can be read. */
  function RebuiltArgs(row: Row, readId: string -> Option<ChequeId>): Option<seq<Value>>
    requires row.expiresAt / MICROS_PER_SECOND < TWO_64
  {
    var amount := ReadInt(row.amountText);
    var id := readId(row.idText);
    if amount.None? || id.None? then None
    else
      Some([AddressValue(row.sender), BytesValue(id.value), AddressValue(row.receiver), AddressValue(row.token),
            I128Value(EncodeI128(amount.value)), U64Value(row.expiresAt / MICROS_PER_SECOND)])
  }

  lemma TextReadsBack(raw: int)
    ensures ReadInt(IntText(raw)) == Some(raw)
  {
    var digits := Money.Text(Money.Abs(raw));
    assert digits[..|digits|] == digits;
    assert Money.Unsigned(digits, 0) == digits;
    MoneyRoundTrip.PrintThenParse(raw, 0);
  }

  /** Truncating to microseconds first does not change the second. */
  lemma SecondsSurvive(nanos: nat)
    ensures nanos / NANOS_PER_MICRO / MICROS_PER_SECOND == nanos / NANOS_PER_SECOND
  {
  }

  /**
   * Pre-authorisation binding: the six arguments rebuilt from the stored row are the six the
   * sender signed, and the contract reads them as a force collect of exactly the cheque's
   * terms, the amount included if and only if it fits in an i128, which nothing checks.
   * `idText` and `readId` are the id's text form, assumed only to read back what was written.
   */
  lemma RebuiltIsSigned(d: Draft, idText: ChequeId -> string, readId: string -> Option<ChequeId>)
    requires readId(idText(d.id)) == Some(d.id) && d.expiresAt / NANOS_PER_SECOND < TWO_64
    ensures Stored(d, idText).expiresAt / MICROS_PER_SECOND < TWO_64
    ensures RebuiltArgs(Stored(d, idText), readId) == Some(SignedArgs(d))
    ensures ReadForceCollect(SignedArgs(d)).Some?
    ensures var call := ReadForceCollect(SignedArgs(d)).value;
            && call.ForceCollect?
            && call.sender == d.sender && call.id == d.id && call.receiver == d.receiver && call.token == d.token
            && call.expiresAt == d.expiresAt / NANOS_PER_SECOND
            && (call.amount == d.amount <==> -TWO_127 <= d.amount < TWO_127)
  {
    TextReadsBack(d.amount);
    SecondsSurvive(d.expiresAt);
    EncodeThenDecode(d.amount);
  }

  /** The mirror's row of the same cheque. */
  function Mirrored(d: Draft, requestId: string, state: ChequeStore.State): ChequeStore.Cheque
  {
    ChequeStore.Cheque(d.sender, d.receiver, requestId, d.token, d.amount, d.expiresAt / NANOS_PER_MICRO, state)
  }

  /** So the two calls the service builds and simulates from a row are those fixed when the cheque was written. */
  lemma SimulatedIsSigned(d: Draft, requestId: string, state: ChequeStore.State)
    requires d.expiresAt / NANOS_PER_SECOND < TWO_64
    ensures ReadForceCollect(SignedArgs(d)) == Some(ForceCall(d.id, Mirrored(d, requestId, state)))
    ensures ReadLock(LockArgs(d)) == Some(LockCall(d.id, Mirrored(d, requestId, state)))
  {
    SecondsSurvive(d.expiresAt);
    EncodeThenDecode(d.amount);
  }

  /**
   * Funding and force collecting write the same terms: whichever of the two built calls
   * reaches the chain first, the record differs in its state alone.
   */
  lemma EitherPathSameTerms(d: Draft, state: ChequeState)
    requires -TWO_127 <= d.amount < TWO_127 && d.expiresAt / NANOS_PER_SECOND < TWO_64
    ensures ReadLock(LockArgs(d)).Some? && ReadForceCollect(SignedArgs(d)).Some?
    ensures EscrowSettlement.Terms(ReadLock(LockArgs(d)).value, state)
         == EscrowSettlement.Terms(ReadForceCollect(SignedArgs(d)).value, state)
         == ChequeRecord(d.sender, d.receiver, d.token, d.amount, d.expiresAt / NANOS_PER_SECOND, state)
  {
    EncodeThenDecode(d.amount);
  }
}

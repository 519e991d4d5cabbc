/** Contract values on the wire: i128 halves, and the arguments of the escrow's entry points. */
module ScVal {
  import opened Options
  import opened Escrow

  const TWO_63: int := 0x8000_0000_0000_0000
  const TWO_64: int := 0x1_0000_0000_0000_0000
  const TWO_127: int := 0x8000_0000_0000_0000_0000_0000_0000_0000
  const TWO_128: int := 0x1_0000_0000_0000_0000_0000_0000_0000_0000

  type Int64 = x: int | -0x8000_0000_0000_0000 <= x < 0x8000_0000_0000_0000
  type Uint64 = x: int | 0 <= x < 0x1_0000_0000_0000_0000

  /** A two's-complement i128: the signed high half and the unsigned low half. */
  datatype Int128Parts = Int128Parts(hi: Int64, lo: Uint64)

  function AsInt64(u: Uint64): Int64
  {
    if u < TWO_63 then u else u - TWO_64
  }

  function AsUint64(i: Int64): Uint64
  {
    if i >= 0 then i else i + TWO_64
  }

  /** Masking to 64 bits is a remainder, also of a negative number; shifting right is a floor division. */
  function EncodeI128(raw: int): Int128Parts
  {
    var unsigned := if raw < 0 then raw + TWO_128 else raw;
    Int128Parts(AsInt64(unsigned / TWO_64 % TWO_64), unsigned % TWO_64)
  }

  /** The halves share no bits, so or-ing them together adds them. */
  function DecodeI128(p: Int128Parts): int
  {
    var raw := AsUint64(p.hi) * TWO_64 + p.lo;
    if p.hi < 0 then raw - TWO_128 else raw
  }

  /** What an amount has become once it has gone through the two halves. */
  function Wrapped(raw: int): (y: I128)
  {
    DecodeI128(EncodeI128(raw))
  }

  /** The i128 a number wraps to. */
  predicate WrapsTo(x: int, y: int)
  {
    -TWO_127 <= y < TWO_127 && (y - x) % TWO_128 == 0
  }

  lemma WrapIsUnique(x: int, y: int, z: int)
    requires WrapsTo(x, y) && WrapsTo(x, z)
    ensures y == z
  {
  }

  /**
   * Encoding checks no range: decoding gives the one i128 congruent to the number modulo
   * 2^128, which is the number itself exactly when it was in range.
   */
  lemma EncodeThenDecode(x: int)
    ensures WrapsTo(x, DecodeI128(EncodeI128(x)))
    ensures DecodeI128(EncodeI128(x)) == x <==> -TWO_127 <= x < TWO_127
  {
  }

  lemma DecodeThenEncode(p: Int128Parts)
    ensures -TWO_127 <= DecodeI128(p) < TWO_127
    ensures EncodeI128(DecodeI128(p)) == p
  {
  }

  // ---- The money package's own assembly of the halves --------------------

  /** `FromI128`: shift the high half's bits up, or in the low half, and reinterpret. */
  function FromI128(hi: Int64, lo: Uint64): int
  {
    if hi < 0 then (hi + TWO_64) * TWO_64 + lo - TWO_128 else hi * TWO_64 + lo
  }

  lemma DecodersAgree(hi: Int64, lo: Uint64)
    ensures FromI128(hi, lo) == DecodeI128(Int128Parts(hi, lo))
    ensures FromI128(hi, lo) == hi * TWO_64 + lo
  {
  }

  // ---- Call arguments ----------------------------------------------------

  datatype Value =
    | AddressValue(address: Address)
    | BytesValue(id: ChequeId)
    | I128Value(parts: Int128Parts)
    | U64Value(number: Uint64)

  /** How the contract reads the six arguments of `force_collect`. */
  function ReadForceCollect(args: seq<Value>): Option<Call>
  {
    if |args| == 6 && args[0].AddressValue? && args[1].BytesValue? && args[2].AddressValue?
       && args[3].AddressValue? && args[4].I128Value? && args[5].U64Value?
       && DecodeI128(args[4].parts) <= I128_MAX && DecodeI128(args[4].parts) >= -I128_MAX - 1
    then Some(ForceCollect(args[0].address, args[1].id, args[2].address, args[3].address,
                           DecodeI128(args[4].parts), args[5].number))
    else None
  }

  /** How the contract reads the six arguments of `lock`. */
  function ReadLock(args: seq<Value>): Option<Call>
  {
    if |args| == 6 && args[0].AddressValue? && args[1].BytesValue? && args[2].AddressValue?
       && args[3].AddressValue? && args[4].I128Value? && args[5].U64Value?
       && -I128_MAX - 1 <= DecodeI128(args[4].parts) <= I128_MAX
    then Some(Lock(args[0].address, args[1].id, args[2].address, args[3].address,
                   DecodeI128(args[4].parts), args[5].number))
    else None
  }
}

/** Amounts survive the decimal string form exactly, in both directions. */
module MoneyRoundTrip {
  import opened Options
  import opened Money

  /** All digits of a decimal read as one integer, with its sign. */
  function Digits(d: Decimal): int
    requires WellFormed(d)
  {
    Signed(d.negative, Value(d.whole + d.frac))
  }

  /** The rational number a well-formed decimal denotes. */
  function Meaning(d: Decimal): real
    requires WellFormed(d)
  {
    Digits(d) as real / Pow10(|d.frac|) as real
  }

  /** How `Render` writes raw: the parts of its output. */
  function Parts(raw: int, decimals: nat): Decimal
  {
    var digits := Padded(Text(Abs(raw)), decimals + 1);
    var point := |digits| - decimals;
    Decimal(raw < 0, digits[..point], decimals > 0, digits[point..])
  }

  lemma CutDigits(digits: string, point: nat)
    requires AllDigits(digits) && 0 < point <= |digits|
    ensures AllDigits(digits[..point]) && AllDigits(digits[point..]) && digits[..point] != ""
    ensures digits[..point] + digits[point..] == digits
  {
  }

  lemma RenderSpellsParts(raw: int, decimals: nat)
    ensures WellFormed(Parts(raw, decimals))
    ensures Spell(Parts(raw, decimals)) == Render(raw, decimals)
    ensures |Parts(raw, decimals).frac| == decimals
    ensures Value(Parts(raw, decimals).whole + Parts(raw, decimals).frac) == Abs(raw)
  {
    var digits := Padded(Text(Abs(raw)), decimals + 1);
    PaddingKeepsValue(Text(Abs(raw)), decimals + 1);
    TextDenotes(Abs(raw));
    CutDigits(digits, |digits| - decimals);
  }

  lemma ParseSpelled(d: Decimal, decimals: nat)
    requires WellFormed(d) && |d.frac| == decimals
    ensures Parse(Spell(d), decimals) == Some(Digits(d))
  {
    SpellThenTakeApart(d);
    assert d.frac + Zeros(0) == d.frac;
  }

  /** Parsing what `String` prints gives back the amount, for every raw value and every scale. */
  lemma PrintThenParse(raw: int, decimals: nat)
    ensures Parse(Render(raw, decimals), decimals) == Some(raw)
  {
    RenderSpellsParts(raw, decimals);
    ParseSpelled(Parts(raw, decimals), decimals);
  }

  /** The accepted strings are exactly the spellings of the grammar with few enough fractional digits. */
  lemma AcceptedExactly(s: string, decimals: nat)
    ensures Parse(s, decimals).Some? <==> exists d :: WellFormed(d) && |d.frac| <= decimals && Spell(d) == s
  {
    if Parse(s, decimals).Some? {
      TakeApartThenSpell(s);
      var d := TakeApart(s);
      assert WellFormed(d) && |d.frac| <= decimals && Spell(d) == s;
    }
    if d :| WellFormed(d) && |d.frac| <= decimals && Spell(d) == s {
      SpellThenTakeApart(d);
    }
  }

  lemma SignedTimes(negative: bool, n: nat, factor: nat)
    ensures n * factor >= 0
    ensures Signed(negative, n * factor) == Signed(negative, n) * factor
  {
  }

  lemma FilledValue(digits: string, n: nat)
    requires AllDigits(digits)
    ensures AllDigits(digits + Zeros(n)) && Value(digits + Zeros(n)) == Value(digits) * Pow10(n)
  {
    ValueOfZeros(n);
    ValueConcat(digits, Zeros(n));
  }

  lemma FilledDigits(d: Decimal, decimals: nat)
    requires WellFormed(d) && |d.frac| <= decimals
    ensures Filled(d, decimals) == Digits(d) * Pow10(decimals - |d.frac|)
  {
    var zeros := Zeros(decimals - |d.frac|);
    assert d.whole + (d.frac + zeros) == d.whole + d.frac + zeros;
    FilledValue(d.whole + d.frac, decimals - |d.frac|);
    SignedTimes(d.negative, Value(d.whole + d.frac), Pow10(decimals - |d.frac|));
  }

  lemma PowSplit(decimals: nat, f: nat)
    requires f <= decimals
    ensures Pow10(decimals) == Pow10(f) * Pow10(decimals - f)
  {
    PowAdd(f, decimals - f);
  }

  lemma MeaningScaled(d: Decimal, raw: int, rest: nat, scale: nat)
    requires WellFormed(d) && raw == Digits(d) * rest && scale == Pow10(|d.frac|) * rest
    ensures raw as real == Meaning(d) * scale as real
  {
  }

  lemma FilledIsExact(d: Decimal, decimals: nat, raw: int, rest: nat, scale: nat)
    requires WellFormed(d) && |d.frac| <= decimals
    requires raw == Filled(d, decimals) && rest == Pow10(decimals - |d.frac|) && scale == Pow10(decimals)
    ensures raw as real == Meaning(d) * scale as real
  {
    FilledDigits(d, decimals);
    PowSplit(decimals, |d.frac|);
    MeaningScaled(d, raw, rest, scale);
  }

  /** No rounding, ever: an accepted string's raw value is its rational value times ten to the scale. */
  lemma ParseIsExact(s: string, decimals: nat, raw: int, scale: nat)
    requires Parse(s, decimals) == Some(raw) && scale == Pow10(decimals)
    ensures WellFormed(TakeApart(s)) && Spell(TakeApart(s)) == s
    ensures raw as real == Meaning(TakeApart(s)) * scale as real
  {
    TakeApartThenSpell(s);
    FilledIsExact(TakeApart(s), decimals, raw, Pow10(decimals - |TakeApart(s).frac|), scale);
  }

  /** The one way to write an amount at a scale: all fractional digits, no spare zeros, no negative zero. */
  predicate Canonical(d: Decimal, decimals: nat)
  {
    && WellFormed(d) && |d.frac| == decimals && Minimal(d.whole)
    && (d.negative ==> Value(d.whole + d.frac) > 0)
  }

  lemma RenderIsCanonical(raw: int, decimals: nat)
    ensures Canonical(Parts(raw, decimals), decimals)
  {
    RenderSpellsParts(raw, decimals);
    TextDenotes(Abs(raw));
  }

  /** Stripping zeros off the front of a minimal whole part followed by digits. */
  lemma {:induction false} MinimalWholeIsPadded(whole: string, frac: string)
    requires AllDigits(whole) && AllDigits(frac) && Minimal(whole)
    ensures AllDigits(whole + frac)
    ensures Padded(Text(Value(whole + frac)), |frac| + 1) == whole + frac
  {
    var s := whole + frac;
    if whole[0] != '0' {
      TextIsUnique(s);
    } else {
      LeadingZeros(s);
      assert |s| == |frac| + 1;
    }
  }

  /** Any digit string is its number's own digits, padded back to its length. */
  lemma {:induction false} LeadingZeros(s: string)
    requires AllDigits(s) && |s| > 0
    ensures Padded(Text(Value(s)), |s|) == s
  {
    if s[0] != '0' || |s| == 1 {
      TextIsUnique(s);
    } else {
      var rest := s[1..];
      LeadingZeros(rest);
      assert s == "0" + rest;
      ValueConcat("0", rest);
      assert "0"[..0] == "" && Value("0") == 0;
      var t := Text(Value(rest));
      assert Value(s) == Value(rest);
      if |t| < |rest| {
        assert "0" + (Zeros(|rest| - |t|) + t) == Zeros(|s| - |t|) + t;
      } else {
        assert |t| == |rest| && s == Zeros(1) + t;
      }
    }
  }

  lemma SignedAbs(negative: bool, n: nat)
    requires negative ==> n > 0
    ensures Abs(Signed(negative, n)) == n && (Signed(negative, n) < 0 <==> negative)
  {
  }

  lemma UnsignedSpells(whole: string, frac: string, decimals: nat)
    requires |frac| == decimals
    ensures Unsigned(whole + frac, decimals) == whole + Tail(decimals > 0, frac)
  {
  }

  /** A canonical spelling is what `String` prints for its value. */
  lemma CanonicalIsRendered(d: Decimal, decimals: nat)
    requires Canonical(d, decimals)
    ensures Parse(Spell(d), decimals).Some?
    ensures Render(Parse(Spell(d), decimals).value, decimals) == Spell(d)
  {
    ParseSpelled(d, decimals);
    MinimalWholeIsPadded(d.whole, d.frac);
    SignedAbs(d.negative, Value(d.whole + d.frac));
    UnsignedSpells(d.whole, d.frac, decimals);
  }

  /**
   * Printing what was parsed gives the canonical spelling of the same value: canonical, of
   * the same raw value, and equal to the input exactly when the input was canonical.
   */
  lemma ParseThenPrint(s: string, decimals: nat)
    requires Parse(s, decimals).Some?
    ensures var printed := Render(Parse(s, decimals).value, decimals);
            && Canonical(TakeApart(printed), decimals)
            && Parse(printed, decimals) == Parse(s, decimals)
            && (printed == s <==> Canonical(TakeApart(s), decimals))
  {
    var raw := Parse(s, decimals).value;
    PrintThenParse(raw, decimals);
    RenderIsCanonical(raw, decimals);
    RenderSpellsParts(raw, decimals);
    SpellThenTakeApart(Parts(raw, decimals));
    if Canonical(TakeApart(s), decimals) {
      TakeApartThenSpell(s);
      CanonicalIsRendered(TakeApart(s), decimals);
    }
  }
}

/** Exact amounts as decimal strings: printing, parsing, and how the two fit together. */
module Money {
  import opened Options

  // ---- Digits ------------------------------------------------------------

  predicate IsDigit(c: char)
  {
    '0' <= c <= '9'
  }

  predicate AllDigits(s: string)
  {
    forall i :: 0 <= i < |s| ==> IsDigit(s[i])
  }

  function DigitOf(c: char): nat
    requires IsDigit(c)
  {
    c as int - '0' as int
  }

  function DigitChar(n: nat): (c: char)
    requires n < 10
    ensures IsDigit(c) && DigitOf(c) == n
  {
    (n + '0' as int) as char
  }

  function Pow10(n: nat): (p: nat)
    ensures p > 0
  {
    if n == 0 then 1 else 10 * Pow10(n - 1)
  }

  /** The number a digit string denotes in base ten; the empty string denotes zero. */
  function Value(s: string): nat
    requires AllDigits(s)
  {
    if s == "" then 0 else 10 * Value(s[..|s| - 1]) + DigitOf(s[|s| - 1])
  }

  /** A natural number in base ten without leading zeros. */
  function Text(n: nat): (s: string)
    ensures |s| > 0 && AllDigits(s)
  {
    if n < 10 then [DigitChar(n)] else Text(n / 10) + [DigitChar(n % 10)]
  }

  function Zeros(n: nat): (s: string)
    ensures |s| == n && AllDigits(s)
  {
    seq(n, _ => '0')
  }

  // ---- Printing ----------------------------------------------------------

  function Padded(s: string, width: nat): string
  {
    if |s| < width then Zeros(width - |s|) + s else s
  }

  function Abs(x: int): nat
  {
    if x < 0 then -x else x
  }

  function Sign(negative: bool): string
  {
    if negative then "-" else ""
  }

  /** A point and fractional digits, or nothing at all. */
  function Tail(pointed: bool, frac: string): string
  {
    if pointed then "." + frac else ""
  }

  /** The unsigned part of a printed amount. */
  function Unsigned(digits: string, decimals: nat): string
    requires |digits| >= decimals
  {
    var point := |digits| - decimals;
    digits[..point] + Tail(decimals > 0, digits[point..])
  }

  /** `Amount.String`: every digit of raw with the point `decimals` places from the right. */
  function Render(raw: int, decimals: nat): string
  {
    Sign(raw < 0) + Unsigned(Padded(Text(Abs(raw)), decimals + 1), decimals)
  }

  method ZeroPad(s: string, width: nat) returns (padded: string)
    ensures padded == Padded(s, width)
  {
    padded := s;
    ghost var added := 0;
    while |padded| < width
      invariant padded == Zeros(added) + s
      invariant |s| < width ==> |padded| <= width
      invariant |s| >= width ==> added == 0
      decreases width - |padded|
    {
      padded := "0" + padded;
      added := added + 1;
      assert "0" + Zeros(added - 1) == Zeros(added);
    }
    assert Zeros(0) + s == s;
  }

  method ZerosString(n: int) returns (s: string)
    ensures s == if n <= 0 then "" else Zeros(n)
  {
    if n <= 0 {
      return "";
    }
    var b := new char[n];
    for i := 0 to n
      invariant forall j :: 0 <= j < i ==> b[j] == '0'
    {
      b[i] := '0';
    }
    s := b[..];
    assert s == Zeros(n);
  }

  method PointedString(s: string, decimals: nat) returns (out: string)
    requires |s| > decimals
    ensures out == Unsigned(s, decimals)
  {
    var whole := s[..|s| - decimals];
    if whole == "" {
      whole := "0";
    }
    out := whole;
    if decimals > 0 {
      out := out + ("." + s[|s| - decimals..]);
    }
  }

  method AmountString(raw: int, decimals: nat) returns (out: string)
    ensures out == Render(raw, decimals)
  {
    var negative := raw < 0;
    var s := Text(Abs(raw));
    if |s| < decimals + 1 {
      s := ZeroPad(s, decimals + 1);
    }
    out := PointedString(s, decimals);
    if negative {
      out := "-" + out;
    } else {
      assert Sign(false) + out == out;
    }
  }

  // ---- Parsing -----------------------------------------------------------

  /** A string taken apart: an optional sign, whole digits, and perhaps a point with more digits. */
  datatype Decimal = Decimal(negative: bool, whole: string, pointed: bool, frac: string)

  function Spell(d: Decimal): string
  {
    Sign(d.negative) + (d.whole + Tail(d.pointed, d.frac))
  }

  /** The grammar of the pattern `^(-?)(\d+)(?:\.(\d+))?$`. */
  predicate WellFormed(d: Decimal)
  {
    && d.whole != "" && AllDigits(d.whole) && AllDigits(d.frac)
    && (d.pointed <==> d.frac != "")
  }

  function FirstPoint(s: string): (i: nat)
    ensures i <= |s|
  {
    if s == "" || s[0] == '.' then 0 else 1 + FirstPoint(s[1..])
  }

  predicate Negative(s: string)
  {
    s != "" && s[0] == '-'
  }

  /** The part after the sign. */
  function Body(s: string): string
  {
    if Negative(s) then s[1..] else s
  }

  function CutBody(negative: bool, body: string): Decimal
  {
    var point := FirstPoint(body);
    if point == |body| then Decimal(negative, body, false, "")
    else Decimal(negative, body[..point], true, body[point + 1..])
  }

  function TakeApart(s: string): Decimal
  {
    CutBody(Negative(s), Body(s))
  }

  function Signed(negative: bool, n: nat): int
  {
    if negative then 0 - n else n
  }

  /** The integer spelled by a decimal's digits once its fraction is filled up with zeros. */
  function Filled(d: Decimal, decimals: nat): int
    requires WellFormed(d) && |d.frac| <= decimals
  {
    Signed(d.negative, Value(d.whole + (d.frac + Zeros(decimals - |d.frac|))))
  }

  function Parse(s: string, decimals: nat): Option<int>
  {
    var d := TakeApart(s);
    if !WellFormed(d) || |d.frac| > decimals then None else Some(Filled(d, decimals))
  }

  method ParseAmount(s: string, decimals: nat) returns (raw: Option<int>)
    ensures raw == Parse(s, decimals)
  {
    var m := TakeApart(s);
    if !WellFormed(m) {
      return None;
    }
    if |m.frac| > decimals {
      return None;
    }
    var zeros := ZerosString(decimals - |m.frac|);
    var fracStr := m.frac + zeros;
    var n: int := Value(m.whole + fracStr);
    if m.negative {
      n := -n;
    }
    assert decimals == |m.frac| ==> zeros == Zeros(0);
    return Some(n);
  }

  // ---- Digit lemmas ------------------------------------------------------

  lemma {:induction false} PowAdd(a: nat, b: nat)
    ensures Pow10(a + b) == Pow10(a) * Pow10(b)
  {
    if a > 0 {
      PowAdd(a - 1, b);
      assert 10 * (Pow10(a - 1) * Pow10(b)) == (10 * Pow10(a - 1)) * Pow10(b);
    }
  }

  lemma {:induction false} ValueConcat(a: string, b: string)
    requires AllDigits(a) && AllDigits(b)
    ensures AllDigits(a + b) && Value(a + b) == Value(a) * Pow10(|b|) + Value(b)
  {
    if b == "" {
      assert a + b == a;
    } else {
      var init := b[..|b| - 1];
      ValueConcat(a, init);
      assert (a + b)[..|a + b| - 1] == a + init;
      assert 10 * (Value(a) * Pow10(|init|)) == Value(a) * Pow10(|b|);
    }
  }

  lemma {:induction false} ValueOfZeros(n: nat)
    ensures Value(Zeros(n)) == 0
  {
    if n > 0 {
      ValueOfZeros(n - 1);
      assert Zeros(n)[..n - 1] == Zeros(n - 1);
    }
  }

  lemma PaddingKeepsValue(s: string, width: nat)
    requires AllDigits(s)
    ensures AllDigits(Padded(s, width)) && Value(Padded(s, width)) == Value(s)
    ensures |Padded(s, width)| == if |s| < width then width else |s|
  {
    if |s| < width {
      ValueOfZeros(width - |s|);
      ValueConcat(Zeros(width - |s|), s);
    }
  }

  /** No superfluous leading zero. */
  predicate Minimal(s: string)
  {
    |s| > 0 && (|s| > 1 ==> s[0] != '0')
  }

  lemma {:induction false} TextDenotes(n: nat)
    ensures Value(Text(n)) == n
    ensures Minimal(Text(n)) && (n > 0 ==> Text(n)[0] != '0')
  {
    if n < 10 {
      assert Text(n)[..0] == "";
    } else {
      TextDenotes(n / 10);
      assert Text(n)[..|Text(n)| - 1] == Text(n / 10);
    }
  }

  lemma {:induction false} MinimalIsPositive(s: string)
    requires AllDigits(s) && |s| > 0 && s[0] != '0'
    ensures Value(s) > 0
  {
    if |s| > 1 {
      MinimalIsPositive(s[..|s| - 1]);
    }
  }

  /** A number has only one digit string without superfluous zeros. */
  lemma {:induction false} TextIsUnique(s: string)
    requires AllDigits(s) && Minimal(s)
    ensures s == Text(Value(s))
  {
    var last := s[|s| - 1];
    if |s| == 1 {
      assert s[..0] == "";
      assert s == [DigitChar(DigitOf(last))];
    } else {
      var init := s[..|s| - 1];
      TextIsUnique(init);
      MinimalIsPositive(init);
      assert Value(s) / 10 == Value(init) && Value(s) % 10 == DigitOf(last);
      assert s == init + [last];
    }
  }

  // ---- Taking a string apart ---------------------------------------------

  lemma {:induction false} PointAfterDigits(a: string, b: string)
    requires AllDigits(a)
    ensures FirstPoint(a) == |a|
    ensures FirstPoint(a + "." + b) == |a|
  {
    if a == "" {
      assert (a + "." + b)[0] == '.';
    } else {
      PointAfterDigits(a[1..], b);
      assert (a + "." + b)[1..] == a[1..] + "." + b;
    }
  }

  lemma SignComesOff(negative: bool, body: string)
    requires !Negative(body)
    ensures Negative(Sign(negative) + body) == negative && Body(Sign(negative) + body) == body
  {
  }

  lemma BodyIsCut(negative: bool, whole: string, pointed: bool, frac: string)
    requires AllDigits(whole) && (!pointed ==> frac == "")
    ensures CutBody(negative, whole + Tail(pointed, frac)) == Decimal(negative, whole, pointed, frac)
  {
    PointAfterDigits(whole, frac);
    if pointed {
      assert whole + Tail(pointed, frac) == whole + "." + frac;
      assert (whole + "." + frac)[..|whole|] == whole && (whole + "." + frac)[|whole| + 1..] == frac;
    } else {
      assert whole + Tail(pointed, frac) == whole;
    }
  }

  /** Whatever the grammar can spell, TakeApart finds again: the spelling is unambiguous. */
  lemma SpellThenTakeApart(d: Decimal)
    requires WellFormed(d)
    ensures TakeApart(Spell(d)) == d
  {
    var body := d.whole + Tail(d.pointed, d.frac);
    assert IsDigit(d.whole[0]) && body[0] == d.whole[0];
    SignComesOff(d.negative, body);
    BodyIsCut(d.negative, d.whole, d.pointed, d.frac);
  }

  lemma {:induction false} PointIsThere(s: string)
    ensures FirstPoint(s) < |s| ==> s[FirstPoint(s)] == '.'
  {
    if s != "" && s[0] != '.' {
      PointIsThere(s[1..]);
    }
  }

  lemma CutIsSpelled(negative: bool, body: string)
    ensures var d := CutBody(negative, body);
            d.negative == negative && d.whole + Tail(d.pointed, d.frac) == body
  {
    PointIsThere(body);
  }

  lemma SignIsSpelled(s: string)
    ensures Sign(Negative(s)) + Body(s) == s
  {
  }

  lemma TakeApartThenSpell(s: string)
    ensures Spell(TakeApart(s)) == s
  {
    CutIsSpelled(Negative(s), Body(s));
    SignIsSpelled(s);
  }
}

/** Fixed-point money of the quotation service: source prices in millionths and VND totals. */
module Pricing {
  import opened Text

  const SOURCE_PRICE_SCALE: int := 1_000_000
  const SHIPPING_FEE_VND: int := 120_000

  // ------------------------------------------------------------------ parsing and printing

  /** The fraction with zeros appended up to six characters. */
  function PadFraction(fraction: string): (r: string)
    ensures |fraction| <= 6 ==> |r| == 6
  {
    fraction + Zeros(if |fraction| < 6 then 6 - |fraction| else 0)
  }

  /** What the two ParseInt results make: the guard is evaluated in 64-bit arithmetic. */
  function Combine(whole: int, frac: int): Option<int> {
    if whole > Quo(Wrap64(MAX_INT64 - frac), SOURCE_PRICE_SCALE) then None
    else
      var value := Wrap64(Wrap64(whole * SOURCE_PRICE_SCALE) + frac);
      if value <= 0 then None else Some(value)
  }

  function ParseSourcePrice(raw: string): Option<int> {
    var s := TrimSpace(raw);
    if s == "" || s[0] == '-' then None else ParseParts(Split(s, '.'))
  }

  function Fraction(parts: seq<string>): string {
    if |parts| == 2 then parts[1] else ""
  }

  function ParseParts(parts: seq<string>): Option<int>
    requires |parts| >= 1
  {
    if |parts| > 2 || parts[0] == "" || |Fraction(parts)| > 6 then None
    else
      match (ParseInt64(parts[0]), ParseInt64(PadFraction(Fraction(parts))))
      case (Some(whole), Some(frac)) => Combine(whole, frac)
      case _ => None
  }

  /** The parser as the service runs it, padding the fraction one zero at a time. */
  method ParsePrice(raw: string) returns (price: Option<int>)
    ensures price == ParseSourcePrice(raw)
  {
    var s := TrimSpace(raw);
    if s == "" || s[0] == '-' {
      return None;
    }
    var parts := Split(s, '.');
    if |parts| > 2 || |parts[0]| == 0 {
      return None;
    }
    var fraction := "";
    if |parts| == 2 {
      fraction := parts[1];
    }
    if |fraction| > 6 {
      return None;
    }
    ghost var given := fraction;
    while |fraction| < 6
      invariant |given| <= |fraction| <= 6
      invariant fraction == given + Zeros(|fraction| - |given|)
    {
      assert Zeros(|fraction| + 1 - |given|) == Zeros(|fraction| - |given|) + "0";
      fraction := fraction + "0";
    }
    assert fraction == PadFraction(given);
    var whole := ParseInt64(parts[0]);
    if whole.None? {
      return None;
    }
    var frac := ParseInt64(fraction);
    if frac.None? {
      return None;
    }
    return Combine(whole.value, frac.value);
  }

  /** fmt.Sprintf("%06d", fraction) for |fraction| < 1000000: the width counts the sign. */
  function Sprintf06(fraction: int): string
    requires -SOURCE_PRICE_SCALE < fraction < SOURCE_PRICE_SCALE
  {
    if fraction >= 0 then Padded(fraction, 6)
    else "-" + Padded(-fraction, if -fraction < 100_000 then 5 else 6)
  }

  function FormatSourcePrice(value: int): string {
    var whole, fraction := Quo(value, SOURCE_PRICE_SCALE), Rem(value, SOURCE_PRICE_SCALE);
    if fraction == 0 then FormatInt(whole)
    else FormatInt(whole) + "." + TrimZeros(Sprintf06(fraction))
  }

  /** The text PostgreSQL returns for a NUMERIC(24,6) column: always six decimals. */
  function StoredPrice(value: nat): string {
    Decimal(value / SOURCE_PRICE_SCALE) + "." + Padded(value % SOURCE_PRICE_SCALE, 6)
  }

  // ------------------------------------------------------------------ exactness on plain decimals

  /** The extractor's grammar: digits, then optionally a dot and one to six digits. */
  predicate DecimalPrice(s: string) { DecimalParts(Split(s, '.')) }

  predicate DecimalParts(parts: seq<string>) {
    && 1 <= |parts| <= 2
    && parts[0] != "" && AllDigits(parts[0])
    && (|parts| == 2 ==> 1 <= |parts[1]| <= 6 && AllDigits(parts[1]))
  }

  /** n followed by count zeros. */
  function Shift(n: nat, count: nat): nat {
    if count == 0 then n else 10 * Shift(n, count - 1)
  }

  lemma {:induction false} ShiftKeepsSize(n: nat, count: nat)
    ensures Shift(n, count) >= n
  {
    if count == 0 {
    } else {
      ShiftKeepsSize(n, count - 1);
    }
  }

  /** The exact number of millionths a plain decimal denotes, without any width limit. */
  function Micros(s: string): nat
    requires DecimalPrice(s)
  {
    PartsMicros(Split(s, '.'))
  }

  function PartsMicros(parts: seq<string>): nat
    requires DecimalParts(parts)
  {
    DigitsValue(parts[0]) * SOURCE_PRICE_SCALE + Shift(DigitsValue(Fraction(parts)), 6 - |Fraction(parts)|)
  }

  lemma {:induction false} AppendZerosValue(s: string, n: nat)
    requires AllDigits(s)
    ensures AllDigits(s + Zeros(n)) && DigitsValue(s + Zeros(n)) == Shift(DigitsValue(s), n)
  {
    if n == 0 {
      assert s + Zeros(0) == s;
    } else {
      AppendZerosValue(s, n - 1);
      var t := s + Zeros(n);
      assert t[..|t| - 1] == s + Zeros(n - 1);
      assert t[|t| - 1] == '0';
    }
  }

  lemma {:induction false} ParseDigits(s: string)
    requires s != "" && AllDigits(s)
    ensures ParseInt64(s) == if DigitsValue(s) <= MAX_INT64 then Some(DigitsValue(s)) else None
  {
  }

  lemma {:induction false} CombineExact(whole: nat, frac: nat)
    requires whole <= MAX_INT64 && frac < SOURCE_PRICE_SCALE
    ensures Combine(whole, frac) ==
            var n := whole * SOURCE_PRICE_SCALE + frac;
            if 1 <= n <= MAX_INT64 then Some(n) else None
  {
  }

  lemma {:induction false} SplitFirst(s: string, sep: char)
    requires s != "" && Split(s, sep)[0] != ""
    ensures s[0] == Split(s, sep)[0][0]
  {
  }

  /** A plain decimal has no surrounding blanks and no sign, so the parser sees its two numbers. */
  lemma {:induction false} PlainIsTrimmed(s: string)
    requires DecimalPrice(s)
    ensures s != "" && TrimSpace(s) == s && IsDigit(s[0])
  {
    var parts := Split(s, '.');
    SplitFirst(s, '.');
    assert IsDigit(parts[0][0]);
    var last := parts[|parts| - 1];
    assert IsDigit(last[|last| - 1]);
    SplitLast(s, '.');
    TrimSpaceKeeps(s);
  }

  lemma {:induction false} Scale()
    ensures Pow10(6) == SOURCE_PRICE_SCALE && Pow10(5) == 100_000
  {
  }

  lemma {:induction false} PadFractionValue(fraction: string)
    requires |fraction| <= 6 && AllDigits(fraction)
    ensures AllDigits(PadFraction(fraction))
    ensures DigitsValue(PadFraction(fraction)) == Shift(DigitsValue(fraction), 6 - |fraction|)
  {
    var n := 6 - |fraction|;
    AppendZerosValue(fraction, n);
    assert PadFraction(fraction) == fraction + Zeros(n);
  }

  lemma {:induction false} ParseSixDigits(s: string)
    requires |s| == 6 && AllDigits(s)
    ensures DigitsValue(s) < SOURCE_PRICE_SCALE && ParseInt64(s) == Some(DigitsValue(s))
  {
    DigitsValueBound(s);
    Scale();
    ParseDigits(s);
  }

  lemma {:induction false} ParsePartsExact(parts: seq<string>)
    requires DecimalParts(parts)
    ensures ParseParts(parts) == if 1 <= PartsMicros(parts) <= MAX_INT64 then Some(PartsMicros(parts)) else None
  {
    hide ParseInt64, DigitsValue, Shift, PadFraction, Combine;
    var frac := Shift(DigitsValue(Fraction(parts)), 6 - |Fraction(parts)|);
    ParseDigits(parts[0]);
    PadFractionValue(Fraction(parts));
    ParseSixDigits(PadFraction(Fraction(parts)));
    if DigitsValue(parts[0]) <= MAX_INT64 {
      CombineExact(DigitsValue(parts[0]), frac);
    }
  }

  /** On plain decimals the parser is exact: it accepts precisely the prices whose millionths
      fit a positive int64, and returns those millionths. */
  lemma {:induction false} ParseIsExact(s: string)
    requires DecimalPrice(s)
    ensures ParseSourcePrice(s) == if 1 <= Micros(s) <= MAX_INT64 then Some(Micros(s)) else None
  {
    PlainIsTrimmed(s);
    ParsePartsExact(Split(s, '.'));
  }

  /** Whatever the spelling, an accepted price is a positive int64 and its fraction was not
      negative: the wrap-around in the overflow guard rejects every "1.-5". */
  lemma {:induction false} AcceptedPriceIsPositive(raw: string)
    ensures ParseSourcePrice(raw).Some? ==> 1 <= ParseSourcePrice(raw).value <= MAX_INT64
    ensures ParseSourcePrice(raw).Some? ==>
              var frac := ParseInt64(PadFraction(Fraction(Split(TrimSpace(raw), '.'))));
              frac.Some? && frac.value >= 0
  {
    var s := TrimSpace(raw);
    if ParseSourcePrice(raw).Some? {
      SplitFirst(s, '.');
      var fraction := PadFraction(Fraction(Split(s, '.')));
      if ParseInt64(fraction).value < 0 {
        NegativeFractionRejected(ParseInt64(Split(s, '.')[0]).value, fraction);
      }
    }
  }

  lemma {:induction false} NegativeFractionRejected(whole: int, fraction: string)
    requires whole >= 0 && |fraction| == 6 && ParseInt64(fraction).Some? && ParseInt64(fraction).value < 0
    ensures Combine(whole, ParseInt64(fraction).value) == None
  {
  }

  // ------------------------------------------------------------------ every accepted spelling

  /** A price as it may be written: perhaps a plus, digits, and perhaps a dot with up to six characters
      more, of which the first may be a sign. After a minus they must all be zeros. */
  datatype Spelling = Spelling(plus: bool, whole: string, dot: bool, sign: string, fraction: string)

  predicate Spells(p: Spelling, s: string) {
    && s == (if p.plus then "+" else "") + p.whole + (if p.dot then "." + (p.sign + p.fraction) else "")
    && p.whole != "" && AllDigits(p.whole) && AllDigits(p.fraction) && |p.sign + p.fraction| <= 6
    && (p.sign == "" || p.sign == "+" || p.sign == "-")
    && (p.sign == "-" ==> p.fraction == Zeros(|p.fraction|)) && (!p.dot ==> p.sign == "" && p.fraction == "")
  }

  /** The millionths it denotes: the sign takes up a place, so "1.+5" is 1.05. */
  function SpelledMicros(p: Spelling): nat
    requires AllDigits(p.whole) && AllDigits(p.fraction) && |p.sign + p.fraction| <= 6
  {
    DigitsValue(p.whole) * 1_000_000 + Shift(DigitsValue(p.fraction), 6 - |p.sign + p.fraction|)
  }

  /** A string without a leading minus is read as the digits after its plus, if it has one. */
  lemma {:induction false} ReadUnsigned(plus: bool, digits: string)
    requires digits != "" && AllDigits(digits)
    ensures ParseInt64((if plus then "+" else "") + digits)
         == if DigitsValue(digits) <= MAX_INT64 then Some(DigitsValue(digits)) else None
  {
    var s := (if plus then "+" else "") + digits;
    assert (if plus then s[1..] else s) == digits;
  }

  lemma {:induction false} ZerosValue(n: nat)
    ensures DigitsValue(Zeros(n)) == 0
  {
    if n == 0 {
    } else {
      ZerosValue(n - 1);
      assert Zeros(n)[..n - 1] == Zeros(n - 1);
    }
  }

  lemma {:induction false} ZeroDigits(s: string)
    requires AllDigits(s) && DigitsValue(s) == 0
    ensures s == Zeros(|s|)
  {
    if s == "" {
    } else {
      ZeroDigits(s[..|s| - 1]);
      assert s == s[..|s| - 1] + [s[|s| - 1]];
    }
  }

  lemma {:induction false} PlaceValue(s: string)
    requires AllDigits(s) && |s| <= 6
    ensures DigitsValue(s) < 1_000_000
  {
    DigitsValueBound(s);
    Scale();
    PowersGrow(|s|);
  }

  lemma {:induction false} PowersGrow(n: nat)
    requires n <= 6
    ensures Pow10(n) <= Pow10(6)
    decreases 6 - n
  {
    if n < 6 { PowersGrow(n + 1); }
  }

  lemma {:induction false} ReadMinusZeros(digits: string)
    requires digits != "" && AllDigits(digits) && DigitsValue(digits) == 0
    ensures ParseInt64("-" + digits) == Some(0)
  {
    assert ("-" + digits)[1..] == digits;
  }

  /** The fraction as it is padded and read. */
  lemma {:induction false} ReadFraction(sign: string, digits: string)
    requires AllDigits(digits) && |sign + digits| <= 6 && (sign == "" || sign == "+" || sign == "-")
    requires sign == "-" ==> digits == Zeros(|digits|)
    ensures ParseInt64(PadFraction(sign + digits)) == Some(Shift(DigitsValue(digits), 6 - |sign + digits|))
    ensures Shift(DigitsValue(digits), 6 - |sign + digits|) < 1_000_000
  {
    var n := 6 - |sign + digits|;
    var padded := digits + Zeros(n);
    assert PadFraction(sign + digits) == sign + padded;
    AppendZerosValue(digits, n);
    PlaceValue(padded);
    hide PadFraction, Shift, ParseInt64, DigitsValue, Zeros, AllDigits;
    if sign == "-" {
      ZerosValue(|digits|);
      ShiftZero(n);
      ReadMinusZeros(padded);
    } else {
      ReadUnsigned(sign == "+", padded);
      assert (if sign == "+" then "+" else "") + padded == sign + padded;
    }
  }

  lemma {:induction false} SplitSpelling(p: Spelling, s: string)
    requires Spells(p, s)
    ensures var left, right := (if p.plus then "+" else "") + p.whole, p.sign + p.fraction;
            Split(s, '.') == if p.dot then [left, right] else [left]
    ensures s != "" && s[0] != '-'
  {
    var left, right := (if p.plus then "+" else "") + p.whole, p.sign + p.fraction;
    DotFree(p.whole);
    DotFree(p.fraction);
    assert '.' !in left && '.' !in right && s[0] == left[0];
    hide Split, AllDigits, Zeros;
    if p.dot {
      assert s == left + ['.'] + right;
      SplitAtSeparator(left, right, '.');
      SplitWithoutSeparator(right, '.');
    } else {
      assert s == left;
      SplitWithoutSeparator(left, '.');
    }
  }

  /** Whatever is spelled in this way is read as what it denotes, if that is a positive int64. */
  lemma {:induction false} SpelledIsRead(raw: string, p: Spelling)
    requires Spells(p, TrimSpace(raw))
    ensures ParseSourcePrice(raw)
         == if 1 <= SpelledMicros(p) <= MAX_INT64 then Some(SpelledMicros(p)) else None
  {
    hide Split, PadFraction, Combine, TrimSpace, Zeros, Shift, DigitsValue, ParseInt64;
    var s := TrimSpace(raw);
    SplitSpelling(p, s);
    ReadUnsigned(p.plus, p.whole);
    ReadFraction(p.sign, p.fraction);
    assert p.dot || p.sign + p.fraction == "";
    if DigitsValue(p.whole) <= MAX_INT64 {
      CombineExact(DigitsValue(p.whole), Shift(DigitsValue(p.fraction), 6 - |p.sign + p.fraction|));
    }
  }

  /** Whatever is accepted is spelled in this way. */
  lemma {:induction false} ReadIsSpelled(raw: string) returns (p: Spelling)
    requires ParseSourcePrice(raw).Some?
    ensures Spells(p, TrimSpace(raw))
  {
    hide Split, Combine, TrimSpace, ParseInt64, PadFraction, Zeros, AllDigits;
    var s := TrimSpace(raw);
    var parts := Split(s, '.');
    AcceptedPriceIsPositive(raw);
    SplitFirst(s, '.');
    SplitJoins(s, '.');
    var left, right := parts[0], Fraction(parts);
    var plus := left[0] == '+';
    var whole := if plus then left[1..] else left;
    var signed := right != "" && (right[0] == '+' || right[0] == '-');
    var sign, fraction := if signed then right[..1] else "", if signed then right[1..] else right;
    assert left == (if plus then "+" else "") + whole;
    ReadParts(left, whole, plus, right, sign, fraction);
    p := Spelling(plus, whole, |parts| == 2, sign, fraction);
    assert right == sign + fraction;
    assert |parts| == 2 ==> parts[1..] == [right];
    assert s == left + (if |parts| == 2 then "." + right else "");
  }

  lemma {:induction false} ReadParts(left: string, whole: string, plus: bool, right: string, sign: string,
                                     fraction: string)
    requires left != "" && left[0] != '-' && plus == (left[0] == '+') && whole == if plus then left[1..] else left
    requires ParseInt64(left).Some? && |right| <= 6
    requires ParseInt64(PadFraction(right)).Some? && ParseInt64(PadFraction(right)).value >= 0
    requires var signed := right != "" && (right[0] == '+' || right[0] == '-');
             sign == (if signed then right[..1] else "") && fraction == if signed then right[1..] else right
    ensures whole != "" && AllDigits(whole) && AllDigits(fraction)
    ensures (sign == "" || sign == "+" || sign == "-") && (sign == "-" ==> fraction == Zeros(|fraction|))
  {
    var n := 6 - |right|;
    var padded := PadFraction(right);
    var rest := if sign == "" then padded else padded[1..];
    assert padded == right + Zeros(n);
    assert rest == fraction + Zeros(n);
    assert AllDigits(rest);
    hide PadFraction;
    DigitsOfPrefix(fraction, Zeros(n));
    if sign == "-" {
      AppendZerosValue(fraction, n);
      ShiftKeepsSize(DigitsValue(fraction), n);
      ZeroDigits(fraction);
    }
  }

  lemma {:induction false} DigitsOfPrefix(a: string, b: string)
    requires AllDigits(a + b)
    ensures AllDigits(a)
  {
    assert forall i :: 0 <= i < |a| ==> (a + b)[i] == a[i];
  }

  predicate Denotes(p: Spelling, s: string, v: int) { Spells(p, s) && SpelledMicros(p) == v }

  /** The parser accepts precisely these spellings, as far as they denote a positive int64 of
      millionths, and returns what they denote. */
  lemma {:induction false} ParseMeans(raw: string, v: int)
    ensures ParseSourcePrice(raw) == Some(v) <==>
            1 <= v <= 0x7FFF_FFFF_FFFF_FFFF && exists p :: Denotes(p, TrimSpace(raw), v)
  {
    hide ParseSourcePrice, Spells, TrimSpace, SpelledMicros;
    if ParseSourcePrice(raw) == Some(v) {
      var p := ReadIsSpelled(raw);
      SpelledIsRead(raw, p);
      assert Denotes(p, TrimSpace(raw), v);
    }
    if p :| Denotes(p, TrimSpace(raw), v) {
      SpelledIsRead(raw, p);
    }
  }

  // ------------------------------------------------------------------ round trips

  lemma {:induction false} DotFree(s: string)
    requires AllDigits(s)
    ensures '.' !in s
  {
  }

  /** Joining two runs of digits with a dot gives a plain decimal with exactly those parts. */
  lemma {:induction false} JoinParts(whole: string, fraction: string)
    requires whole != "" && AllDigits(whole) && fraction != "" && AllDigits(fraction) && |fraction| <= 6
    ensures DecimalPrice(whole + "." + fraction)
    ensures Split(whole + "." + fraction, '.') == [whole, fraction]
    ensures Micros(whole + "." + fraction) ==
            DigitsValue(whole) * SOURCE_PRICE_SCALE + Shift(DigitsValue(fraction), 6 - |fraction|)
  {
    DotFree(whole);
    DotFree(fraction);
    SplitAtSeparator(whole, fraction, '.');
    SplitWithoutSeparator(fraction, '.');
    assert Split(whole + "." + fraction, '.') == [whole, fraction];
  }

  lemma {:induction false} StoredMicros(value: nat)
    ensures DecimalPrice(StoredPrice(value)) && Micros(StoredPrice(value)) == value
  {
    Scale();
    DecimalValue(value / SOURCE_PRICE_SCALE);
    PaddedValue(value % SOURCE_PRICE_SCALE, 6);
    JoinParts(Decimal(value / SOURCE_PRICE_SCALE), Padded(value % SOURCE_PRICE_SCALE, 6));
  }

  /** Dropping trailing zeros of a non-zero fraction keeps its value in millionths. */
  lemma {:induction false} TrimmedFraction(fraction: nat)
    requires 0 < fraction < SOURCE_PRICE_SCALE
    ensures var t := TrimZeros(Padded(fraction, 6));
            1 <= |t| <= 6 && AllDigits(t) && Shift(DigitsValue(t), 6 - |t|) == fraction
  {
    var padded := Padded(fraction, 6);
    var trimmed := TrimZeros(padded);
    Scale();
    PaddedValue(fraction, 6);
    TrimZerosPrefix(padded);
    forall i | 0 <= i < |trimmed| ensures IsDigit(trimmed[i]) { assert trimmed[i] == padded[i]; }
    AppendZerosValue(trimmed, 6 - |trimmed|);
  }

  lemma {:induction false} WholePrice(whole: string)
    requires whole != "" && AllDigits(whole)
    ensures DecimalPrice(whole) && Micros(whole) == DigitsValue(whole) * SOURCE_PRICE_SCALE
  {
    DotFree(whole);
    SplitWithoutSeparator(whole, '.');
    ShiftZero(6);
  }

  lemma {:induction false} ShiftZero(count: nat)
    ensures Shift(0, count) == 0
  {
    if count == 0 {
    } else {
      ShiftZero(count - 1);
    }
  }

  lemma {:induction false} PrintedMicros(value: nat)
    requires value > 0
    ensures DecimalPrice(FormatSourcePrice(value)) && Micros(FormatSourcePrice(value)) == value
  {
    var whole, fraction := value / SOURCE_PRICE_SCALE, value % SOURCE_PRICE_SCALE;
    DecimalValue(whole);
    if fraction == 0 {
      WholePrice(Decimal(whole));
    } else {
      TrimmedFraction(fraction);
      assert FormatSourcePrice(value) == Decimal(whole) + "." + TrimZeros(Padded(fraction, 6));
      hide FormatSourcePrice, TrimZeros, Padded, Decimal, Shift, DecimalPrice, Micros;
      JoinParts(Decimal(whole), TrimZeros(Padded(fraction, 6)));
    }
  }

  /** A printed price parses back to itself exactly when it is positive. */
  lemma {:induction false} PriceRoundTrip(value: int)
    requires IsInt64(value)
    ensures ParseSourcePrice(FormatSourcePrice(value)) == Some(value) <==> value > 0
  {
    AcceptedPriceIsPositive(FormatSourcePrice(value));
    if value > 0 {
      PrintedMicros(value);
      ParseIsExact(FormatSourcePrice(value));
    }
  }

  /** A price written to the quotations table and read back is the same number of millionths. */
  lemma {:induction false} StoredPriceRoundTrip(value: nat)
    requires 1 <= value <= MAX_INT64
    ensures ParseSourcePrice(StoredPrice(value)) == Some(value)
  {
    StoredMicros(value);
    ParseIsExact(StoredPrice(value));
  }


  /** Below zero printing is not even injective: the width counts the sign of the fraction. */
  lemma {:induction false} NegativesCollide()
    ensures FormatSourcePrice(-1_500_000) == FormatSourcePrice(-1_050_000) == "-1.-5"
  {
    SixPlaces();
    TrimmedAlike();
    assert FormatInt(-1) == "-1";
    hide Padded, TrimZeros, FormatInt;
    assert "-" + "500000" == "-500000" && "-" + "50000" == "-50000";
    assert "-1" + "." + "-5" == "-1.-5";
  }

  lemma {:induction false} TrimmedAlike()
    ensures TrimZeros("-500000") == "-5" && TrimZeros("-50000") == "-5"
  {
    assert "-500000"[..6] == "-50000";
    assert "-50000"[..5] == "-5000";
    assert "-5000"[..4] == "-500";
    assert "-500"[..3] == "-50";
    assert "-50"[..2] == "-5";
    assert TrimZeros("-5") == "-5";
    assert TrimZeros("-50") == "-5";
    assert TrimZeros("-500") == "-5";
    assert TrimZeros("-5000") == "-5";
  }

  lemma {:induction false} SixPlaces()
    ensures Padded(500_000, 6) == "500000" && Padded(50_000, 5) == "50000"
  {
    assert Padded(5, 1) == "5" && Padded(50, 2) == "50" && Padded(500, 3) == "500";
    assert Padded(5_000, 4) == "5000";
    assert Padded(50_000, 5) == "50000";
  }

  // ------------------------------------------------------------------ the shortest spelling

  lemma {:induction false} DecimalShortest(s: string)
    requires s != "" && AllDigits(s)
    ensures |Decimal(DigitsValue(s))| <= |s|
  {
    if |s| == 1 {
      assert s[..0] == "";
    } else {
      var init := s[..|s| - 1];
      DecimalShortest(init);
      assert DigitsValue(s) / 10 == DigitsValue(init);
    }
  }

  lemma {:induction false} PaddedOfValue(s: string)
    requires AllDigits(s)
    ensures Padded(DigitsValue(s), |s|) == s
  {
    if s == "" {
    } else {
      var init := s[..|s| - 1];
      PaddedOfValue(init);
      assert DigitsValue(s) / 10 == DigitsValue(init) && DigitsValue(s) % 10 == DigitValue(s[|s| - 1]);
      assert s == init + [s[|s| - 1]];
    }
  }

  lemma {:induction false} TrimmedZeros(s: string, n: nat)
    ensures TrimZeros(s + Zeros(n)) == TrimZeros(s)
  {
    if n == 0 {
      assert s + Zeros(0) == s;
    } else {
      TrimmedZeros(s, n - 1);
      assert (s + Zeros(n))[..|s + Zeros(n)| - 1] == s + Zeros(n - 1);
    }
  }

  lemma {:induction false} ShortestFraction(f: string)
    requires AllDigits(f) && |f| <= 6
    ensures var n := Shift(DigitsValue(f), 6 - |f|); n < SOURCE_PRICE_SCALE && |TrimZeros(Padded(n, 6))| <= |f|
  {
    var six := f + Zeros(6 - |f|);
    AppendZerosValue(f, 6 - |f|);
    PaddedOfValue(six);
    PlaceValue(six);
    TrimmedZeros(f, 6 - |f|);
    TrimZerosPrefix(f);
  }

  /** A price is printed in the shortest way there is: no plain decimal of the same value has fewer
      characters. */
  lemma {:induction false} PrintedIsShortest(s: string)
    requires DecimalPrice(s) && Micros(s) > 0
    ensures |FormatSourcePrice(Micros(s))| <= |s|
  {
    hide Split, DigitsValue, TrimZeros, Padded, Decimal;
    var parts := Split(s, '.');
    SplitJoins(s, '.');
    assert |parts| == 2 ==> parts[1..] == [parts[1]];
    DecimalShortest(parts[0]);
    ShortestFraction(Fraction(parts));
    var whole, fraction := DigitsValue(parts[0]), Shift(DigitsValue(Fraction(parts)), 6 - |Fraction(parts)|);
    assert Micros(s) / SOURCE_PRICE_SCALE == whole && Micros(s) % SOURCE_PRICE_SCALE == fraction;
    if |parts| == 1 { ZeroShift(Fraction(parts)); }
  }

  lemma {:induction false} ZeroShift(f: string)
    requires f == ""
    ensures Shift(DigitsValue(f), 6 - |f|) == 0
  {
    ShiftZero(6);
  }

  // ------------------------------------------------------------------ extracted metadata

  datatype Metadata = Metadata(name: string, price: string, currency: string)

  predicate CurrencyCode(code: string) {
    |code| == 3 && forall i :: 0 <= i < |code| ==> 'A' <= code[i] <= 'Z'
  }

  predicate AcceptableMetadata(m: Metadata) {
    && TrimSpace(m.name) != ""
    && CurrencyCode(ToUpper(TrimSpace(m.currency)))
    && DecimalPrice(TrimSpace(m.price))
    && exists i :: 0 <= i < |TrimSpace(m.price)| && '1' <= TrimSpace(m.price)[i] <= '9'
  }

  /** validMetadata on a name whose entities and inner blanks are already normalised. */
  method ValidMetadata(m: Metadata) returns (ok: bool)
    ensures ok == AcceptableMetadata(m)
    ensures ok <==> var code, price := ToUpper(TrimSpace(m.currency)), TrimSpace(m.price);
                    && TrimSpace(m.name) != "" && DecimalPrice(price)
                    && |code| == 3 && (forall i :: 0 <= i < 3 ==> 'A' <= code[i] <= 'Z')
                    && exists i :: 0 <= i < |price| && price[i] in "123456789"
  {
    var name, price, currency := TrimSpace(m.name), TrimSpace(m.price), ToUpper(TrimSpace(m.currency));
    if name == "" || currency == "" || !DecimalPrice(price) {
      return false;
    }
    for i := 0 to |currency|
      invariant forall j :: 0 <= j < i ==> 'A' <= currency[j] <= 'Z'
    {
      if currency[i] < 'A' || currency[i] > 'Z' {
        return false;
      }
    }
    if |currency| != 3 {
      return false;
    }
    var allZero := true;
    for i := 0 to |price|
      invariant allZero
      invariant forall j :: 0 <= j < i ==> !('1' <= price[j] <= '9')
    {
      if '1' <= price[i] <= '9' {
        allZero := false;
        break;
      }
    }
    return !allZero;
  }

  lemma {:induction false} NonZeroDigit(s: string, i: nat)
    requires AllDigits(s) && i < |s| && s[i] != '0'
    ensures DigitsValue(s) > 0
  {
    if i == |s| - 1 {
    } else {
      NonZeroDigit(s[..|s| - 1], i);
    }
  }

  lemma {:induction false} NonZeroMicros(parts: seq<string>, k: nat)
    requires DecimalParts(parts) && k < |parts| && DigitsValue(parts[k]) > 0
    ensures PartsMicros(parts) >= 1
  {
    ShiftKeepsSize(DigitsValue(Fraction(parts)), 6 - |Fraction(parts)|);
  }

  /** An extracted price the service accepts as metadata can only fail to parse by overflow. */
  lemma {:induction false} MetadataPriceOnlyOverflows(m: Metadata)
    requires AcceptableMetadata(m)
    ensures Micros(TrimSpace(m.price)) >= 1
    ensures ParseSourcePrice(m.price).None? <==> Micros(TrimSpace(m.price)) > MAX_INT64
    ensures ParseSourcePrice(m.price).Some? ==> ParseSourcePrice(m.price).value == Micros(TrimSpace(m.price))
  {
    var s := TrimSpace(m.price);
    var i :| 0 <= i < |s| && '1' <= s[i] <= '9';
    var k, j := SplitHolds(s, '.', i);
    NonZeroDigit(Split(s, '.')[k], j);
    NonZeroMicros(Split(s, '.'), k);
    ParseIsExact(s);
    PlainIsTrimmed(s);
  }

  // ------------------------------------------------------------------ quotation arithmetic

  datatype Amounts = Amounts(product: int, fee: int, total: int)

  /** The unlimited-precision amounts: half-up product, half-up 5% fee, flat shipping. */
  function IdealProduct(price: int, quantity: int, rate: int): int {
    (price * quantity * rate + SOURCE_PRICE_SCALE / 2) / SOURCE_PRICE_SCALE
  }

  function IdealFee(product: int): int {
    (product * 5 + 50) / 100
  }

  function IdealTotal(price: int, quantity: int, rate: int): int {
    var product := IdealProduct(price, quantity, rate);
    product + IdealFee(product) + SHIPPING_FEE_VND
  }

  /** Calculate: big.Int steps on unbounded integers, machine steps through Wrap64. The result
      is present exactly when the inputs are positive and the ideal total fits an int64. */
  method Calculate(price: int, quantity: int, rate: int) returns (r: Option<Amounts>)
    requires IsInt64(price) && IsInt64(quantity) && IsInt64(rate)
    ensures r == Quote(price, quantity, rate)
    ensures forall p, f :: Rounded(price * quantity * rate, 1_000_000, p) && Rounded(5 * p, 100, f) ==>
              r == if price > 0 && quantity > 0 && rate > 0 && p + f + 120_000 <= 0x7FFF_FFFF_FFFF_FFFF
                   then Some(Amounts(p, f, p + f + 120_000)) else None
  {
    forall p, f | Rounded(price * quantity * rate, 1_000_000, p) && Rounded(5 * p, 100, f)
      ensures Quote(price, quantity, rate)
           == if price > 0 && quantity > 0 && rate > 0 && p + f + 120_000 <= 0x7FFF_FFFF_FFFF_FFFF
              then Some(Amounts(p, f, p + f + 120_000)) else None
    {
      QuoteMeans(price, quantity, rate, p, f);
    }
    if price <= 0 || quantity <= 0 || rate <= 0 {
      return None;
    }
    var product := price;
    product := product * quantity;
    product := product * rate;
    assert product > 0 by { Positive(price, quantity); Positive(price * quantity, rate); }
    product := product + SOURCE_PRICE_SCALE / 2;
    product := product / SOURCE_PRICE_SCALE;
    if !IsInt64(product) {
      return None;
    }
    var amount := product;
    var fee := amount;
    fee := fee * 5;
    fee := fee + 50;
    fee := fee / 100;
    if !IsInt64(fee) || amount > Wrap64(Wrap64(MAX_INT64 - fee) - SHIPPING_FEE_VND) {
      return None;
    }
    return Some(Amounts(amount, fee, Wrap64(Wrap64(amount + fee) + SHIPPING_FEE_VND)));
  }

  /** Quote, stated outright: the ideal amounts whenever they can be represented. */
  function Quote(price: int, quantity: int, rate: int): Option<Amounts> {
    if price > 0 && quantity > 0 && rate > 0 && IdealTotal(price, quantity, rate) <= MAX_INT64
    then Some(Amounts(IdealProduct(price, quantity, rate), IdealFee(IdealProduct(price, quantity, rate)),
                      IdealTotal(price, quantity, rate)))
    else None
  }

  /** r is n divided by d and rounded to the nearest integer, halves up. */
  predicate Rounded(n: int, d: int, r: int) { 2 * d * r - d <= 2 * n < 2 * d * r + d }

  /** With p the exact product in VND and f 5% of it, both rounded half up, a quotation is given exactly
      when the inputs are positive and p + f + 120,000 is an int64, and it consists of these. */
  lemma {:induction false} QuoteMeans(price: int, quantity: int, rate: int, p: int, f: int)
    requires 2_000_000 * p - 1_000_000 <= 2 * (price * quantity * rate) < 2_000_000 * p + 1_000_000
    requires 100 * f - 50 <= 5 * p < 100 * f + 50
    ensures Quote(price, quantity, rate)
         == if price > 0 && quantity > 0 && rate > 0 && p + f + 120_000 <= 0x7FFF_FFFF_FFFF_FFFF
            then Some(Amounts(p, f, p + f + 120_000)) else None
  {
    var n := price * quantity * rate;
    assert IdealProduct(price, quantity, rate) == (n + 500_000) / 1_000_000 == p;
    assert IdealFee(p) == f;
  }

  lemma {:induction false} Positive(a: int, b: int)
    requires a > 0 && b > 0
    ensures a * b > 0
  {
  }

  /** The product is price*quantity*rate rounded half up, the fee is 5% of it rounded half up,
      and the three parts add up to a total of at least the shipping fee. */
  lemma {:induction false} QuoteRounding(price: int, quantity: int, rate: int)
    requires Quote(price, quantity, rate).Some?
    ensures var a := Quote(price, quantity, rate).value;
            && 2 * SOURCE_PRICE_SCALE * a.product - SOURCE_PRICE_SCALE <= 2 * (price * quantity * rate)
            && 2 * (price * quantity * rate) < 2 * SOURCE_PRICE_SCALE * a.product + SOURCE_PRICE_SCALE
            && 100 * a.fee - 50 <= 5 * a.product < 100 * a.fee + 50
            && a.product >= 0 && a.fee >= 0
            && a.total == a.product + a.fee + SHIPPING_FEE_VND
            && SHIPPING_FEE_VND <= a.total <= MAX_INT64
  {
  }

  lemma {:induction false} ProductMonotone(a: int, b: int, c: int, a': int, b': int, c': int)
    requires 0 < a <= a' && 0 < b <= b' && 0 < c <= c'
    ensures a * b * c <= a' * b' * c'
  {
    MulMonotone(a, b, a', b');
    Positive(a, b);
    MulMonotone(a * b, c, a' * b', c');
  }

  lemma {:induction false} MulMonotone(a: int, b: int, a': int, b': int)
    requires 0 < a <= a' && 0 < b <= b'
    ensures a * b <= a' * b'
  {
  }

  /** Raising price, quantity or rate never lowers an amount, and a quotation that is
      representable stays so when the arguments shrink. */
  lemma {:induction false} QuoteMonotone(price: int, quantity: int, rate: int, price': int, quantity': int, rate': int)
    requires 0 < price <= price' && 0 < quantity <= quantity' && 0 < rate <= rate'
    requires Quote(price', quantity', rate').Some?
    ensures Quote(price, quantity, rate).Some?
    ensures var a, a' := Quote(price, quantity, rate).value, Quote(price', quantity', rate').value;
            a.product <= a'.product && a.fee <= a'.fee && a.total <= a'.total
  {
    ProductMonotone(price, quantity, rate, price', quantity', rate');
  }

  // ------------------------------------------------------------------ deposit split

  /** The order service's 70% deposit, divided before it is multiplied. */
  function Deposit(total: int): int {
    Quo(total, 100) * 70 + Quo(Rem(total, 100) * 70, 100)
  }

  /** The split is exact, needs no 128-bit step, and leaves both payments positive for every
      total a quotation can carry; 1 is the only positive total with an empty deposit. */
  lemma {:induction false} DepositSplit(total: int)
    requires 1 <= total <= MAX_INT64
    ensures Deposit(total) == 70 * total / 100
    ensures IsInt64(Quo(total, 100) * 70) && IsInt64(Rem(total, 100) * 70)
    ensures 0 <= Deposit(total) < total
    ensures Deposit(total) == 0 <==> total == 1
    ensures total - Deposit(total) > 0
    ensures total >= SHIPPING_FEE_VND ==> Deposit(total) > 0
  {
  }
}

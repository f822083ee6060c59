/** Go's `strings` and `strconv` helpers used by the services, on sequences of characters. */
module Text {

  datatype Option<+T> = None | Some(value: T)

  /** unicode.IsSpace. */
  predicate IsSpace(c: char) {
    c in "\t\n\r " || c == '\U{000B}' || c == '\U{000C}' || c == '\U{0085}' || c == '\U{00A0}' ||
    c == '\U{1680}' || '\U{2000}' <= c <= '\U{200A}' || c == '\U{2028}' || c == '\U{2029}' ||
    c == '\U{202F}' || c == '\U{205F}' || c == '\U{3000}'
  }

  function TrimLeft(s: string): string {
    if s != "" && IsSpace(s[0]) then TrimLeft(s[1..]) else s
  }

  function TrimRight(s: string): string {
    if s != "" && IsSpace(s[|s| - 1]) then TrimRight(s[..|s| - 1]) else s
  }

  /** strings.TrimSpace. */
  function TrimSpace(s: string): string {
    TrimRight(TrimLeft(s))
  }

  lemma {:induction false} TrimSpaceKeeps(s: string)
    requires s == "" || (!IsSpace(s[0]) && !IsSpace(s[|s| - 1]))
    ensures TrimSpace(s) == s
  {
  }

  /** What is cut off is blank, and what is left starts and ends with no blank. */
  lemma {:induction false} TrimSpaceMeans(s: string) returns (i: nat, j: nat)
    ensures i <= j <= |s| && TrimSpace(s) == s[i..j]
    ensures forall k :: 0 <= k < i || j <= k < |s| ==> IsSpace(s[k])
    ensures i < j ==> !IsSpace(s[i]) && !IsSpace(s[j - 1])
  {
    hide IsSpace;
    i := TrimLeftMeans(s);
    var t := s[i..];
    var n := TrimRightMeans(t);
    j := i + n;
    assert TrimSpace(s) == t[..n] == s[i..j];
    forall k | j <= k < |s| ensures IsSpace(s[k]) { assert s[k] == t[k - i]; }
    if n > 0 { assert t[0] == s[i] && t[n - 1] == s[j - 1]; }
  }

  lemma {:induction false} TrimLeftMeans(s: string) returns (i: nat)
    ensures i <= |s| && TrimLeft(s) == s[i..] && (forall k :: 0 <= k < i ==> IsSpace(s[k]))
    ensures i < |s| ==> !IsSpace(s[i])
  {
    hide IsSpace;
    i := 0;
    if s != "" && IsSpace(s[0]) {
      i := TrimLeftMeans(s[1..]);
      i := i + 1;
      forall k | 0 < k < i ensures IsSpace(s[k]) { assert s[k] == s[1..][k - 1]; }
    }
  }

  lemma {:induction false} TrimRightMeans(s: string) returns (n: nat)
    ensures n <= |s| && TrimRight(s) == s[..n] && (forall k :: n <= k < |s| ==> IsSpace(s[k]))
    ensures n > 0 ==> !IsSpace(s[n - 1])
  {
    hide IsSpace;
    n := |s|;
    if s != "" && IsSpace(s[|s| - 1]) {
      n := TrimRightMeans(s[..|s| - 1]);
      forall k | n <= k < |s| - 1 ensures IsSpace(s[k]) { assert s[k] == s[..|s| - 1][k]; }
    } else {
      assert s[..|s|] == s;
    }
  }

  function ToUpperChar(c: char): char {
    if 'a' <= c <= 'z' then ((c as int) - 32) as char else c
  }

  function ToLowerChar(c: char): char {
    if 'A' <= c <= 'Z' then ((c as int) + 32) as char else c
  }

  /** strings.ToUpper on ASCII letters. */
  function ToUpper(s: string): (r: string)
    ensures |r| == |s|
  {
    seq(|s|, i requires 0 <= i < |s| => ToUpperChar(s[i]))
  }

  /** strings.ToLower on ASCII letters. */
  function ToLower(s: string): (r: string)
    ensures |r| == |s|
  {
    seq(|s|, i requires 0 <= i < |s| => ToLowerChar(s[i]))
  }

  /** Equal but for the case of ASCII letters. */
  predicate SameLetters(a: string, b: string) {
    |a| == |b| && forall i :: 0 <= i < |a| ==> SameLetter(a[i], b[i])
  }

  predicate SameLetter(a: char, b: char) {
    a == b || ('a' <= a <= 'z' && b as int == a as int - 32) || ('A' <= a <= 'Z' && b as int == a as int + 32)
  }

  lemma {:induction false} LetterFolded(a: char, b: char)
    requires SameLetter(a, b)
    ensures ToLowerChar(a) == ToLowerChar(b) && ToUpperChar(a) == ToUpperChar(b)
    ensures IsSpace(a) <==> IsSpace(b)
  {
  }

  lemma {:induction false} LowerTwice(c: char)
    ensures ToLowerChar(ToLowerChar(c)) == ToLowerChar(c) && (IsSpace(ToLowerChar(c)) <==> IsSpace(c))
  {
  }

  /** Upper case is the same text without small letters, lower case the same text without capitals. */
  lemma {:induction false} FoldingMeans(s: string)
    ensures SameLetters(s, ToUpper(s)) && forall i :: 0 <= i < |s| ==> !('a' <= ToUpper(s)[i] <= 'z')
    ensures SameLetters(s, ToLower(s)) && forall i :: 0 <= i < |s| ==> !('A' <= ToLower(s)[i] <= 'Z')
  {
  }

  /** Cutting off the blanks before i and from j on leaves the part between. */
  lemma {:induction false} TrimmedPart(s: string, i: nat, j: nat)
    requires i <= j <= |s| && forall k :: 0 <= k < i || j <= k < |s| ==> IsSpace(s[k])
    requires i < j ==> !IsSpace(s[i]) && !IsSpace(s[j - 1])
    ensures TrimSpace(s) == s[i..j]
  {
    var a, b := TrimSpaceMeans(s);
    hide IsSpace, TrimSpace;
    if i < j || a < b {
      assert a == i && b == j;
    }
  }

  /** The case of letters makes no difference to what is trimmed, nor after folding to the result. */
  lemma {:induction false} SameFolded(a: string, b: string)
    requires SameLetters(a, b)
    ensures SameLetters(TrimSpace(a), TrimSpace(b))
    ensures ToLower(TrimSpace(a)) == ToLower(TrimSpace(b)) && ToUpper(TrimSpace(a)) == ToUpper(TrimSpace(b))
  {
    var i, j := TrimSpaceMeans(a);
    forall k | 0 <= k < |a| ensures IsSpace(a[k]) <==> IsSpace(b[k]) { LetterFolded(a[k], b[k]); }
    hide IsSpace, TrimSpace;
    TrimmedPart(b, i, j);
    forall k | i <= k < j
      ensures ToLowerChar(a[k]) == ToLowerChar(b[k]) && ToUpperChar(a[k]) == ToUpperChar(b[k]) {
      LetterFolded(a[k], b[k]);
    }
    assert ToLower(a[i..j]) == ToLower(b[i..j]) && ToUpper(a[i..j]) == ToUpper(b[i..j]);
  }

  /** strings.Split for a one-character separator. */
  function Split(s: string, sep: char): (parts: seq<string>)
    ensures |parts| >= 1
  {
    if s == "" then [""]
    else
      var rest := Split(s[1..], sep);
      if s[0] == sep then [""] + rest
      else [[s[0]] + rest[0]] + rest[1..]
  }

  /** strings.Join for a one-character separator. */
  function Join(parts: seq<string>, sep: char): string
    requires |parts| >= 1
  {
    if |parts| == 1 then parts[0] else parts[0] + [sep] + Join(parts[1..], sep)
  }

  /** The parts joined again are the string, and none of them holds the separator. */
  lemma {:induction false} SplitJoins(s: string, sep: char)
    ensures Join(Split(s, sep), sep) == s && forall k :: 0 <= k < |Split(s, sep)| ==> sep !in Split(s, sep)[k]
  {
    if s == "" {
    } else {
      var rest := Split(s[1..], sep);
      SplitJoins(s[1..], sep);
      assert s == [s[0]] + s[1..];
      if s[0] == sep {
        assert ([""] + rest)[1..] == rest;
      } else {
        var parts := [[s[0]] + rest[0]] + rest[1..];
        assert parts[1..] == rest[1..];
        assert |rest| > 1 ==> Join(parts, sep) == [s[0]] + (rest[0] + [sep] + Join(rest[1..], sep));
      }
    }
  }

  lemma {:induction false} JoinSplits(parts: seq<string>, sep: char)
    requires |parts| >= 1 && forall k :: 0 <= k < |parts| ==> sep !in parts[k]
    ensures Split(Join(parts, sep), sep) == parts
  {
    if |parts| == 1 {
      SplitWithoutSeparator(parts[0], sep);
    } else {
      JoinSplits(parts[1..], sep);
      SplitAtSeparator(parts[0], Join(parts[1..], sep), sep);
    }
  }

  lemma {:induction false} SplitWithoutSeparator(s: string, sep: char)
    requires sep !in s
    ensures Split(s, sep) == [s]
  {
    if s == "" {
    } else {
      SplitWithoutSeparator(s[1..], sep);
      assert [s[0]] + s[1..] == s;
    }
  }

  lemma {:induction false} SplitAtSeparator(left: string, right: string, sep: char)
    requires sep !in left
    ensures Split(left + [sep] + right, sep) == [left] + Split(right, sep)
  {
    var s := left + [sep] + right;
    if left == "" {
      assert s[1..] == right;
    } else {
      assert s[1..] == left[1..] + [sep] + right;
      SplitAtSeparator(left[1..], right, sep);
      assert [left[0]] + left[1..] == left;
    }
  }

  lemma {:induction false} SplitLast(s: string, sep: char)
    requires s != ""
    ensures var last := Split(s, sep)[|Split(s, sep)| - 1];
            if s[|s| - 1] == sep then last == "" else last != "" && last[|last| - 1] == s[|s| - 1]
  {
    var rest := Split(s[1..], sep);
    if |s| == 1 {
      assert s[1..] == "" && rest == [""];
      assert Split(s, sep) == if s[0] == sep then ["", ""] else [[s[0]] + ""];
    } else {
      SplitLast(s[1..], sep);
      assert s[|s| - 1] == s[1..][|s| - 2];
      hide Split;
      SplitEnd(s, sep);
    }
  }

  /** The last part is that of the rest, with the first character before it if there is no other. */
  lemma {:induction false} SplitEnd(s: string, sep: char)
    requires |s| > 1
    ensures var rest, parts := Split(s[1..], sep), Split(s, sep);
            parts[|parts| - 1] == if |rest| == 1 && s[0] != sep then [s[0]] + rest[0] else rest[|rest| - 1]
  {
  }

  /** Every other character is in some part. */
  lemma {:induction false} SplitHolds(s: string, sep: char, i: nat) returns (k: nat, j: nat)
    requires i < |s| && s[i] != sep
    ensures k < |Split(s, sep)| && j < |Split(s, sep)[k]| && Split(s, sep)[k][j] == s[i]
  {
    if i == 0 {
      k, j := 0, 0;
    } else {
      var rest := Split(s[1..], sep);
      k, j := SplitHolds(s[1..], sep, i - 1);
      if s[0] == sep { k := k + 1; } else if k == 0 { j := j + 1; }
    }
  }

  const MAX_INT64: int := 0x7FFF_FFFF_FFFF_FFFF
  const MIN_INT64: int := -0x8000_0000_0000_0000

  predicate IsInt64(n: int) { MIN_INT64 <= n <= MAX_INT64 }

  /** The value a 64-bit register holds after an operation whose exact result is n. */
  function Wrap64(n: int): (r: int)
    ensures IsInt64(r)
    ensures IsInt64(n) ==> r == n
  {
    (n - MIN_INT64) % 0x1_0000_0000_0000_0000 + MIN_INT64
  }

  /** Go's integer division, which truncates toward zero. */
  function Quo(a: int, b: int): int
    requires b > 0
  {
    if a >= 0 then a / b else -((-a) / b)
  }

  /** Go's remainder, which takes the sign of the dividend. */
  function Rem(a: int, b: int): int
    requires b > 0
  {
    a - b * Quo(a, b)
  }

  predicate IsDigit(c: char) { '0' <= c <= '9' }

  predicate AllDigits(s: string) { forall i :: 0 <= i < |s| ==> IsDigit(s[i]) }

  function DigitValue(c: char): nat
    requires IsDigit(c)
  {
    c as int - '0' as int
  }

  function DigitChar(d: nat): (c: char)
    requires d < 10
    ensures IsDigit(c) && DigitValue(c) == d
  {
    ('0' as int + d) as char
  }

  /** The number a string of decimal digits denotes; the empty string denotes zero. */
  function DigitsValue(s: string): nat
    requires AllDigits(s)
  {
    if s == "" then 0 else 10 * DigitsValue(s[..|s| - 1]) + DigitValue(s[|s| - 1])
  }

  /** strconv.ParseInt(s, 10, 64). */
  function ParseInt64(s: string): Option<int> {
    var signed := s != "" && (s[0] == '+' || s[0] == '-');
    var digits := if signed then s[1..] else s;
    if digits == "" || !AllDigits(digits) then None
    else
      var magnitude: int := DigitsValue(digits);
      var n := if signed && s[0] == '-' then -magnitude else magnitude;
      if IsInt64(n) then Some(n) else None
  }

  /** strconv.FormatInt(n, 10) on non-negative numbers. */
  function Decimal(n: nat): (s: string)
    ensures s != "" && AllDigits(s)
  {
    if n < 10 then [DigitChar(n)] else Decimal(n / 10) + [DigitChar(n % 10)]
  }

  /** strconv.FormatInt(n, 10). */
  function FormatInt(n: int): string {
    if n < 0 then "-" + Decimal(-n) else Decimal(n)
  }

  /** The width lowest decimal digits of n, with leading zeros. */
  function Padded(n: nat, width: nat): (s: string)
    ensures |s| == width && AllDigits(s)
  {
    if width == 0 then "" else Padded(n / 10, width - 1) + [DigitChar(n % 10)]
  }

  function Pow10(width: nat): (p: nat)
    ensures p >= 1
  {
    if width == 0 then 1 else 10 * Pow10(width - 1)
  }

  lemma {:induction false} DecimalValue(n: nat)
    ensures DigitsValue(Decimal(n)) == n
  {
    var s := Decimal(n);
    if n < 10 {
      assert s[..|s| - 1] == "";
    } else {
      DecimalValue(n / 10);
      assert s[..|s| - 1] == Decimal(n / 10);
    }
  }

  lemma {:induction false} PaddedValue(n: nat, width: nat)
    requires n < Pow10(width)
    ensures DigitsValue(Padded(n, width)) == n
  {
    if width == 0 {
    } else {
      var s := Padded(n, width);
      PaddedValue(n / 10, width - 1);
      assert s[..|s| - 1] == Padded(n / 10, width - 1);
    }
  }

  lemma {:induction false} DigitsValueBound(s: string)
    requires AllDigits(s)
    ensures DigitsValue(s) < Pow10(|s|)
  {
    if s == "" {
    } else {
      DigitsValueBound(s[..|s| - 1]);
    }
  }

  /** n zeros. */
  function Zeros(n: nat): (z: string)
    ensures |z| == n && AllDigits(z)
  {
    if n == 0 then "" else Zeros(n - 1) + "0"
  }

  /** strings.TrimRight(s, "0"). */
  function TrimZeros(s: string): string {
    if s != "" && s[|s| - 1] == '0' then TrimZeros(s[..|s| - 1]) else s
  }

  /** Trimming zeros keeps a prefix, and the zeros put back give the string again. */
  lemma {:induction false} TrimZerosPrefix(s: string)
    ensures |TrimZeros(s)| <= |s|
    ensures s == TrimZeros(s) + Zeros(|s| - |TrimZeros(s)|)
  {
    if s != "" && s[|s| - 1] == '0' {
      var init := s[..|s| - 1];
      TrimZerosPrefix(init);
      var gap := |init| - |TrimZeros(init)|;
      assert Zeros(gap + 1) == Zeros(gap) + "0";
      assert s == init + "0" && TrimZeros(s) == TrimZeros(init);
      hide TrimZeros, Zeros, AllDigits;
      assert s == TrimZeros(init) + (Zeros(gap) + "0");
    }
  }
}

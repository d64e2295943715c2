/**
 * Decimal printing and parsing of unsigned integers (folly/Conv.h, folly/Conv.cpp).
 */
module Conv {
  // -------------------------------------------------------- decimal strings

  predicate IsDigit(c: char) { '0' <= c <= '9' }

  predicate AllDigits(s: string) { forall i | 0 <= i < |s| :: IsDigit(s[i]) }

  function DigitVal(c: char): (d: nat)
    requires IsDigit(c)
    ensures d < 10
  {
    c as int - '0' as int
  }

  function DigitChar(d: nat): (c: char)
    requires d < 10
    ensures IsDigit(c) && DigitVal(c) == d
  {
    ('0' as int + d) as char
  }

  /** The number a digit string denotes. */
  function Value(s: string): nat
    requires AllDigits(s)
  {
    if s == [] then 0 else 10 * Value(s[..|s| - 1]) + DigitVal(s[|s| - 1])
  }

  /** x with n zeros appended: x times ten to the n. */
  function Shift(x: nat, n: nat): (y: nat)
    ensures y >= x
  {
    if n == 0 then x else 10 * Shift(x, n - 1)
  }

  lemma {:induction false} ShiftAdd(x: nat, y: nat, n: nat)
    ensures Shift(x + y, n) == Shift(x, n) + Shift(y, n)
  {
    if n > 0 {
      ShiftAdd(x, y, n - 1);
    }
  }

  lemma {:induction false} ShiftTen(x: nat, n: nat)
    ensures Shift(10 * x, n) == Shift(x, n + 1)
  {
    if n > 0 {
      ShiftTen(x, n - 1);
    }
  }

  function Pow10(n: nat): nat { Shift(1, n) }

  lemma {:induction false} Pow10Monotone(m: nat, n: nat)
    requires m <= n
    ensures Pow10(m) <= Pow10(n)
    decreases n
  {
    if m < n {
      Pow10Monotone(m, n - 1);
    }
  }

  lemma {:induction false} ValueBound(s: string)
    requires AllDigits(s)
    ensures Value(s) < Pow10(|s|)
    ensures s != [] && s[0] != '0' ==> Value(s) >= Pow10(|s| - 1)
    decreases |s|
  {
    if |s| > 1 {
      ValueBound(s[..|s| - 1]);
    }
  }

  lemma {:induction false} ValueConcat(a: string, b: string)
    requires AllDigits(a) && AllDigits(b)
    ensures AllDigits(a + b) && Value(a + b) == Shift(Value(a), |b|) + Value(b)
    decreases |b|
  {
    if b == [] {
      assert a + b == a;
    } else {
      var c := b[..|b| - 1];
      ValueConcat(a, c);
      assert (a + b)[..|a + b| - 1] == a + c;
    }
  }

  lemma {:induction false} LeadingZeros(s: string, n: nat)
    requires AllDigits(s) && n <= |s| && forall i | 0 <= i < n :: s[i] == '0'
    ensures Value(s) == Value(s[n..])
  {
    assert s == s[..n] + s[n..];
    ValueConcat(s[..n], s[n..]);
    AllZeros(s[..n]);
    ShiftAdd(0, 0, |s| - n);
  }

  lemma {:induction false} AllZeros(s: string)
    requires forall i | 0 <= i < |s| :: s[i] == '0'
    ensures AllDigits(s) && Value(s) == 0
    decreases |s|
  {
    if s != [] {
      AllZeros(s[..|s| - 1]);
    }
  }

  // ---------------------------------------------------------------- printing

  /** The length of v's decimal form. */
  function NumDigits(v: nat): (n: nat)
    ensures n > 0
  {
    if v < 10 then 1 else 1 + NumDigits(v / 10)
  }

  /** It is the only length without a leading zero. */
  lemma {:induction false} NumDigitsBounds(v: nat)
    ensures v < Pow10(NumDigits(v)) && (v > 0 ==> v >= Pow10(NumDigits(v) - 1))
    decreases v
  {
    if v >= 10 {
      NumDigitsBounds(v / 10);
    } else {
      assert Pow10(0) == 1 && Pow10(1) == 10;
    }
  }

  lemma FourPlaces(v: nat)
    requires v >= 10000
    ensures NumDigits(v) == 4 + NumDigits(v / 10000)
  {
    var a := v / 10;
    var b := a / 10;
    var c := b / 10;
    assert c / 10 == v / 10000;
    assert NumDigits(v) == 1 + NumDigits(a) && NumDigits(a) == 1 + NumDigits(b);
    assert NumDigits(b) == 1 + NumDigits(c) && NumDigits(c) == 1 + NumDigits(c / 10);
  }

  lemma FewPlaces(v: nat)
    ensures 10 <= v < 100 ==> NumDigits(v) == 2
    ensures 100 <= v < 1000 ==> NumDigits(v) == 3
    ensures 1000 <= v < 10000 ==> NumDigits(v) == 4
  {
    var a := v / 10;
    var b := a / 10;
    var c := b / 10;
    assert NumDigits(c) > 0 && NumDigits(b) > 0 && NumDigits(a) > 0;
  }

  /** digits10: four orders of magnitude at a time. */
  method Digits10(v: nat) returns (result: nat)
    ensures result == NumDigits(v)
  {
    var rest := v;
    result := 1;
    while true
      invariant result > 0 && NumDigits(v) == result - 1 + NumDigits(rest)
      decreases rest
    {
      FewPlaces(rest);
      if rest < 10 {
        return;
      }
      if rest < 100 {
        return result + 1;
      }
      if rest < 1000 {
        return result + 2;
      }
      if rest < 10000 {
        return result + 3;
      }
      FourPlaces(rest);
      rest := rest / 10000;
      result := result + 4;
    }
  }

  /** uint64ToBufferUnsafe: fills the buffer from its last digit backwards. */
  method UInt64ToBuffer(v: nat, buffer: array<char>) returns (n: nat)
    requires NumDigits(v) <= buffer.Length
    modifies buffer
    ensures n == NumDigits(v) && AllDigits(buffer[..n]) && Value(buffer[..n]) == v
    ensures forall i | n <= i < buffer.Length :: buffer[i] == old(buffer[i])
  {
    n := Digits10(v);
    var pos: nat, rest: nat := n - 1, v;
    ghost var tail: string := [];
    while rest >= 10
      invariant 0 <= pos < n && NumDigits(rest) == pos + 1 && |tail| == n - 1 - pos
      invariant buffer[pos + 1..n] == tail && AllDigits(tail) && v == Shift(rest, |tail|) + Value(tail)
      invariant forall i | n <= i < buffer.Length :: buffer[i] == old(buffer[i])
      decreases rest
    {
      var q, r := rest / 10, rest % 10;
      PutDigit(q, r, tail);
      buffer[pos] := DigitChar(r);
      tail := [DigitChar(r)] + tail;
      pos := pos - 1;
      rest := q;
    }
    PutDigit(0, rest, tail);
    ShiftAdd(0, 0, |tail| + 1);
    buffer[pos] := DigitChar(rest);
    assert buffer[..n] == [DigitChar(rest)] + tail;
  }

  /** Moving the last digit of a number in front of the digits already written. */
  lemma PutDigit(q: nat, r: nat, tail: string)
    requires r < 10 && AllDigits(tail)
    ensures AllDigits([DigitChar(r)] + tail)
    ensures Shift(10 * q + r, |tail|) + Value(tail) == Shift(q, |tail| + 1) + Value([DigitChar(r)] + tail)
  {
    var d := [DigitChar(r)];
    ValueConcat(d, tail);
    assert d[..0] == [] && Value(d) == r;
    ShiftAdd(10 * q, r, |tail|);
    ShiftTen(q, |tail|);
  }

  // ------------------------------------------------------------------ parsing

  datatype Result = Ok(value: nat) | NoDigits | Overflow

  /** An unsigned type, given by MaxString<Tgt>::value. */
  predicate IsMaxString(max: string) { max != [] && AllDigits(max) && max[0] != '0' }

  /** Arithmetic of the type: x modulo one more than its largest value. */
  function Wrap(max: string, x: nat): nat
    requires AllDigits(max)
    decreases x
  {
    if x <= Value(max) then x else Wrap(max, x - (Value(max) + 1))
  }

  /** strncmp(a, b, n) <= 0 on digit strings of one length compares the numbers. */
  method StrNCmpLe(a: string, b: string) returns (le: bool)
    requires |a| == |b| && AllDigits(a) && AllDigits(b)
    ensures le <==> Value(a) <= Value(b)
  {
    var i := 0;
    while i < |a|
      invariant i <= |a| && a[..i] == b[..i]
    {
      if a[i] != b[i] {
        FirstDifference(a, b, i);
        FirstDifference(b, a, i);
        return a[i] < b[i];
      }
      i := i + 1;
    }
    assert a[..i] == a && b[..i] == b;
    return true;
  }

  lemma FirstDifference(a: string, b: string, i: nat)
    requires |a| == |b| && AllDigits(a) && AllDigits(b) && i < |a| && a[..i] == b[..i]
    ensures a[i] < b[i] ==> Value(a) < Value(b)
  {
    if a[i] < b[i] {
      SplitAt(a, i);
      SplitAt(b, i);
      ValueBound(a[i + 1..]);
      Carry(Value(a[..i + 1]), Value(b[..i + 1]), |a| - i - 1);
    }
  }

  lemma Carry(x: nat, y: nat, n: nat)
    requires x < y
    ensures Shift(x, n) + Pow10(n) <= Shift(y, n)
  {
    ShiftAdd(x, 1, n);
    ShiftAdd(x + 1, y - (x + 1), n);
  }

  lemma SplitAt(a: string, i: nat)
    requires AllDigits(a) && i < |a|
    ensures Value(a) == Shift(Value(a[..i + 1]), |a| - i - 1) + Value(a[i + 1..])
    ensures Value(a[..i + 1]) == 10 * Value(a[..i]) + DigitVal(a[i])
  {
    ValueConcat(a[..i + 1], a[i + 1..]);
    assert a == a[..i + 1] + a[i + 1..];
    assert a[..i + 1][..i] == a[..i];
  }

  /** A number without leading zeros that is longer than max is larger, a shorter one smaller. */
  lemma LengthDecides(s: string, max: string)
    requires AllDigits(s) && IsMaxString(max)
    ensures |s| > |max| && s[0] != '0' ==> Value(s) > Value(max)
    ensures |s| < |max| ==> Value(s) < Value(max)
  {
    ValueBound(s);
    ValueBound(max);
    if |s| > |max| {
      Pow10Monotone(|max|, |s| - 1);
    }
    if |s| < |max| {
      Pow10Monotone(|s|, |max| - 1);
    }
  }

  /** digits_to: accepts a nonempty digit string exactly when its value fits the type. */
  method DigitsTo(max: string, s: string) returns (r: Result)
    requires IsMaxString(max) && AllDigits(s)
    ensures s == [] <==> r.NoDigits?
    ensures s != [] ==> r == if Value(s) <= Value(max) then Ok(Value(s)) else Overflow
    decreases |s|
  {
    LengthDecides(s, max);
    if |s| >= |max| {
      if s[0] == '0' {
        var b := 1;
        while true
          invariant 1 <= b <= |s| && forall i | 0 <= i < b :: s[i] == '0'
          decreases |s| - b
        {
          LeadingZeros(s, b);
          if b == |s| {
            assert s[b..] == [];
            return Ok(0);
          }
          if s[b] != '0' {
            r := DigitsTo(max, s[b..]);
            return;
          }
          b := b + 1;
        }
      }
      if |s| != |max| {
        return Overflow;
      }
      var fits := StrNCmpLe(s, max);
      if !fits {
        return Overflow;
      }
    }
    r := Accumulate(max, s);
  }

  lemma PrefixValue(s: string, i: nat, j: nat)
    requires AllDigits(s) && i <= j <= |s|
    ensures Value(s[..j]) == Shift(Value(s[..i]), j - i) + Value(s[i..j])
  {
    assert s[..j] == s[..i] + s[i..j];
    ValueConcat(s[..i], s[i..j]);
  }

  /** Prefixes of a number that fits, fit. */
  lemma PrefixFits(s: string, j: nat)
    requires AllDigits(s) && j <= |s|
    ensures Value(s[..j]) <= Value(s)
  {
    PrefixValue(s, j, |s|);
    assert s[..|s|] == s;
  }

  lemma FourDigits(s: string)
    requires AllDigits(s) && |s| <= 4
    ensures |s| == 4 ==> Value(s) == 1000 * DigitVal(s[0]) + 100 * DigitVal(s[1]) + 10 * DigitVal(s[2]) + DigitVal(s[3])
    ensures |s| == 3 ==> Value(s) == 100 * DigitVal(s[0]) + 10 * DigitVal(s[1]) + DigitVal(s[2])
    ensures |s| == 2 ==> Value(s) == 10 * DigitVal(s[0]) + DigitVal(s[1])
    ensures |s| == 1 ==> Value(s) == DigitVal(s[0])
  {
    if |s| > 1 {
      FourDigits(s[..|s| - 1]);
    }
  }

  lemma ShiftValues(x: nat)
    ensures Shift(x, 1) == 10 * x && Shift(x, 2) == 100 * x && Shift(x, 3) == 1000 * x && Shift(x, 4) == 10000 * x
  {
  }

  lemma WrapFits(max: string, x: nat)
    requires AllDigits(max) && x <= Value(max)
    ensures Wrap(max, x) == x
  {
  }

  /** Appending up to four digits stays within the type. */
  lemma NoOverflow(max: string, s: string, b: nat, e: nat, sum: nat)
    requires AllDigits(max) && AllDigits(s) && Value(s) <= Value(max) && b <= e <= |s| && sum == Value(s[b..e])
    ensures var result := Value(s[..b]);
            && Wrap(max, Shift(result, e - b) + sum) == Value(s[..e]) <= Value(max)
            && Wrap(max, Wrap(max, Shift(result, e - b)) + sum) == Value(s[..e])
  {
    PrefixValue(s, b, e);
    PrefixFits(s, e);
    WrapFits(max, Shift(Value(s[..b]), e - b));
    WrapFits(max, Value(s[..e]));
  }

  /** The conversion loop, four digits at a time, in the type's own arithmetic: no step
      overflows. */
  method Accumulate(max: string, s: string) returns (r: Result)
    requires IsMaxString(max) && AllDigits(s) && Value(s) <= Value(max)
    ensures r == if s == [] then NoDigits else Ok(Value(s))
  {
    var result, b := 0, 0;
    while |s| - b >= 4
      invariant 0 <= b <= |s| && result == Value(s[..b])
    {
      var sum := 1000 * DigitVal(s[b]) + 100 * DigitVal(s[b + 1]) + 10 * DigitVal(s[b + 2]) + DigitVal(s[b + 3]);
      FourDigits(s[b..b + 4]);
      NoOverflow(max, s, b, b + 4, sum);
      ShiftValues(result);
      result := Wrap(max, Wrap(max, result * 10000) + sum);
      b := b + 4;
    }
    if |s| == 0 {
      return NoDigits;
    }
    result := LastDigits(max, s, b, result);
    return Ok(result);
  }

  /** The remaining digits, at most three. */
  method LastDigits(max: string, s: string, b: nat, result: nat) returns (r: nat)
    requires AllDigits(max) && AllDigits(s) && Value(s) <= Value(max) && b <= |s| < b + 4 && result == Value(s[..b])
    ensures r == Value(s)
  {
    assert s[..|s|] == s && s[b..|s|] == s[b..];
    FourDigits(s[b..]);
    NoOverflow(max, s, b, |s|, Value(s[b..]));
    ShiftValues(result);
    match |s| - b {
      case 3 => r := Wrap(max, result * 1000 + (100 * DigitVal(s[b]) + 10 * DigitVal(s[b + 1]) + DigitVal(s[b + 2])));
      case 2 => r := Wrap(max, result * 100 + (10 * DigitVal(s[b]) + DigitVal(s[b + 1])));
      case 1 => r := Wrap(max, result * 10 + DigitVal(s[b]));
      case _ => r := result;
    }
  }

  // -------------------------------------------------------- types and round trip

  const MAX_UINT8: string := "255"
  const MAX_UINT16: string := "65535"
  const MAX_UINT32: string := "4294967295"
  const MAX_UINT64: string := "18446744073709551615"

  lemma MaxStrings()
    ensures IsMaxString(MAX_UINT8) && Value(MAX_UINT8) == 0xFF
    ensures IsMaxString(MAX_UINT16) && Value(MAX_UINT16) == 0xFFFF
    ensures IsMaxString(MAX_UINT32) && Value(MAX_UINT32) == 0xFFFF_FFFF
  {
    FourDigits("255");
    FourDigits("6");
    Chunk("6", "5535");
    assert MAX_UINT16 == "6" + "5535";
    FourDigits("42");
    Chunk("42", "9496");
    Chunk("42" + "9496", "7295");
    assert MAX_UINT32 == "42" + "9496" + "7295";
  }

  lemma MaxString64()
    ensures IsMaxString(MAX_UINT64) && Value(MAX_UINT64) == 0xFFFF_FFFF_FFFF_FFFF
  {
    var a, b, c, d, e := "1844", "6744", "0737", "0955", "1615";
    FourDigits(a);
    Chunk(a, b);
    Chunk(a + b, c);
    Chunk(a + b + c, d);
    Chunk(a + b + c + d, e);
    assert MAX_UINT64 == a + b + c + d + e;
  }

  lemma Chunk(a: string, b: string)
    requires AllDigits(a) && AllDigits(b) && |b| == 4
    ensures AllDigits(a + b)
    ensures Value(a + b) == 10000 * Value(a) + 1000 * DigitVal(b[0]) + 100 * DigitVal(b[1]) + 10 * DigitVal(b[2]) + DigitVal(b[3])
  {
    ValueConcat(a, b);
    FourDigits(b);
    ShiftValues(Value(a));
  }

  /** Parsing the printed form of any uint64 gives it back. */
  method PrintThenParse(v: nat) returns (r: Result)
    requires v <= 0xFFFF_FFFF_FFFF_FFFF
    ensures r == Ok(v)
  {
    var n := Digits10(v);
    var buffer := new char[n];
    n := UInt64ToBuffer(v, buffer);
    MaxString64();
    r := DigitsTo(MAX_UINT64, buffer[..n]);
  }
}

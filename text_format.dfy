/**
 * The few pieces of Python string formatting the benchmark generator relies on:
 * `str(n)` and `format(n, "x")` for integers, the zero padding of `"{:016x}"`,
 * `sep.join(parts)`, slicing with clamped bounds, and the concatenation of the
 * lines that `+=` accumulates.
 */
module TextFormat {

  /** The character Python prints for a digit value below 16 (lower-case hex). */
  function DigitChar(d: nat): (c: char)
    requires d < 16
  {
    if d < 10 then ('0' as int + d) as char else ('a' as int + d - 10) as char
  }

  /** The value of a digit character, or -1 for a character that is not one. */
  function DigitValue(c: char): int
  {
    if '0' <= c <= '9' then c as int - '0' as int
    else if 'a' <= c <= 'f' then c as int - 'a' as int + 10
    else -1
  }

  predicate ValidBase(base: nat) { 2 <= base <= 16 }

  /** Every character of `s` is a digit of `base`. */
  predicate IsDigitString(s: string, base: nat)
  {
    forall i :: 0 <= i < |s| ==> 0 <= DigitValue(s[i]) < base
  }

  /** `str(n)` (base 10) and `format(n, "x")` (base 16) for a non-negative `n`. */
  function NatToString(n: nat, base: nat): (s: string)
    requires ValidBase(base)
    ensures 1 <= |s|
    ensures n < base <==> |s| == 1
    decreases n
  {
    if n < base then [DigitChar(n)] else NatToString(n / base, base) + [DigitChar(n % base)]
  }

  /** Every character NatToString prints is a digit of the base. */
  lemma {:induction false} NatToStringDigits(n: nat, base: nat)
    requires ValidBase(base)
    ensures IsDigitString(NatToString(n, base), base)
    decreases n
  {
    if n < base {
      DigitRoundTrip(n);
    } else {
      DivMod(n, base);
      NatToStringDigits(n / base, base);
      DigitRoundTrip(n % base);
      assert NatToString(n, base) == NatToString(n / base, base) + [DigitChar(n % base)];
    }
  }

  /** Reads a string of digits back as a number (the reference inverse of NatToString). */
  function StringToNat(s: string, base: nat): nat
    requires ValidBase(base) && IsDigitString(s, base)
  {
    if s == [] then 0 else StringToNat(s[..|s| - 1], base) * base + DigitValue(s[|s| - 1])
  }

  function Pow(base: nat, k: nat): (p: nat)
    ensures 1 <= base ==> 1 <= p
  {
    if k == 0 then 1 else base * Pow(base, k - 1)
  }

  /** Printing a number and reading it back gives the number. */
  lemma {:induction false} NatToStringRoundTrip(n: nat, base: nat)
    requires ValidBase(base)
    ensures IsDigitString(NatToString(n, base), base)
    ensures StringToNat(NatToString(n, base), base) == n
    decreases n
  {
    NatToStringDigits(n, base);
    var s := NatToString(n, base);
    if n < base {
      assert s == [DigitChar(n)];
      assert s[..0] == [];
      DigitRoundTrip(n);
    } else {
      var q, r := n / base, n % base;
      DivMod(n, base);
      NatToStringRoundTrip(q, base);
      var prefix := NatToString(q, base);
      assert s == prefix + [DigitChar(r)];
      assert s[..|s| - 1] == prefix;
      DigitRoundTrip(r);
      assert StringToNat(s, base) == StringToNat(prefix, base) * base + r;
      assert StringToNat(prefix, base) * base == q * base;
    }
  }

  lemma DigitRoundTrip(d: nat)
    requires d < 16
    ensures DigitValue(DigitChar(d)) == d
  {
  }

  lemma DivMod(n: nat, base: nat)
    requires 2 <= base
    ensures n == (n / base) * base + n % base && 0 <= n % base < base
    ensures base <= n ==> 1 <= n / base < n
  {
  }

  /** A number below base^k needs at most k digits. */
  lemma {:induction false} NatToStringWidth(n: nat, base: nat, k: nat)
    requires ValidBase(base) && 1 <= k && n < Pow(base, k)
    ensures |NatToString(n, base)| <= k
    decreases k
  {
    if n >= base {
      assert Pow(base, 1) == base;
      assert k >= 2;
      DivBelow(n, base, Pow(base, k - 1));
      NatToStringWidth(n / base, base, k - 1);
    }
  }

  lemma DivBelow(n: nat, base: nat, p: nat)
    requires 2 <= base && n < base * p
    ensures n / base < p
  {
  }

  function Repeat(c: char, k: nat): (s: string)
    ensures |s| == k && forall i :: 0 <= i < k ==> s[i] == c
  {
    if k == 0 then [] else [c] + Repeat(c, k - 1)
  }

  /** The zero padding of Python's `"{:0<width>x}"`: pad on the left up to `width`, never cut. */
  function PadLeft(s: string, width: nat, c: char): (r: string)
    ensures |r| == if |s| < width then width else |s|
    ensures r[|r| - |s|..] == s
    ensures forall i :: 0 <= i < |r| - |s| ==> r[i] == c
  {
    if |s| < width then Repeat(c, width - |s|) + s else s
  }

  /** Leading zeros do not change the value that a digit string reads as. */
  lemma {:induction false} LeadingZeros(z: nat, s: string, base: nat)
    requires ValidBase(base) && IsDigitString(s, base)
    ensures IsDigitString(Repeat('0', z) + s, base)
    ensures StringToNat(Repeat('0', z) + s, base) == StringToNat(s, base)
    decreases |s|, z
  {
    var t := Repeat('0', z) + s;
    if s == [] {
      assert t == Repeat('0', z);
      if z > 0 {
        assert t[..|t| - 1] == Repeat('0', z - 1) + [];
        LeadingZeros(z - 1, [], base);
      }
    } else {
      assert t[..|t| - 1] == Repeat('0', z) + s[..|s| - 1];
      LeadingZeros(z, s[..|s| - 1], base);
    }
  }

  /** `format(v, "0<width>x")`: at least `width` lower-case hex digits. */
  function HexPadded(v: nat, width: nat): (r: string)
  {
    PadLeft(NatToString(v, 16), width, '0')
  }

  lemma Pow16To16()
    ensures Pow(16, 16) == 0x1_0000_0000_0000_0000
  {
    assert Pow(16, 1) == 0x10;
    assert Pow(16, 2) == 0x100;
    assert Pow(16, 3) == 0x1000;
    assert Pow(16, 4) == 0x10000;
    assert Pow(16, 5) == 0x100000;
    assert Pow(16, 6) == 0x1000000;
    assert Pow(16, 7) == 0x10000000;
    assert Pow(16, 8) == 0x100000000;
    assert Pow(16, 9) == 0x1000000000;
    assert Pow(16, 10) == 0x10000000000;
    assert Pow(16, 11) == 0x100000000000;
    assert Pow(16, 12) == 0x1000000000000;
    assert Pow(16, 13) == 0x10000000000000;
    assert Pow(16, 14) == 0x100000000000000;
    assert Pow(16, 15) == 0x1000000000000000;
    assert Pow(16, 16) == 0x10000000000000000;
  }

  /** Every value below 2^64 prints as exactly 16 lower-case hex digits that read back as it. */
  lemma HexPadded16(v: nat)
    requires v < 0x1_0000_0000_0000_0000
    ensures |HexPadded(v, 16)| == 16
    ensures IsDigitString(HexPadded(v, 16), 16)
    ensures StringToNat(HexPadded(v, 16), 16) == v
  {
    var s := NatToString(v, 16);
    Pow16To16();
    NatToStringWidth(v, 16, 16);
    NatToStringRoundTrip(v, 16);
    LeadingZeros(16 - |s|, s, 16);
    if |s| == 16 {
      assert Repeat('0', 0) + s == s;
    }
  }

  /** Python's `str(i)` and `format(i, "x")` on any integer: a minus sign, then the digits of |i|. */
  function IntToString(i: int, base: nat): (s: string)
    requires ValidBase(base)
  {
    if i < 0 then "-" + NatToString(-i, base) else NatToString(i, base)
  }

  /** Reads the output of IntToString back (the reference inverse). */
  function StringToInt(s: string, base: nat): int
    requires ValidBase(base)
    requires s != [] && (s[0] == '-' ==> |s| >= 2)
    requires IsDigitString(if s[0] == '-' then s[1..] else s, base)
  {
    if s[0] == '-' then -(StringToNat(s[1..], base) as int) else StringToNat(s, base)
  }

  lemma IntToStringRoundTrip(i: int, base: nat)
    requires ValidBase(base)
    ensures var s := IntToString(i, base);
      s != [] && (s[0] == '-' ==> |s| >= 2) &&
      IsDigitString(if s[0] == '-' then s[1..] else s, base) &&
      StringToInt(s, base) == i
  {
    var s := IntToString(i, base);
    if i < 0 {
      assert s[1..] == NatToString(-i, base);
      NatToStringRoundTrip(-i, base);
    } else {
      assert DigitValue('-') == -1;
      NatToStringRoundTrip(i, base);
    }
  }

  /** Python's `sep.join(parts)`. */
  function Join(sep: string, parts: seq<string>): string
  {
    if |parts| == 0 then ""
    else if |parts| == 1 then parts[0]
    else parts[0] + sep + Join(sep, parts[1..])
  }

  /** The text that appending every line of `lines` in turn builds. */
  function Concat(lines: seq<string>): string
  {
    if lines == [] then "" else lines[0] + Concat(lines[1..])
  }

  lemma {:induction false} ConcatAppend(a: seq<string>, b: seq<string>)
    ensures Concat(a + b) == Concat(a) + Concat(b)
    decreases |a|
  {
    if a == [] {
      assert a + b == b;
    } else {
      assert (a + b)[1..] == a[1..] + b;
      ConcatAppend(a[1..], b);
    }
  }

  function Min(a: int, b: int): int { if a < b then a else b }

  /** Python's `s[lo:hi]` for `0 <= lo`: both bounds are clamped to the length. */
  function Slice<T>(s: seq<T>, lo: nat, hi: nat): (r: seq<T>)
    ensures |r| == if Min(hi, |s|) <= lo then 0 else Min(hi, |s|) - lo
    ensures forall i :: 0 <= i < |r| ==> r[i] == s[lo + i]
  {
    if Min(hi, |s|) <= lo then [] else s[lo..Min(hi, |s|)]
  }

  /** One `+=` step of a loop that builds `goal` line by line: what is left shrinks by the line appended. */
  lemma AppendStep(text: string, line: string, rest: string, restAfter: string, goal: string)
    requires text + rest == goal && rest == line + restAfter
    ensures (text + line) + restAfter == goal
  {
  }

  /** The text of lines `k..` is line `k` followed by the text of lines `k+1..`. */
  lemma ConcatFrom(lines: seq<string>, k: nat)
    requires k < |lines|
    ensures Concat(lines[k..]) == lines[k] + Concat(lines[k + 1..])
  {
    assert lines[k..][1..] == lines[k + 1..];
  }
}

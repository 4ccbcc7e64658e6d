/** Bytes, C strings, and the decimal conversions the C library gives db.c:
    `%lld` and `%*lld` on the way out, `atol` on the way in. */
module Ascii {

  type byte = b: int | 0 <= b < 256
  type bytes = seq<byte>

  const NUL: byte := 0
  const NEWLINE: byte := 10
  const SPACE: byte := 32
  const ZERO: byte := 48
  const SEP: byte := 58

  /** A C string without its terminator. */
  type CString = s: bytes | NUL !in s

  predicate IsDigit(b: byte) { ZERO <= b <= 57 }

  predicate IsSpace(b: byte) { b == SPACE || 9 <= b <= 13 }

  predicate Blank(s: bytes) { forall i :: 0 <= i < |s| ==> s[i] == SPACE }

  function Repeat(b: byte, n: nat): (s: bytes)
    ensures |s| == n && forall i :: 0 <= i < n ==> s[i] == b
  {
    seq(n, _ => b)
  }

  /** `%lld` of a non-negative number. */
  function Digits(n: nat): (s: bytes)
    ensures |s| > 0 && forall i :: 0 <= i < |s| ==> IsDigit(s[i])
  {
    if n < 10 then [ZERO + n] else Digits(n / 10) + [ZERO + n % 10]
  }

  /** `%*lld`: right-justified, never truncated. */
  function Pad(w: nat, n: nat): (s: bytes)
  {
    var d := Digits(n);
    if |d| < w then Repeat(SPACE, w - |d|) + d else d
  }

  function SkipSpace(s: bytes): bytes {
    if s != [] && IsSpace(s[0]) then SkipSpace(s[1..]) else s
  }

  /** The value of the longest digit prefix of `s`, continuing from `acc`. */
  function ScanDigits(s: bytes, acc: nat): nat {
    if s == [] || !IsDigit(s[0]) then acc else ScanDigits(s[1..], 10 * acc + (s[0] - ZERO))
  }

  /** `atol`: leading white space, an optional sign, then digits. */
  function Atol(s: bytes): int {
    var t := SkipSpace(s);
    if t != [] && t[0] == 45 then 0 - (ScanDigits(t[1..], 0) as int)
    else if t != [] && t[0] == 43 then ScanDigits(t[1..], 0)
    else ScanDigits(t, 0)
  }

  lemma {:induction false} ScanDigitsLast(s: bytes, d: byte, acc: nat)
    requires IsDigit(d) && forall i :: 0 <= i < |s| ==> IsDigit(s[i])
    ensures ScanDigits(s + [d], acc) == 10 * ScanDigits(s, acc) + (d - ZERO)
  {
    if s == [] {
      assert (s + [d])[1..] == [];
    } else {
      assert (s + [d])[1..] == s[1..] + [d];
      ScanDigitsLast(s[1..], d, 10 * acc + (s[0] - ZERO));
    }
  }

  lemma {:induction false} ScanPrinted(n: nat)
    ensures ScanDigits(Digits(n), 0) == n
  {
    if n < 10 {
      assert Digits(n)[1..] == [];
    } else {
      ScanPrinted(n / 10);
      ScanDigitsLast(Digits(n / 10), ZERO + n % 10, 0);
    }
  }

  lemma {:induction false} SkipBlanks(k: nat, s: bytes)
    requires s != [] && !IsSpace(s[0])
    ensures SkipSpace(Repeat(SPACE, k) + s) == s
  {
    if k == 0 {
      assert Repeat(SPACE, k) + s == s;
    } else {
      assert (Repeat(SPACE, k) + s)[1..] == Repeat(SPACE, k - 1) + s;
      SkipBlanks(k - 1, s);
    }
  }

  /** Printing right-justified in any width and reading back with atol loses nothing. */
  lemma AtolPad(w: nat, n: nat)
    ensures Atol(Pad(w, n)) == n
  {
    var d := Digits(n);
    ScanPrinted(n);
    if |d| < w { SkipBlanks(w - |d|, d); }
  }

  lemma AtolDigits(n: nat)
    ensures Atol(Digits(n)) == n
  {
    AtolPad(0, n);
  }

  function Pow10(k: nat): (p: nat)
    ensures p > 0
  {
    if k == 0 then 1 else 10 * Pow10(k - 1)
  }

  /** A number fits a field of `k > 0` columns exactly when it is below 10^k. */
  lemma {:induction false} DigitsFit(n: nat, k: nat)
    requires k > 0
    ensures |Digits(n)| <= k <==> n < Pow10(k)
  {
    if n < 10 {
      Pow10AtLeast(k);
    } else if k == 1 {
      assert Pow10(1) == 10 * Pow10(0);
    } else {
      DigitsFit(n / 10, k - 1);
    }
  }

  lemma {:induction false} Pow10AtLeast(k: nat)
    requires k > 0
    ensures Pow10(k) >= 10
  {
    if k > 1 { Pow10AtLeast(k - 1); }
  }

  lemma PadWidth(w: nat, n: nat)
    requires w > 0
    ensures |Pad(w, n)| == w <==> n < Pow10(w)
  {
    DigitsFit(n, w);
  }

  /** `strchr`, as the index of the first `c`, or the length when there is none. */
  function Find(s: bytes, c: byte): (i: nat)
    ensures i <= |s|
    ensures c !in s[..i]
    ensures i < |s| ==> s[i] == c
  {
    if s == [] || s[0] == c then 0 else
      var i := 1 + Find(s[1..], c);
      assert s[..i] == [s[0]] + s[1..][..i - 1];
      i
  }

  /** The C string that starts at `s`: everything before the first NUL. */
  function CStr(s: bytes): CString { s[..Find(s, NUL)] }

  lemma FindFirst(a: bytes, c: byte, b: bytes)
    requires c !in a
    ensures Find(a + [c] + b, c) == |a|
  {
    var s := a + [c] + b;
    assert s[|a|] == c;
    assert forall j :: 0 <= j < |a| ==> s[j] == a[j];
  }

  lemma FindNone(s: bytes, c: byte)
    requires c !in s
    ensures Find(s, c) == |s|
  {
  }
}

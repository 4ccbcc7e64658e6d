/** The byte layout of db.c's index file: pointer fields, index records, the hash. */
module DbFormat {
  import opened Numbers
  import opened Ascii

  const IDXLEN_SZ := 4
  const PTR_SZ := 7
  const PTR_MAX := 9999999
  const NHASH := 137
  const IDXLEN_MIN := 6
  const IDXLEN_MAX := 1024
  const DATLEN_MIN := 2
  const DATLEN_MAX := 1024

  /** The free-list pointer and the hash table form one array of SLOTS pointers. */
  const SLOTS := NHASH + 1

  /** Offset of the first index record: the pointer array and a newline. */
  const BASE := SLOTS * PTR_SZ + 1

  /** What one index record holds. `datlen` counts the newline that ends the data. */
  datatype Rec = Rec(ptr: nat, key: CString, datoff: nat, datlen: nat)

  // -- The hash ------------------------------------------------------------------------

  function Signed(b: byte): int { if b < 128 then b else b - 256 }

  /** Sum of each (signed) character times its 1-based index. */
  function WeightedSum(key: bytes): int {
    if key == [] then 0
    else WeightedSum(key[..|key| - 1]) + Signed(key[|key| - 1]) * |key|
  }

  function HashOf(key: bytes): (h: nat)
    ensures h < NHASH
  {
    WeightedSum(key) % TWO64 % NHASH
  }

  /** The slot of the pointer array that starts `key`'s chain. */
  function SlotOf(key: bytes): (i: nat)
    ensures 1 <= i < SLOTS
  {
    HashOf(key) + 1
  }

  lemma WrapAdd(a: int, b: int)
    ensures (a % TWO64 + b) % TWO64 == (a + b) % TWO64
  {
  }

  /** _db_hash: the accumulator is an unsigned long and wraps at every step. */
  method Hash(key: CString) returns (h: nat)
    ensures h == HashOf(key)
  {
    var hval := 0;
    var i := 0;
    while i < |key|
      invariant 0 <= i <= |key|
      invariant hval == WeightedSum(key[..i]) % TWO64
    {
      assert key[..i + 1][..i] == key[..i];
      var c := Signed(key[i]) * (i + 1);
      WrapAdd(WeightedSum(key[..i]), c);
      hval := (hval + c) % TWO64;
      i := i + 1;
    }
    assert key[..i] == key;
    h := hval % NHASH;
  }

  // -- Records -------------------------------------------------------------------------

  function PtrField(v: nat): bytes { Pad(PTR_SZ, v) }

  function Body(key: bytes, datoff: nat, datlen: nat): bytes {
    key + [SEP] + Digits(datoff) + [SEP] + Digits(datlen) + [NEWLINE]
  }

  function BodyOf(r: Rec): bytes { Body(r.key, r.datoff, r.datlen) }

  /** What _db_writeidx sends to the file. */
  function Encode(r: Rec): bytes {
    PtrField(r.ptr) + Pad(IDXLEN_SZ, |BodyOf(r)|) + BodyOf(r)
  }

  function RecSize(r: Rec): (n: nat)
    ensures n >= 11
  {
    PTR_SZ + IDXLEN_SZ + |BodyOf(r)|
  }

  predicate BodyLenOk(key: bytes, datoff: nat, datlen: nat) {
    IDXLEN_MIN <= |Body(key, datoff, datlen)| <= IDXLEN_MAX
  }

  predicate RecOk(r: Rec) {
    && r.ptr <= PTR_MAX
    && BodyLenOk(r.key, r.datoff, r.datlen)
    && DATLEN_MIN <= r.datlen <= DATLEN_MAX
  }

  datatype Parsed = Fields(key: CString, datoff: nat, datlen: nat) | Malformed

  /** The second half of _db_readidx: newline check, separators, the two numbers. */
  function ParseBody(buf: bytes): Parsed {
    if buf == [] || buf[|buf| - 1] != NEWLINE then Malformed else
    var s := CStr(buf[..|buf| - 1]);
    var i := Find(s, SEP);
    if i == |s| then Malformed else
    var t := s[i + 1..];
    var j := Find(t, SEP);
    if j == |t| then Malformed else
    var u := t[j + 1..];
    if SEP in u then Malformed else
    var off, len := Atol(t[..j]), Atol(u);
    if off < 0 || len <= 0 || len > DATLEN_MAX then Malformed
    else Fields(s[..i], off, len)
  }

  function ReadPtrField(file: bytes, off: nat): int
    requires off + PTR_SZ <= |file|
  {
    Atol(file[off..off + PTR_SZ])
  }

  /** All of _db_readidx at a given offset: the record, or Malformed for an err_dump. */
  datatype ReadResult = Read(rec: Rec, idxlen: nat) | Dump

  function ReadRec(file: bytes, off: nat): ReadResult {
    if off + PTR_SZ + IDXLEN_SZ > |file| then Dump else
    var ptr := ReadPtrField(file, off);
    var len := Atol(file[off + PTR_SZ..off + PTR_SZ + IDXLEN_SZ]);
    if ptr < 0 || len < IDXLEN_MIN || len > IDXLEN_MAX then Dump else
    var start := off + PTR_SZ + IDXLEN_SZ;
    if start + len > |file| then Dump else
    match ParseBody(file[start..start + len])
    case Malformed => Dump
    case Fields(k, o, l) => Read(Rec(ptr, k, o, l), len)
  }

  lemma DigitsHasNo(n: nat, b: byte)
    requires !IsDigit(b)
    ensures b !in Digits(n)
  {
  }

  lemma PtrFieldWidth(v: nat)
    ensures |PtrField(v)| == PTR_SZ <==> v <= PTR_MAX
  {
    assert Pow10(7) == 10000000 by {
      assert Pow10(2) == 100; assert Pow10(4) == 10000; assert Pow10(6) == 1000000;
    }
    PadWidth(PTR_SZ, v);
  }

  lemma LenFieldWidth(n: nat)
    requires n <= IDXLEN_MAX
    ensures |Pad(IDXLEN_SZ, n)| == IDXLEN_SZ
  {
    assert Pow10(2) == 100;
    assert Pow10(4) == 10000;
    PadWidth(IDXLEN_SZ, n);
  }

  lemma EncodeSize(r: Rec)
    requires r.ptr <= PTR_MAX && |BodyOf(r)| <= IDXLEN_MAX
    ensures |Encode(r)| == RecSize(r)
  {
    PtrFieldWidth(r.ptr);
    LenFieldWidth(|BodyOf(r)|);
  }

  /** What ParseBody sees once the newline is gone. */
  lemma BodyString(key: CString, off: nat, len: nat)
    ensures var b := Body(key, off, len);
            && b[|b| - 1] == NEWLINE
            && CStr(b[..|b| - 1]) == key + [SEP] + Digits(off) + [SEP] + Digits(len)
  {
    var b := Body(key, off, len);
    var s := key + [SEP] + Digits(off) + [SEP] + Digits(len);
    assert b[..|b| - 1] == s;
    DigitsHasNo(off, NUL);
    DigitsHasNo(len, NUL);
    FindNone(s, NUL);
    assert s[..|s|] == s;
  }

  /** Splitting `a:b:c` at its two separators. */
  lemma SplitTwice(a: bytes, b: bytes, c: bytes)
    requires SEP !in a && SEP !in b && SEP !in c
    ensures var s := a + [SEP] + b + [SEP] + c;
            && Find(s, SEP) == |a| < |s| && s[..|a|] == a
            && var t := s[|a| + 1..];
               Find(t, SEP) == |b| < |t| && t[..|b|] == b && t[|b| + 1..] == c
  {
    hide Find;
    var s, t := a + [SEP] + b + [SEP] + c, b + [SEP] + c;
    assert s == a + [SEP] + t;
    FindFirst(a, SEP, t);
    assert s[|a| + 1..] == t;
    FindFirst(b, SEP, c);
  }

  lemma BodyReadsBack(key: CString, off: nat, len: nat)
    requires 0 < len <= DATLEN_MAX && SEP !in key
    ensures ParseBody(Body(key, off, len)) == Fields(key, off, len)
  {
    BodyString(key, off, len);
    DigitsHasNo(off, SEP);
    DigitsHasNo(len, SEP);
    SplitTwice(key, Digits(off), Digits(len));
    AtolDigits(off);
    AtolDigits(len);
    hide Digits, Atol, Find, Body, CStr;
  }

  /** A written record body is read back exactly when its key holds no separator;
      otherwise _db_readidx finds too many separators. */
  lemma BodyRoundTrip(key: CString, off: nat, len: nat)
    requires 0 < len <= DATLEN_MAX
    ensures ParseBody(Body(key, off, len)) == Fields(key, off, len) <==> SEP !in key
    ensures ParseBody(Body(key, off, len)) == Malformed <==> SEP in key
  {
    hide ParseBody, Body;
    if SEP !in key { BodyReadsBack(key, off, len); } else { BodyMalformed(key, off, len); }
  }

  lemma BodyMalformed(key: CString, off: nat, len: nat)
    requires SEP in key
    ensures ParseBody(Body(key, off, len)) == Malformed
  {
    BodyString(key, off, len);
    SeparatorStays(key, off, len);
    hide Digits, Atol, Find, Body, CStr;
  }

  /** What the rest of _db_readidx accepts: the newline at the end and just two separators
      before it, the key, an offset of at least 0, and a length from 1 to 1024. */
  lemma ParseIff(buf: bytes, key: CString, off: nat, len: nat)
    ensures ParseBody(buf) == Fields(key, off, len) <==>
            && buf != [] && buf[|buf| - 1] == 10
            && exists a: bytes, b: bytes ::
                 && CStr(buf[..|buf| - 1]) == key + [58] + a + [58] + b && 58 !in key && 58 !in a && 58 !in b
                 && Atol(a) == off && Atol(b) == len && 1 <= len <= 1024
  {
    hide Atol, Find, CStr;
    if ParseBody(buf) == Fields(key, off, len) {
      var s := CStr(buf[..|buf| - 1]);
      var i := Find(s, SEP);
      var t := s[i + 1..];
      var j := Find(t, SEP);
      var a, b := t[..j], t[j + 1..];
      assert t == a + [58] + b;
      assert s == key + [58] + a + [58] + b;
      assert 58 !in key && 58 !in a && 58 !in b;
    }
    if buf != [] && buf[|buf| - 1] == 10 {
      forall a: bytes, b: bytes | CStr(buf[..|buf| - 1]) == key + [58] + a + [58] + b && 58 !in key && 58 !in a
                                  && 58 !in b && Atol(a) == off && Atol(b) == len && 1 <= len <= 1024
        ensures ParseBody(buf) == Fields(key, off, len)
      {
        SplitTwice(key, a, b);
      }
    }
  }

  /** A separator in the key leaves a separator after the second one found. */
  lemma SeparatorStays(key: CString, off: nat, len: nat)
    requires SEP in key
    ensures var s := key + [SEP] + Digits(off) + [SEP] + Digits(len);
            var i := Find(s, SEP);
            && i < |s|
            && var t := s[i + 1..];
               var j := Find(t, SEP);
               j < |t| && SEP in t[j + 1..]
  {
    hide Digits, Find;
    var s := key + [SEP] + Digits(off) + [SEP] + Digits(len);
    var k :| 0 <= k < |key| && key[k] == SEP;
    ThreeStay(s, k, |key|, |key| + 1 + |Digits(off)|);
  }

  lemma ThreeStay(s: bytes, p0: nat, p1: nat, p2: nat)
    requires p0 < p1 < p2 < |s| && s[p0] == SEP && s[p1] == SEP && s[p2] == SEP
    ensures var i := Find(s, SEP);
            && i < |s|
            && var t := s[i + 1..];
               var j := Find(t, SEP);
               j < |t| && SEP in t[j + 1..]
  {
    hide Find;
    var i := Find(s, SEP);
    FindBefore(s, SEP, p0);
    var t := s[i + 1..];
    assert t[p1 - i - 1] == SEP;
    FindBefore(t, SEP, p1 - i - 1);
    var j := Find(t, SEP);
    assert t[j + 1..][p2 - i - 1 - (j + 1)] == SEP;
  }

  lemma FindBefore(s: bytes, c: byte, k: nat)
    requires k < |s| && s[k] == c
    ensures Find(s, c) <= k
  {
    assert forall m | 0 <= m < Find(s, c) :: s[m] in s[..Find(s, c)];
  }

  /** The three parts of an encoded record, where _db_readidx looks for them. */
  lemma EncodeParts(file: bytes, off: nat, r: Rec)
    requires r.ptr <= PTR_MAX && BodyLenOk(r.key, r.datoff, r.datlen)
    requires off + RecSize(r) <= |file|
    requires file[off..off + RecSize(r)] == Encode(r)
    ensures var n := |BodyOf(r)|;
            && file[off..off + PTR_SZ] == PtrField(r.ptr)
            && file[off + PTR_SZ..off + 11] == Pad(IDXLEN_SZ, n)
            && file[off + 11..off + 11 + n] == BodyOf(r)
  {
    PtrFieldWidth(r.ptr);
    LenFieldWidth(|BodyOf(r)|);
    hide PtrField, Pad, BodyOf;
    ThreeParts(file, off, PtrField(r.ptr), Pad(IDXLEN_SZ, |BodyOf(r)|), BodyOf(r));
  }

  lemma ThreeParts(file: bytes, off: nat, a: bytes, b: bytes, c: bytes)
    requires off + |a| + |b| + |c| <= |file| && file[off..off + |a| + |b| + |c|] == a + b + c
    ensures file[off..off + |a|] == a
    ensures file[off + |a|..off + |a| + |b|] == b
    ensures file[off + |a| + |b|..off + |a| + |b| + |c|] == c
  {
    var e := a + b + c;
    forall i | 0 <= i < |e| ensures file[off + i] == e[i] { assert file[off..off + |e|][i] == e[i]; }
    assert forall i :: 0 <= i < |a| ==> e[i] == a[i];
    assert forall i :: 0 <= i < |b| ==> e[|a| + i] == b[i];
    assert forall i :: 0 <= i < |c| ==> e[|a| + |b| + i] == c[i];
  }

  /** What _db_readidx makes of a written record: its pointer and its body. */
  lemma RecReads(file: bytes, off: nat, r: Rec)
    requires r.ptr <= PTR_MAX && BodyLenOk(r.key, r.datoff, r.datlen)
    requires off + RecSize(r) <= |file|
    requires file[off..off + RecSize(r)] == Encode(r)
    ensures ReadRec(file, off) ==
            match ParseBody(BodyOf(r))
            case Malformed => Dump
            case Fields(k, o, l) => Read(Rec(r.ptr, k, o, l), |BodyOf(r)|)
  {
    EncodeParts(file, off, r);
    AtolPad(PTR_SZ, r.ptr);
    AtolPad(IDXLEN_SZ, |BodyOf(r)|);
    hide Encode, Pad, Atol, ParseBody;
  }

  /** A record written at `off` of any file, without a separator in its key, is read back
      in full. */
  lemma RecRoundTrip(file: bytes, off: nat, r: Rec)
    requires RecOk(r) && SEP !in r.key
    requires off + RecSize(r) <= |file|
    requires file[off..off + RecSize(r)] == Encode(r)
    ensures ReadRec(file, off) == Read(r, |BodyOf(r)|)
  {
    RecReads(file, off, r);
    BodyReadsBack(r.key, r.datoff, r.datlen);
    hide ReadRec, ParseBody, Encode, Body;
  }

  /** One with a separator in its key is not: _db_readidx ends the process. */
  lemma SeparatedDumps(file: bytes, off: nat, r: Rec)
    requires RecOk(r) && SEP in r.key
    requires off + RecSize(r) <= |file|
    requires file[off..off + RecSize(r)] == Encode(r)
    ensures ReadRec(file, off) == Dump
  {
    RecReads(file, off, r);
    BodyRoundTrip(r.key, r.datoff, r.datlen);
    hide ReadRec, ParseBody, Encode, Body;
  }

  /** A pointer field written anywhere is read back. */
  lemma PtrRoundTrip(file: bytes, off: nat, v: nat)
    requires off + PTR_SZ <= |file|
    requires file[off..off + PTR_SZ] == PtrField(v)
    ensures ReadPtrField(file, off) == v
  {
    AtolPad(PTR_SZ, v);
  }

  // -- Literal bytes -----------------------------------------------------------------------

  lemma SampleDigits()
    ensures Digits(967) == [57, 54, 55] && Digits(12) == [49, 50] && Digits(3) == [51] && Digits(8) == [56]
  {
    assert Digits(9) == [57] && Digits(96) == [57, 54];
    assert Digits(1) == [49];
  }

  /** The record of key `ab` with data of 3 bytes at 12, and 967 as its pointer:
      `    967   8ab:12:3` and a newline. */
  lemma SampleRecord()
    ensures Encode(Rec(967, [97, 98], 12, 3)) ==
            [32, 32, 32, 32, 57, 54, 55, 32, 32, 32, 56, 97, 98, 58, 49, 50, 58, 51, 10]
  {
    SampleDigits();
    var b := Body([97, 98], 12, 3);
    assert b == [97, 98, 58, 49, 50, 58, 51, 10];
    hide Digits;
    assert Repeat(SPACE, 4) == [32, 32, 32, 32] && Repeat(SPACE, 3) == [32, 32, 32];
    assert PtrField(967) == [32, 32, 32, 32, 57, 54, 55] && Pad(4, 8) == [32, 32, 32, 56];
  }

  /** The hash weighs characters by their place, and takes them as signed. */
  lemma SampleHash()
    ensures HashOf([97, 98]) == (97 * 1 + 98 * 2) % 137 && HashOf([255]) == 0xFFFF_FFFF_FFFF_FFFF % 137
  {
    var ab: bytes, x: bytes := [97, 98], [255];
    assert ab[..1] == [97] && ab[..1][..0] == [] && x[..0] == [];
    assert WeightedSum(ab) == 97 * 1 + 98 * 2 && WeightedSum(x) == -1;
  }
}

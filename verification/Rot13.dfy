/** advio/rot13c2.c: eight buffers, each reading a block, translating it and writing it,
    while the kernel completes reads and writes in any order and at any moment; and
    advio/rot13a.c, one block at a time. Both write the translation of their input. */
module Rot13 {
  import opened Numbers
  import opened Ascii

  const BSZ := 4096
  const NBUF := 8

  predicate IsAlpha(c: byte) { 65 <= c <= 90 || 97 <= c <= 122 }

  function Translate(c: byte): byte {
    if !IsAlpha(c) then c
    else if c >= 110 then c - 13
    else if c >= 97 then c + 13
    else if c >= 78 then c - 13
    else c + 13
  }

  function Translated(s: bytes): (t: bytes)
    ensures |t| == |s| && forall i :: 0 <= i < |s| ==> t[i] == Translate(s[i])
  {
    seq(|s|, i requires 0 <= i < |s| => Translate(s[i]))
  }

  /** `d` is `c` moved on by 13 places in the alphabet of its case, if `c` is a letter. */
  predicate Rotated(c: byte, d: byte) {
    if 65 <= c <= 90 then d - 65 == (c - 65 + 13) % 26
    else if 97 <= c <= 122 then d - 97 == (c - 97 + 13) % 26
    else d == c
  }

  predicate RotatedAll(s: bytes, t: bytes) { |t| == |s| && forall i :: 0 <= i < |s| ==> Rotated(s[i], t[i]) }

  /** The translation is the rotation by 13, byte by byte. */
  lemma TranslatedRotated(s: bytes, t: bytes)
    ensures t == Translated(s) <==> RotatedAll(s, t)
  {
    forall i | 0 <= i < |s| && i < |t| ensures t[i] == Translated(s)[i] <==> Rotated(s[i], t[i]) {
      assert Translated(s)[i] == Translate(s[i]);
    }
  }

  /** Translating twice changes nothing. */
  lemma TranslatedTwice(s: bytes)
    ensures Translated(Translated(s)) == s
  {
    forall i | 0 <= i < |s| ensures Translated(Translated(s))[i] == s[i] {
      assert Translated(s)[i] == Translate(s[i]);
    }
  }

  /** `for (j = 0; j < n; j++) data[j] = translate(data[j])` */
  method TranslateBuf(data: bytes, n: nat) returns (d: bytes)
    requires n <= |data|
    ensures d == Translated(data[..n]) + data[n..]
  {
    d := data;
    var j := 0;
    while j < n
      invariant j <= n && |d| == |data|
      invariant forall i :: 0 <= i < j ==> d[i] == Translate(data[i])
      invariant forall i :: j <= i < |d| ==> d[i] == data[i]
    {
      d := d[j := Translate(d[j])];
      j := j + 1;
    }
  }

  // -- One block at a time ---------------------------------------------------------------

  /** What a read of BSZ bytes at an offset delivers. */
  function Block(inp: bytes, o: nat): (b: bytes)
    ensures |b| <= BSZ
  {
    if o >= |inp| then [] else inp[o..Min(o + BSZ, |inp|)]
  }

  /** rot13a.c: the file offset moves by what each read delivered. */
  method Sequential(inp: bytes) returns (out: bytes)
    ensures out == Translated(inp) && RotatedAll(inp, out)
  {
    out := [];
    var pos := 0;
    var n := |Block(inp, 0)|;
    while n > 0
      invariant pos <= |inp| && n == |Block(inp, pos)| && out == Translated(inp[..pos])
      decreases |inp| - pos
    {
      var buf := Block(inp, pos);
      buf := TranslateBuf(buf, n);
      out := out + buf;
      assert inp[..pos + n] == inp[..pos] + Block(inp, pos);
      pos := pos + n;
      n := |Block(inp, pos)|;
    }
    assert inp[..pos] == inp;
    TranslatedRotated(inp, out);
  }

  // -- The slots -------------------------------------------------------------------------

  datatype RwOp = Unused | ReadPending | WritePending

  /** `done`: the kernel has completed the operation; aio_error is no longer EINPROGRESS
      and aio_return will give `n`. */
  datatype Buf = Buf(op: RwOp, last: bool, offset: nat, nbytes: nat, data: bytes, done: bool, n: nat)

  predicate Written(inp: bytes, out: bytes, i: nat) {
    i < |inp| && i < |out| && out[i] == Translate(inp[i])
  }

  predicate WroteBlock(inp: bytes, out: bytes, o: nat) {
    forall i :: o <= i < o + BSZ && i < |inp| ==> Written(inp, out, i)
  }

  predicate SlotOk(inp: bytes, out: bytes, off: nat, b: Buf) {
    && |b.data| == BSZ
    && (!b.op.Unused? ==>
          && b.offset % BSZ == 0 && b.offset < |inp| && b.offset + BSZ <= off
          && (b.offset + BSZ >= |inp| ==> b.last))
    && (b.op.ReadPending? && b.done ==> b.n == |Block(inp, b.offset)| && b.data[..b.n] == Block(inp, b.offset))
    && (b.op.WritePending? ==>
          && b.nbytes == |Block(inp, b.offset)| && b.data[..b.nbytes] == Translated(Block(inp, b.offset))
          && (b.done ==> b.n == b.nbytes && WroteBlock(inp, out, b.offset)))
  }

  predicate InSlot(b: Buf, i: nat) { !b.op.Unused? && b.offset <= i < b.offset + BSZ }

  predicate Disjoint(a: Buf, b: Buf) {
    a.op.Unused? || b.op.Unused? || a.offset + BSZ <= b.offset || b.offset + BSZ <= a.offset
  }

  /** An issued byte is in a slot, or translated in the output. */
  predicate Placed(inp: bytes, out: bytes, bufs: seq<Buf>, i: nat) {
    Written(inp, out, i) || exists k :: 0 <= k < |bufs| && InSlot(bufs[k], i)
  }

  predicate Inv(inp: bytes, bufs: seq<Buf>, off: nat, out: bytes) {
    && off % BSZ == 0 && |out| <= |inp|
    && (forall k :: 0 <= k < |bufs| ==> SlotOk(inp, out, off, bufs[k]))
    && (forall j, k :: 0 <= j < k < |bufs| ==> Disjoint(bufs[j], bufs[k]))
    && (forall i {:trigger Placed(inp, out, bufs, i)} :: 0 <= i < off && i < |inp| ==> Placed(inp, out, bufs, i))
  }

  // -- Counting --------------------------------------------------------------------------

  function Weight(b: Buf): nat { match b.op case Unused => 0 case ReadPending => 2 case WritePending => 1 }

  function Busy(b: Buf): nat { if b.op.Unused? then 0 else 1 }

  /** Two for each pending read, one for each pending write. */
  function Work(bufs: seq<Buf>): nat { if bufs == [] then 0 else Weight(bufs[0]) + Work(bufs[1..]) }

  function Active(bufs: seq<Buf>): nat { if bufs == [] then 0 else Busy(bufs[0]) + Active(bufs[1..]) }

  function Unissued(inp: bytes, off: nat): nat { if off >= |inp| then 0 else (|inp| - off + BSZ - 1) / BSZ }

  function Left(inp: bytes, bufs: seq<Buf>, off: nat): nat { 3 * Unissued(inp, off) + Work(bufs) }

  lemma {:induction false} CountUpdate(bufs: seq<Buf>, k: nat, b: Buf)
    requires k < |bufs|
    ensures Work(bufs[k := b]) == Work(bufs) - Weight(bufs[k]) + Weight(b)
    ensures Active(bufs[k := b]) == Active(bufs) - Busy(bufs[k]) + Busy(b)
  {
    if k == 0 {
      assert bufs[k := b][1..] == bufs[1..];
    } else {
      CountUpdate(bufs[1..], k - 1, b);
      assert bufs[k := b][1..] == bufs[1..][k - 1 := b];
    }
  }

  lemma {:induction false} ActiveZero(bufs: seq<Buf>)
    ensures Active(bufs) == 0 <==> forall k :: 0 <= k < |bufs| ==> bufs[k].op.Unused?
  {
    if bufs != [] {
      ActiveZero(bufs[1..]);
      assert forall k :: 0 < k < |bufs| ==> bufs[k] == bufs[1..][k - 1];
    }
  }

  lemma UnissuedStep(inp: bytes, off: nat)
    requires off < |inp|
    ensures Unissued(inp, off + BSZ) == Unissued(inp, off) - 1
  {
    if off + BSZ < |inp| {
      assert (|inp| - off + BSZ - 1) / BSZ == (|inp| - (off + BSZ) + BSZ - 1) / BSZ + 1;
    }
  }

  // -- What each change of a slot keeps --------------------------------------------------

  /** A slot moves on with the same block. */
  lemma SlotKept(inp: bytes, bufs: seq<Buf>, off: nat, out: bytes, k: nat, b: Buf)
    requires Inv(inp, bufs, off, out) && k < |bufs| && SlotOk(inp, out, off, b)
    requires !b.op.Unused? && !bufs[k].op.Unused? && b.offset == bufs[k].offset
    ensures Inv(inp, bufs[k := b], off, out)
  {
    var bufs' := bufs[k := b];
    hide SlotOk, Written;
    forall i | 0 <= i < off && i < |inp| ensures Placed(inp, out, bufs', i) {
      assert Placed(inp, out, bufs, i);
      if j :| 0 <= j < |bufs| && InSlot(bufs[j], i) { assert InSlot(bufs'[j], i); }
    }
    forall i, j | 0 <= i < j < |bufs'| ensures Disjoint(bufs'[i], bufs'[j]) { assert Disjoint(bufs[i], bufs[j]); }
  }

  /** An unused slot takes the next block. */
  lemma SlotIssued(inp: bytes, bufs: seq<Buf>, off: nat, out: bytes, k: nat, b: Buf)
    requires Inv(inp, bufs, off, out) && k < |bufs| && bufs[k].op.Unused? && off < |inp|
    requires b.op.ReadPending? && b.offset == off && |b.data| == BSZ && !b.done && (off + BSZ >= |inp| ==> b.last)
    ensures Inv(inp, bufs[k := b], off + BSZ, out)
  {
    var bufs' := bufs[k := b];
    hide Written;
    forall i | 0 <= i < off + BSZ && i < |inp| ensures Placed(inp, out, bufs', i) {
      if i >= off {
        assert InSlot(bufs'[k], i);
      } else {
        assert Placed(inp, out, bufs, i);
        if j :| 0 <= j < |bufs| && InSlot(bufs[j], i) { assert InSlot(bufs'[j], i); }
      }
    }
    forall i, j | 0 <= i < j < |bufs'| ensures Disjoint(bufs'[i], bufs'[j]) {
      assert Disjoint(bufs[i], bufs[j]);
      assert SlotOk(inp, out, off, bufs[i]) && SlotOk(inp, out, off, bufs[j]);
    }
  }

  /** A slot whose write is complete becomes unused. */
  lemma SlotRetired(inp: bytes, bufs: seq<Buf>, off: nat, out: bytes, k: nat, b: Buf)
    requires Inv(inp, bufs, off, out) && k < |bufs| && bufs[k].op.WritePending? && bufs[k].done
    requires b.op.Unused? && |b.data| == BSZ
    ensures Inv(inp, bufs[k := b], off, out)
  {
    var bufs' := bufs[k := b];
    forall i | 0 <= i < off && i < |inp| ensures Placed(inp, out, bufs', i) {
      assert Placed(inp, out, bufs, i);
      if j :| 0 <= j < |bufs| && InSlot(bufs[j], i) {
        if j != k { assert InSlot(bufs'[j], i); } else { assert SlotOk(inp, out, off, bufs[k]); }
      }
    }
    forall i, j | 0 <= i < j < |bufs'| ensures Disjoint(bufs'[i], bufs'[j]) { assert Disjoint(bufs[i], bufs[j]); }
  }

  /** The output file after a write at an offset, which may leave a gap of zeros. */
  function WriteAt(out: bytes, o: nat, d: bytes): (r: bytes)
    ensures |r| == if o + |d| > |out| then o + |d| else |out|
  {
    seq(if o + |d| > |out| then o + |d| else |out|,
        i requires 0 <= i => if o <= i < o + |d| then d[i - o] else if i < |out| then out[i] else 0)
  }

  /** A block written over the output leaves every translated byte translated. */
  lemma OutKept(inp: bytes, bufs: seq<Buf>, off: nat, out: bytes, o: nat)
    requires Inv(inp, bufs, off, out) && o < |inp|
    ensures var out' := WriteAt(out, o, Translated(Block(inp, o)));
            Inv(inp, bufs, off, out') && WroteBlock(inp, out', o)
  {
    var d := Translated(Block(inp, o));
    var out' := WriteAt(out, o, d);
    forall i: nat | Written(inp, out, i) || (o <= i < o + BSZ && i < |inp|) ensures Written(inp, out', i) {}
    hide Written, WriteAt;
    forall i | 0 <= i < off && i < |inp| ensures Placed(inp, out', bufs, i) { assert Placed(inp, out, bufs, i); }
    forall k | 0 <= k < |bufs| ensures SlotOk(inp, out', off, bufs[k]) { assert SlotOk(inp, out, off, bufs[k]); }
  }

  /** When everything is issued and every slot unused, the output is the translation. */
  lemma Finished(inp: bytes, bufs: seq<Buf>, off: nat, out: bytes)
    requires Inv(inp, bufs, off, out) && off >= |inp| && Active(bufs) == 0
    ensures out == Translated(inp)
  {
    ActiveZero(bufs);
    forall i | 0 <= i < |inp| ensures Written(inp, out, i) { assert Placed(inp, out, bufs, i); }
    assert |inp| > 0 ==> Written(inp, out, |inp| - 1);
    assert |out| == |inp|;
    forall i | 0 <= i < |inp| ensures out[i] == Translated(inp)[i] { assert Written(inp, out, i); }
  }

  // -- The program -----------------------------------------------------------------------

  predicate Pending(b: Buf) { !b.op.Unused? && !b.done }

  predicate Ready(b: Buf) { !b.op.Unused? && b.done }

  /** The kernel completes operations and does nothing else to the slots. */
  predicate Later(a: seq<Buf>, b: seq<Buf>) {
    |a| == |b| && forall k :: 0 <= k < |a| ==> b[k].op == a[k].op && (Ready(a[k]) ==> b[k] == a[k])
  }

  /** How many operations are pending. */
  function Waits(bufs: seq<Buf>): nat { if bufs == [] then 0
      else (if Pending(bufs[0]) then 1 else 0) + Waits(bufs[1..]) }

  lemma {:induction false} WaitsLess(a: seq<Buf>, b: seq<Buf>, k: nat)
    requires Later(a, b) && k <= |a|
    ensures Waits(b) <= Waits(a)
    ensures k < |a| && Pending(a[k]) && Ready(b[k]) ==> Waits(b) < Waits(a)
  {
    if a != [] {
      assert b[0].op == a[0].op && (Ready(a[0]) ==> b[0] == a[0]);
      WaitsLess(a[1..], b[1..], if k > 0 then k - 1 else 0);
    }
  }

  lemma {:induction false} LaterCounts(a: seq<Buf>, b: seq<Buf>)
    requires Later(a, b)
    ensures Work(a) == Work(b) && Active(a) == Active(b)
  {
    if a != [] {
      assert a[0].op == b[0].op;
      LaterCounts(a[1..], b[1..]);
    }
  }

  class Pipeline {
    const inp: bytes
    const bufs: array<Buf>
    var off: nat
    var numop: nat
    var out: bytes

    ghost predicate Valid()
      reads this, bufs
    {
      bufs.Length == NBUF && Inv(inp, bufs[..], off, out) && numop == Active(bufs[..])
    }

    constructor (file: bytes)
      ensures Valid() && fresh(bufs) && inp == file && off == 0 && numop == 0
    {
      inp := file;
      var b := Buf(Unused, false, 0, 0, seq(BSZ, _ => 0), false, 0);
      bufs := new Buf[NBUF](_ => b);
      off, numop, out := 0, 0, [];
      new;
      ActiveZero(bufs[..]);
    }

    /** The kernel finishes the pending operation of slot `k`. */
    method Complete(k: nat)
      requires Valid() && k < NBUF && Pending(bufs[k])
      modifies this`out, bufs
      ensures Valid() && Later(old(bufs[..]), bufs[..]) && Ready(bufs[k])
    {
      var b, s := bufs[k], bufs[..];
      assert SlotOk(inp, out, off, s[k]);
      if b.op.ReadPending? {
        var d := Block(inp, b.offset);
        b := b.(done := true, n := |d|, data := d + b.data[|d|..]);
      } else {
        ghost var d := Translated(Block(inp, b.offset));
        out := WriteAt(out, b.offset, b.data[..b.nbytes]);
        OutKept(inp, s, off, old(out), b.offset);
        b := b.(done := true, n := b.nbytes);
      }
      SlotKept(inp, s, off, out, k, b);
      CountUpdate(s, k, b);
      bufs[k] := b;
      assert bufs[..] == s[k := b];
    }

    /** Time passes: the kernel finishes any number of pending operations, in any order. */
    method Kernel()
      requires Valid()
      modifies this`out, bufs
      ensures Valid() && Later(old(bufs[..]), bufs[..])
    {
      hide Inv;
      while true
        invariant Valid() && Later(old(bufs[..]), bufs[..])
        decreases Waits(bufs[..])
      {
        ghost var before := bufs[..];
        if * { break; }
        if forall k :: 0 <= k < NBUF ==> !Pending(bufs[k]) { break; }
        var k :| 0 <= k < NBUF && Pending(bufs[k]);
        Complete(k);
        WaitsLess(before, bufs[..], k);
      }
    }

    /** aio_suspend: returns once some operation on the list is complete. */
    method Suspend()
      requires Valid() && numop > 0
      modifies this`out, bufs
      ensures Valid() && Later(old(bufs[..]), bufs[..]) && exists k :: 0 <= k < NBUF && Ready(bufs[k])
    {
      Kernel();
      LaterCounts(old(bufs[..]), bufs[..]);
      ghost var before := bufs[..];
      ActiveZero(before);
      if forall k :: 0 <= k < NBUF ==> !Ready(bufs[k]) {
        var k :| 0 <= k < NBUF && !bufs[k].op.Unused?;
        Complete(k);
        assert Later(before, bufs[..]);
      }
    }

    /** One round of the switch for slot `i`. Nothing fails when operations complete in
        full, and a slot that was ready, or a block that was left, brings the end nearer. */
    method Slot(i: nat) returns (ok: bool)
      requires Valid() && i < NBUF
      modifies this, bufs
      ensures Valid() && ok && off >= old(off)
      ensures forall k :: 0 <= k < NBUF && k != i ==> bufs[k] == old(bufs[k])
      ensures Left(inp, bufs[..], off) <= old(Left(inp, bufs[..], off))
      ensures old(Ready(bufs[i]) || (bufs[i].op.Unused? && off < |inp|)) ==>
                Left(inp, bufs[..], off) < old(Left(inp, bufs[..], off))
      ensures old(bufs[i].op.Unused? && off >= |inp|) ==> bufs[i].op.Unused?
    {
      ghost var s := bufs[..];
      var b := bufs[i];
      assert SlotOk(inp, out, off, s[i]);
      ok := true;
      match b.op {
        case Unused =>
          if off < |inp| {
            b := b.(op := ReadPending, offset := off, done := false);
            off := off + BSZ;
            if off >= |inp| { b := b.(last := true); }
            b := b.(nbytes := BSZ);
            SlotIssued(inp, s, old(off), out, i, b);
            UnissuedStep(inp, old(off));
            numop := numop + 1;
          }
        case ReadPending =>
          if b.done {
            if b.n != BSZ && !b.last { ok := false; return; }
            var d := TranslateBuf(b.data, b.n);
            b := b.(data := d, op := WritePending, nbytes := b.n, done := false);
            SlotKept(inp, s, off, out, i, b);
          }
        case WritePending =>
          if b.done {
            if b.n != b.nbytes { ok := false; return; }
            b := b.(op := Unused);
            SlotRetired(inp, s, off, out, i, b);
            CountUpdate(s, i, b);
            numop := numop - 1;
          }
      }
      CountUpdate(s, i, b);
      bufs[i] := b;
      assert bufs[..] == s[i := b];
    }

    /** A turn of the inner loop, the kernel running alongside. */
    method Turn(i: nat) returns (ok: bool)
      requires Valid() && i < NBUF
      modifies this, bufs
      ensures Valid() && ok && off >= old(off)
      ensures forall k :: 0 <= k < NBUF && old(Ready(bufs[k])) && k != i ==> Ready(bufs[k])
      ensures Left(inp, bufs[..], off) <= old(Left(inp, bufs[..], off))
      ensures old(Ready(bufs[i]) || (bufs[i].op.Unused? && off < |inp|)) ==>
                Left(inp, bufs[..], off) < old(Left(inp, bufs[..], off))
      ensures old(off >= |inp| && forall k :: 0 <= k < NBUF ==> bufs[k].op.Unused?) ==>
                forall k :: 0 <= k < NBUF ==> bufs[k].op.Unused?
    {
      hide Inv, Block;
      ghost var before := bufs[..];
      Kernel();
      LaterCounts(before, bufs[..]);
      assert forall k :: 0 <= k < NBUF && Ready(before[k]) ==> Ready(bufs[k]);
      assert forall k :: 0 <= k < NBUF ==> bufs[..][k].op == before[k].op;
      ok := Slot(i);
    }

    /** The inner loop. If something was ready or left to issue, the end is nearer. */
    method Sweep() returns (ok: bool)
      requires Valid()
      requires (exists k :: 0 <= k < NBUF && Ready(bufs[k])) || numop == 0
      modifies this, bufs
      ensures Valid() && ok
      ensures Left(inp, bufs[..], off) < old(Left(inp, bufs[..], off)) || (numop == 0 && off >= |inp|)
    {
      ghost var start := Left(inp, bufs[..], off);
      ActiveZero(bufs[..]);
      ghost var idle := numop == 0 && off >= |inp|;
      ghost var k: nat := if numop == 0 then 0 else var k :| 0 <= k < NBUF && Ready(bufs[k]); k;
      hide Inv, Left, Work, Active;
      var i := 0;
      ok := true;
      while i < NBUF
        invariant i <= NBUF && Valid() && ok
        invariant Left(inp, bufs[..], off) <= start
        invariant idle ==> off >= |inp| && forall j :: 0 <= j < NBUF ==> bufs[j].op.Unused?
        invariant !idle && i <= k ==> Ready(bufs[k]) || (k == 0 && bufs[k].op.Unused? && off < |inp|)
        invariant !idle && i > k ==> Left(inp, bufs[..], off) < start
      {
        ok := Turn(i);
        i := i + 1;
      }
      ActiveZero(bufs[..]);
    }

    /** The whole program. */
    method Pump() returns (ok: bool)
      requires Valid() && off == 0 && numop == 0
      modifies this, bufs
      ensures Valid() && ok && out == Translated(inp) && RotatedAll(inp, out)
    {
      ok := true;
      while true
        invariant Valid() && ok
        invariant (exists k :: 0 <= k < NBUF && Ready(bufs[k])) || numop == 0
        decreases Left(inp, bufs[..], off)
      {
        ok := Sweep();
        if numop == 0 {
          if off >= |inp| { break; }
        } else {
          ghost var before := bufs[..];
          Suspend();
          LaterCounts(before, bufs[..]);
        }
      }
      Finished(inp, bufs[..], off, out);
      TranslatedRotated(inp, out);
    }
  }
}

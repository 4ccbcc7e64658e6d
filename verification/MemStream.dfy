/** exercises/fmemopen.c: a stream over a buffer in memory. In the modes that read and
    write it is a file of bounded size. */
module MemStream {
  import opened Numbers
  import opened Ascii

  lemma SliceOfFront(s: bytes, n: nat, a: nat, b: nat)
    requires a <= b <= n <= |s|
    ensures s[..n][a..b] == s[a..b]
  {
  }

  // -- The file that the stream stands for -----------------------------------------------

  datatype Whence = Set | Cur | End

  datatype Op = Read(len: nat) | Write(data: bytes) | Seek(off: int, whence: Whence)

  /** -1 with errno set; bytes read; the number of bytes written; the new position. */
  datatype Reply = Failed | Got(data: bytes) | Count(n: nat) | Moved(pos: nat)

  datatype File = File(data: bytes, pos: nat)

  /** `d` written over `c` at `off`, as far as `cap` allows. */
  function Put(c: bytes, off: nat, d: bytes, cap: nat): (r: bytes)
    requires off <= |c| <= cap
    ensures |c| <= |r| <= cap
  {
    var w := d[..Min(|d|, cap - off)];
    c[..off] + w + c[Min(off + |w|, |c|)..]
  }

  /** A file that holds at most `cap` bytes, `append` meaning that writes go to its end. */
  function Step(f: File, cap: nat, append: bool, op: Op): (File, Reply)
    requires f.pos <= |f.data| <= cap
  {
    match op
    case Read(len) =>
      var n := Min(len, |f.data| - f.pos);
      (f.(pos := f.pos + n), Got(f.data[f.pos..f.pos + n]))
    case Write(d) =>
      var off := if append then |f.data| else f.pos;
      var n := Min(|d|, cap - off);
      (File(Put(f.data, off, d, cap), off + n), Count(n))
    case Seek(o, w) =>
      var to := o + match w case Set => 0 case Cur => f.pos case End => |f.data|;
      if 0 <= to <= |f.data| then (f.(pos := to), Moved(to)) else (f, Failed)
  }

  lemma StepKeeps(f: File, cap: nat, append: bool, op: Op)
    requires f.pos <= |f.data| <= cap
    ensures var g := Step(f, cap, append, op).0; g.pos <= |g.data| <= cap
  {
  }

  /** A read delivers the bytes from the position on, as many as there are, and moves it past
      them. */
  lemma ReadLaw(f: File, cap: nat, append: bool, len: nat)
    requires f.pos <= |f.data| <= cap
    ensures var (g, r) := Step(f, cap, append, Read(len));
            && r.Got? && (|r.data| == len || (|r.data| < len && f.pos + |r.data| == |f.data|))
            && f.pos + |r.data| <= |f.data|
            && (forall i :: 0 <= i < |r.data| ==> r.data[i] == f.data[f.pos + i])
            && g.data == f.data && g.pos == f.pos + |r.data|
  {
  }

  /** A write goes to the position, or to the end in append mode, and moves the position past
      it; it is cut where the capacity ends, lengthens the file if it has to, and every other
      byte stays. */
  lemma WriteLaw(f: File, cap: nat, append: bool, d: bytes)
    requires f.pos <= |f.data| <= cap
    ensures var (g, r) := Step(f, cap, append, Write(d));
            var off := if append then |f.data| else f.pos;
            && r.Count? && (r.n == |d| || (r.n < |d| && off + r.n == cap)) && r.n <= |d|
            && g.pos == off + r.n && off + r.n <= |g.data|
            && (|g.data| == |f.data| || |g.data| == off + r.n > |f.data|)
            && (forall i :: 0 <= i < r.n ==> g.data[off + i] == d[i])
            && (forall i :: 0 <= i < |f.data| && !(off <= i < off + r.n) ==> g.data[i] == f.data[i])
  {
  }

  /** A seek counts from the start, from the position or from the end; it moves there and says
      where, or fails and moves nothing when that is before the start or past the end. */
  lemma SeekLaw(f: File, cap: nat, append: bool, o: int)
    requires f.pos <= |f.data| <= cap
    ensures Step(f, cap, append, Seek(o, Set)) ==
            if 0 <= o <= |f.data| then (File(f.data, o), Moved(o)) else (f, Failed)
    ensures Step(f, cap, append, Seek(o, Cur)) ==
            if 0 <= f.pos + o <= |f.data| then (File(f.data, f.pos + o), Moved(f.pos + o)) else (f, Failed)
    ensures Step(f, cap, append, Seek(o, End)) ==
            if 0 <= |f.data| + o && o <= 0 then (File(f.data, |f.data| + o), Moved(|f.data| + o)) else (f, Failed)
  {
  }

  function Run(f: File, cap: nat, append: bool, ops: seq<Op>): (File, seq<Reply>)
    requires f.pos <= |f.data| <= cap
    ensures var g := Run(f, cap, append, ops).0; g.pos <= |g.data| <= cap
  {
    if ops == [] then (f, [])
    else
      var (g, rs) := Run(f, cap, append, ops[..|ops| - 1]);
      StepKeeps(g, cap, append, ops[|ops| - 1]);
      (Step(g, cap, append, ops[|ops| - 1]).0, rs + [Step(g, cap, append, ops[|ops| - 1]).1])
  }

  /** What was written is what is read after seeking back. */
  lemma ReadBack(f: File, cap: nat, append: bool, d: bytes)
    requires f.pos <= |f.data| <= cap
    ensures var off := if append then |f.data| else f.pos;
            var n := Min(|d|, cap - off);
            var (g, written) := Step(f, cap, append, Write(d));
            var (h, moved) := Step(g, cap, append, Seek(-n, Cur));
            written == Count(n) && moved == Moved(off) && Step(h, cap, append, Read(n)).1 == Got(d[..n])
  {
    var off := if append then |f.data| else f.pos;
    var n := Min(|d|, cap - off);
    PutRead(f.data, off, d, cap);
    hide Put;
  }

  lemma PutRead(c: bytes, off: nat, d: bytes, cap: nat)
    requires off <= |c| <= cap
    ensures var n := Min(|d|, cap - off);
            off + n <= |Put(c, off, d, cap)| && Put(c, off, d, cap)[off..off + n] == d[..n]
  {
  }

  // -- Modes -----------------------------------------------------------------------------

  /** No flag at all stands for a bad type. */
  datatype Flags = Flags(read: bool, write: bool, append: bool, truncate: bool)

  const NONE := Flags(false, false, false, false)
  const R: byte := 114
  const W: byte := 119
  const A: byte := 97
  const PLUS: byte := 43
  const B: byte := 98

  function First(c: byte): Flags {
    if c == R then NONE.(read := true)
    else if c == W then NONE.(write := true, truncate := true)
    else if c == A then NONE.(append := true)
    else NONE
  }

  /** One of r, w and a, then any number of + and b. */
  predicate WellFormed(t: CString) {
    t != [] && First(t[0]) != NONE && forall i :: 1 <= i < |t| ==> t[i] == PLUS || t[i] == B
  }

  function ModeOf(t: CString): Flags {
    if !WellFormed(t) then NONE
    else if PLUS in t[1..] then First(t[0]).(read := true, write := true)
    else First(t[0])
  }

  method TypeToFlags(t: CString) returns (flags: Flags)
    ensures flags == ModeOf(t) && (flags != NONE <==> WellFormed(t)) && ModeLaw(t, flags)
  {
    flags := NONE;
    var i := 0;
    while i < |t|
      invariant i <= |t|
      invariant i == 0 ==> flags == NONE
      invariant i > 0 ==> WellFormed(t[..i]) && flags == ModeOf(t[..i]) && flags != NONE
    {
      var c := t[i];
      assert i > 0 ==> t[..i + 1][1..] == t[..i][1..] + [c];
      assert forall k :: 0 <= k < i ==> t[..i + 1][k] == t[..i][k];
      assert t[..i + 1][i] == c;
      if c == R || c == W || c == A {
        if flags != NONE {
          assert t[i] == c && i > 0;
          return NONE;
        }
        flags := First(c);
      } else if c == PLUS {
        if flags == NONE { return NONE; }
        flags := flags.(read := true, write := true);
      } else if c == B {
        if flags == NONE { return NONE; }
      } else {
        return NONE;
      }
      i := i + 1;
    }
    assert t[..i] == t;
    assert i > 0 ==> (PLUS in t <==> PLUS in t[1..]);
  }

  /** The type string, byte by byte: r, w or a comes first, then only + and b. r and + read, w
      and + write, a appends, w truncates; nothing else is accepted. */
  predicate ModeLaw(t: CString, flags: Flags) {
    if t != [] && (t[0] == 114 || t[0] == 119 || t[0] == 97) && forall i :: 1 <= i < |t| ==> t[i] == 43 || t[i] == 98
    then flags == Flags(t[0] == 114 || 43 in t, t[0] == 119 || 43 in t, t[0] == 97, t[0] == 119)
    else flags == Flags(false, false, false, false)
  }

  method FindEnd(buf: array<byte>) returns (off: nat)
    ensures off == Find(buf[..], NUL)
  {
    off := 0;
    while off < buf.Length && buf[off] != 0
      invariant off <= buf.Length && NUL !in buf[..off]
    {
      assert buf[..off + 1] == buf[..off] + [buf[off]];
      off := off + 1;
    }
    FirstAt(buf[..], off);
  }

  lemma {:induction false} FirstAt(s: bytes, k: nat)
    requires k <= |s| && NUL !in s[..k] && (k < |s| ==> s[k] == NUL)
    ensures Find(s, NUL) == k
  {
    if k > 0 {
      assert s[..k][0] == s[0] && s[..k][1..] == s[1..][..k - 1];
      FirstAt(s[1..], k - 1);
    }
  }

  // -- The stream ------------------------------------------------------------------------

  class Stream {
    const buf: array<byte>
    const flags: Flags
    var vsize: nat
    var curpos: nat

    ghost predicate Valid()
      reads this
    {
      curpos <= vsize <= buf.Length && buf.Length > 0
    }

    predicate ReadWrite() { flags.read && flags.write }

    ghost function Contents(): (f: File)
      requires Valid()
      reads this, buf
      ensures f.pos <= |f.data| <= buf.Length
    {
      File(buf[..vsize], curpos)
    }

    constructor (buf: array<byte>, flags: Flags, vsize: nat, curpos: nat)
      requires curpos <= vsize <= buf.Length && buf.Length > 0
      ensures this.buf == buf && this.flags == flags && Valid() && Contents() == File(buf[..vsize], curpos)
    {
      this.buf, this.flags, this.vsize, this.curpos := buf, flags, vsize, curpos;
    }

    method MsRead(len: nat) returns (r: Reply)
      requires Valid()
      modifies this`curpos
      ensures Valid()
      ensures !flags.read ==> r == Failed && Contents() == old(Contents())
      ensures flags.read ==> (Contents(), r) == Step(old(Contents()), buf.Length, flags.append, Read(len))
    {
      if !flags.read { return Failed; }
      if curpos >= vsize {
        assert buf[..vsize][curpos..curpos] == [];
        return Got([]);
      }
      var nr := Min(len, vsize - curpos);
      SliceOfFront(buf[..], vsize, curpos, curpos + nr);
      r := Got(buf[curpos..curpos + nr]);
      curpos := curpos + nr;
    }

    /** memcpy into the buffer. */
    method Copy(off: nat, d: bytes)
      requires off + |d| <= buf.Length
      modifies buf
      ensures buf[..] == old(buf[..])[..off] + d + old(buf[..])[off + |d|..]
    {
      var k := 0;
      while k < |d|
        invariant k <= |d|
        invariant forall i :: 0 <= i < k ==> buf[off + i] == d[i]
        invariant forall i :: 0 <= i < buf.Length && !(off <= i < off + k) ==> buf[i] == old(buf[i])
      {
        buf[off + k] := d[k];
        k := k + 1;
      }
      forall i | 0 <= i < buf.Length
        ensures buf[..][i] == (old(buf[..])[..off] + d + old(buf[..])[off + |d|..])[i]
      {
        if off <= i < off + |d| { assert buf[off + (i - off)] == d[i - off]; }
      }
    }

    /** In a mode that reads and writes, the terminating NUL stays clear of the contents. In
        a mode that only writes, it replaces the byte at `Clobbered`, if that is one of them. */
    method MsWrite(d: bytes) returns (r: Reply)
      requires Valid()
      modifies this`curpos, this`vsize, buf
      ensures Valid()
      ensures !flags.append && !flags.write ==> r == Failed && Contents() == old(Contents())
      ensures ReadWrite() ==> (Contents(), r) == Step(old(Contents()), buf.Length, flags.append, Write(d))
      ensures (flags.append || flags.write) && !flags.read ==>
                var (f, q) := Step(old(Contents()), buf.Length, flags.append, Write(d));
                r == q && Contents() == Ended(f, buf.Length)
    {
      if !flags.append && !flags.write { return Failed; }
      var off := if flags.append then vsize else curpos;
      var nw := Min(|d|, buf.Length - off);
      Overwrite(off, d);
      if (flags.write || flags.append) && !flags.read { Terminate(); }
      r := Count(nw);
    }

    /** The write itself, and the NUL of the modes that also read. */
    method Overwrite(off: nat, d: bytes)
      requires Valid() && off <= vsize
      modifies this`curpos, this`vsize, buf
      ensures Valid() && Contents() == File(Put(old(buf[..vsize]), off, d, buf.Length),
          off + Min(|d|, buf.Length - off))
    {
      var nw := Min(|d|, buf.Length - off);
      Copy(off, d[..nw]);
      curpos := off + nw;
      Overwritten(old(buf[..]), buf[..], vsize, off, d);
      ghost var after := buf[..];
      hide Put;
      if curpos > vsize {
        vsize := curpos;
        if flags.read && flags.write && vsize < buf.Length { buf[vsize] := 0; }
      }
      assert buf[..vsize] == after[..vsize];
      assert old(buf[..])[..old(vsize)] == old(buf[..vsize]);
    }

    method Terminate()
      requires Valid()
      modifies buf
      ensures Contents() == Ended(old(Contents()), buf.Length)
    {
      if curpos < buf.Length { buf[curpos] := 0; } else { buf[buf.Length - 1] := 0; }
    }

    method MsSeek(pos: int, whence: Whence) returns (r: Reply)
      requires Valid()
      modifies this`curpos
      ensures Valid() && (Contents(), r) == Step(old(Contents()), buf.Length, flags.append, Seek(pos, whence))
    {
      var off := match whence case Set => pos case End => vsize + pos case Cur => curpos + pos;
      if off < 0 || off > vsize { return Failed; }
      curpos := off;
      r := Moved(off);
    }

    method Do(op: Op) returns (r: Reply)
      requires Valid() && ReadWrite()
      modifies this, buf
      ensures Valid() && (Contents(), r) == Step(old(Contents()), buf.Length, flags.append, op)
    {
      match op
      case Read(len) => r := MsRead(len);
      case Write(d) => r := MsWrite(d);
      case Seek(o, w) => r := MsSeek(o, w);
    }

    /** Every sequence of calls in r+, w+ and a+ is answered as the bounded file answers. */
    method RunAll(ops: seq<Op>) returns (rs: seq<Reply>)
      requires Valid() && ReadWrite()
      modifies this, buf
      ensures Valid() && (Contents(), rs) == Run(old(Contents()), buf.Length, flags.append, ops)
    {
      rs := [];
      var i := 0;
      while i < |ops|
        invariant i <= |ops| && Valid()
        invariant (Contents(), rs) == Run(old(Contents()), buf.Length, flags.append, ops[..i])
      {
        assert ops[..i + 1][..i] == ops[..i];
        var r := Do(ops[i]);
        rs := rs + [r];
        i := i + 1;
      }
      assert ops[..i] == ops;
    }
  }

  /** Where the NUL of a write-only stream goes. */
  function Clobbered(f: File, cap: nat): int { if f.pos < cap then f.pos else cap - 1 }

  function Ended(f: File, cap: nat): File
    requires f.pos <= |f.data| <= cap && cap > 0
  {
    if Clobbered(f, cap) < |f.data| then f.(data := f.data[Clobbered(f, cap) := 0]) else f
  }

  /** The NUL replaces the byte at the position, or the last of the buffer when that is full. */
  lemma EndedAt(f: File, cap: nat)
    requires f.pos <= |f.data| <= cap && cap > 0
    ensures var g := Ended(f, cap);
            && g.pos == f.pos && |g.data| == |f.data|
            && forall i :: 0 <= i < |f.data| ==>
                 g.data[i] == if i == f.pos || (f.pos == cap && i == cap - 1) then 0 else f.data[i]
  {
  }

  /** So a write-only stream keeps what was written exactly when the write ends at the end of
      the contents with room to spare, or the byte in question is 0 already. */
  lemma EndedFaithful(f: File, cap: nat)
    requires f.pos <= |f.data| <= cap && cap > 0
    ensures Ended(f, cap) == f <==> f.pos == |f.data| < cap || f.data[Clobbered(f, cap)] == 0
  {
    var k := Clobbered(f, cap);
    assert k < |f.data| ==> Ended(f, cap).data[k] == 0;
    assert k < |f.data| && f.data[k] == 0 ==> f.data[k := 0] == f.data;
  }

  lemma Overwritten(b: bytes, b': bytes, v: nat, off: nat, d: bytes)
    requires off <= v <= |b|
    requires var w := d[..Min(|d|, |b| - off)]; b' == b[..off] + w + b[off + |w|..]
    ensures var e := off + Min(|d|, |b| - off);
            |b'| == |b| && b'[..if e > v then e else v] == Put(b[..v], off, d, |b|)
  {
    var w := d[..Min(|d|, |b| - off)];
    var e := off + |w|;
    var n := if e > v then e else v;
    var p := Put(b[..v], off, d, |b|);
    assert |p| == n;
    forall i | 0 <= i < n ensures b'[..n][i] == p[i] {
      if i < off {
        assert b'[i] == b[i] && p[i] == b[..v][..off][i];
      } else if i < e {
        assert b'[i] == w[i - off] && p[i] == w[i - off];
      } else {
        assert b'[i] == b[e..][i - e] && p[i] == b[..v][Min(e, v)..][i - e];
      }
    }
  }

  /** fmemopen; a null `given` asks for a buffer of the stream's own. */
  method Fmemopen(given: array?<byte>, size: nat, t: CString) returns (ms: Stream?)
    requires given != null ==> given.Length == size
    ensures ms != null <==> size > 0 && WellFormed(t) && (given == null ==> ModeOf(t).read && ModeOf(t).write)
    ensures ms != null ==> fresh(ms) && ms.Valid() && ms.flags == ModeOf(t) && ms.buf.Length == size
    ensures ms != null && given != null ==> ms.buf == given
    ensures ms != null ==>
              && ms.curpos == (if ms.flags.append then ms.vsize else 0)
              && ms.vsize == if ms.flags.append then (if given == null then 0 else Find(given[..], NUL))
                             else if ms.flags.truncate then 0 else size
  {
    if size == 0 { return null; }
    var flags := TypeToFlags(t);
    if flags == NONE { return null; }
    var buf: array<byte>;
    var curpos := 0;
    if given == null {
      if !(flags.read && flags.write) { return null; }
      buf := new byte[size];
    } else {
      buf := given;
      if flags.append { curpos := FindEnd(buf); }
    }
    var vsize := if flags.append then curpos else if flags.truncate then 0 else size;
    ms := new Stream(buf, flags, vsize, curpos);
  }
}

/** How the index and data files, as plain byte sequences, hold pointers, records and
    data, and what each in-place write does to that reading. */
module DbBytes {
  import opened Ascii
  import opened DbFormat
  import opened DbLinks

  /** An index record apart from its chain pointer. */
  datatype Entry = Entry(key: CString, datoff: nat, datlen: nat)

  function Whole(ptr: nat, e: Entry): Rec { Rec(ptr, e.key, e.datoff, e.datlen) }

  function Size(e: Entry): (n: nat)
    ensures n >= 11
  {
    RecSize(Whole(0, e))
  }

  /** `lseek` then `write`, at or before the end of file. */
  function Write(file: bytes, off: nat, data: bytes): bytes
    requires off <= |file|
  {
    file[..off] + data + (if off + |data| <= |file| then file[off + |data|..] else [])
  }

  predicate FieldOk(idx: bytes, ptrs: map<nat, nat>, off: nat) {
    && off in ptrs && ptrs[off] <= PTR_MAX
    && off + PTR_SZ <= |idx|
    && idx[off..off + PTR_SZ] == PtrField(ptrs[off])
  }

  predicate SlotOk(idx: bytes, ptrs: map<nat, nat>, i: nat) { FieldOk(idx, ptrs, Slot(i)) }

  predicate EntryOk(idx: bytes, ptrs: map<nat, nat>, es: map<nat, Entry>, o: nat)
    requires o in es
  {
    && o in ptrs && o >= BASE && RecOk(Whole(ptrs[o], es[o]))
    && o + Size(es[o]) <= |idx|
    && idx[o..o + Size(es[o])] == Encode(Whole(ptrs[o], es[o]))
  }

  predicate Before(es: map<nat, Entry>, o: nat, p: nat)
    requires o in es
  {
    o + Size(es[o]) <= p
  }

  /** A record ends where the file ends or the next record starts. */
  predicate EndOk(size: nat, es: map<nat, Entry>, o: nat)
    requires o in es
  {
    o + Size(es[o]) == size || o + Size(es[o]) in es
  }

  predicate Tiled(size: nat, es: map<nat, Entry>) {
    && (BASE == size || BASE in es)
    && (forall o {:trigger EndOk(size, es, o)} :: o in es ==> EndOk(size, es, o))
    && (forall o, p {:trigger Before(es, o, p)} :: o in es && p in es && o < p ==> Before(es, o, p))
  }

  /** The index file is the pointer array, a newline, and a tiling by the records. */
  predicate Rendered(idx: bytes, ptrs: map<nat, nat>, es: map<nat, Entry>) {
    && |idx| >= BASE && idx[BASE - 1] == NEWLINE
    && (forall i {:trigger SlotOk(idx, ptrs, i)} :: 0 <= i < SLOTS ==> SlotOk(idx, ptrs, i))
    && (forall o {:trigger EntryOk(idx, ptrs, es, o)} :: o in es ==> EntryOk(idx, ptrs, es, o))
    && Tiled(|idx|, es)
  }

  lemma WriteOutside(file: bytes, off: nat, data: bytes, a: nat, b: nat)
    requires off <= |file| && a <= b <= |file| && (b <= off || off + |data| <= a)
    ensures |Write(file, off, data)| >= b
    ensures Write(file, off, data)[a..b] == file[a..b]
  {
    var w := Write(file, off, data);
    if off + |data| <= |file| {
      assert forall i :: 0 <= i < |file| && (i < off || off + |data| <= i) ==> w[i] == file[i];
    } else {
      assert forall i :: 0 <= i < off ==> w[i] == file[i];
    }
  }

  lemma PrefixSlice(s: bytes, t: bytes, a: nat, b: nat)
    requires a <= b <= |s|
    ensures (s + t)[a..b] == s[a..b]
  {
  }

  lemma SliceTake(s: bytes, a: nat, b: nat, n: nat)
    requires a <= b <= |s| && n <= b - a
    ensures s[a..b][..n] == s[a..a + n]
  {
  }

  lemma WriteInside(file: bytes, off: nat, data: bytes)
    requires off <= |file|
    ensures var w := Write(file, off, data);
            off + |data| <= |w| && w[off..off + |data|] == data
  {
  }

  lemma WriteLen(file: bytes, off: nat, data: bytes)
    requires off + |data| <= |file|
    ensures |Write(file, off, data)| == |file|
  {
  }

  lemma AppendLen(idx: bytes, r: Rec)
    requires r.ptr <= PTR_MAX && |BodyOf(r)| <= IDXLEN_MAX
    ensures |Write(idx, |idx|, Encode(r))| == |idx| + RecSize(r)
  {
    EncodeSize(r);
    hide Encode;
  }

  lemma RewriteLen(idx: bytes, ptrs: map<nat, nat>, es: map<nat, Entry>, o: nat, v: nat, e: Entry)
    requires o in es && EntryOk(idx, ptrs, es, o) && v <= PTR_MAX
    requires |e.key| == |es[o].key| && e.datoff == es[o].datoff && e.datlen == es[o].datlen
    ensures o <= |idx| && |Write(idx, o, Encode(Whole(v, e)))| == |idx|
  {
    EncodeSize(Whole(v, e));
    hide Encode;
    WriteLen(idx, o, Encode(Whole(v, e)));
  }

  lemma RecordInFile(idx: bytes, ptrs: map<nat, nat>, es: map<nat, Entry>, o: nat)
    requires Rendered(idx, ptrs, es) && o in es
    ensures BASE <= o && o + Size(es[o]) <= |idx|
  {
    assert EntryOk(idx, ptrs, es, o);
  }

  lemma EndIsNoRecord(idx: bytes, ptrs: map<nat, nat>, es: map<nat, Entry>)
    requires Rendered(idx, ptrs, es)
    ensures |idx| !in es && |idx| >= BASE
  {
    if |idx| in es { RecordInFile(idx, ptrs, es, |idx|); }
  }

  /** A pointer field read gives the pointer. */
  lemma ReadField(idx: bytes, ptrs: map<nat, nat>, es: map<nat, Entry>, off: nat)
    requires Rendered(idx, ptrs, es)
    requires off in es || exists i :: 0 <= i < SLOTS && off == Slot(i)
    ensures off in ptrs && ptrs[off] <= PTR_MAX && off + PTR_SZ <= |idx|
    ensures ReadPtrField(idx, off) == ptrs[off]
  {
    if off in es {
      assert EntryOk(idx, ptrs, es, off);
      EncodeParts(idx, off, Whole(ptrs[off], es[off]));
    } else {
      var i :| 0 <= i < SLOTS && off == Slot(i);
      assert SlotOk(idx, ptrs, i);
    }
    PtrRoundTrip(idx, off, ptrs[off]);
  }

  /** A record read gives the record, or ends the process on a separator in its key. */
  lemma ReadEntry(idx: bytes, ptrs: map<nat, nat>, es: map<nat, Entry>, o: nat)
    requires Rendered(idx, ptrs, es) && o in es
    ensures o in ptrs
    ensures ReadRec(idx, o) == if SEP in es[o].key then Dump else Read(Whole(ptrs[o], es[o]), Size(es[o]) - 11)
  {
    assert EntryOk(idx, ptrs, es, o);
    var r := Whole(ptrs[o], es[o]);
    if SEP in es[o].key { SeparatedDumps(idx, o, r); } else { RecRoundTrip(idx, o, r); }
  }

  /** Overwriting a slot of the pointer array changes that pointer and nothing else. */
  lemma WriteSlot(idx: bytes, ptrs: map<nat, nat>, es: map<nat, Entry>, i: nat, v: nat)
    requires Rendered(idx, ptrs, es) && i < SLOTS && v <= PTR_MAX
    ensures Rendered(Write(idx, Slot(i), PtrField(v)), ptrs[Slot(i) := v], es)
  {
    var w, q := Write(idx, Slot(i), PtrField(v)), ptrs[Slot(i) := v];
    PtrFieldWidth(v);
    WriteLen(idx, Slot(i), PtrField(v));
    WriteInside(idx, Slot(i), PtrField(v));
    WriteOutside(idx, Slot(i), PtrField(v), BASE - 1, BASE);
    assert w[BASE - 1..BASE][0] == idx[BASE - 1..BASE][0];
    forall k | 0 <= k < SLOTS ensures SlotOk(w, q, k) {
      assert SlotOk(idx, ptrs, k);
      if k != i { WriteOutside(idx, Slot(i), PtrField(v), Slot(k), Slot(k) + PTR_SZ); }
    }
    forall o | o in es ensures EntryOk(w, q, es, o) {
      assert EntryOk(idx, ptrs, es, o);
      WriteOutside(idx, Slot(i), PtrField(v), o, o + Size(es[o]));
    }
  }

  /** Overwriting one record by another of the same size changes that record and
      nothing else. */
  lemma WriteEntry(idx: bytes, ptrs: map<nat, nat>, es: map<nat, Entry>, o: nat, v: nat, e: Entry)
    requires Rendered(idx, ptrs, es) && o in es
    requires RecOk(Whole(v, e)) && Size(e) == Size(es[o])
    ensures o <= |idx|
    ensures Rendered(Write(idx, o, Encode(Whole(v, e))), ptrs[o := v], es[o := e])
  {
    assert EntryOk(idx, ptrs, es, o);
    var d := Encode(Whole(v, e));
    EncodeSize(Whole(v, e));
    var w, q, fs := Write(idx, o, d), ptrs[o := v], es[o := e];
    WriteLen(idx, o, d);
    WriteInside(idx, o, d);
    WriteOutside(idx, o, d, BASE - 1, BASE);
    assert w[BASE - 1..BASE][0] == idx[BASE - 1..BASE][0];
    forall k | 0 <= k < SLOTS ensures SlotOk(w, q, k) {
      assert SlotOk(idx, ptrs, k);
      WriteOutside(idx, o, d, Slot(k), Slot(k) + PTR_SZ);
    }
    forall p | p in fs ensures EntryOk(w, q, fs, p) {
      assert EntryOk(idx, ptrs, es, p);
      if p != o {
        assert if p < o then Before(es, p, o) else Before(es, o, p);
        WriteOutside(idx, o, d, p, p + Size(es[p]));
      }
    }
    TiledResize(|idx|, es, o, e);
  }

  lemma TiledResize(size: nat, es: map<nat, Entry>, o: nat, e: Entry)
    requires Tiled(size, es) && o in es && Size(e) == Size(es[o])
    ensures Tiled(size, es[o := e])
  {
    hide Size;
    var fs := es[o := e];
    forall p | p in fs ensures EndOk(size, fs, p) {
      assert EndOk(size, es, p);
    }
    forall p, r | p in fs && r in fs && p < r ensures Before(fs, p, r) {
      assert Before(es, p, r);
    }
  }

  /** A write of just the pointer at the front of a record is a rewrite of the record. */
  lemma WriteRecPtr(idx: bytes, ptrs: map<nat, nat>, es: map<nat, Entry>, o: nat, v: nat)
    requires Rendered(idx, ptrs, es) && o in es && v <= PTR_MAX
    ensures o <= |idx|
    ensures Rendered(Write(idx, o, PtrField(v)), ptrs[o := v], es)
  {
    assert EntryOk(idx, ptrs, es, o);
    hide Encode, PtrField, Rendered, Write;
    RewritePtr(idx, o, Whole(ptrs[o], es[o]), v);
    WriteEntry(idx, ptrs, es, o, v, es[o]);
    assert es[o := es[o]] == es;
  }

  lemma RewritePtr(idx: bytes, o: nat, r: Rec, v: nat)
    requires RecOk(r) && v <= PTR_MAX && o + RecSize(r) <= |idx| && idx[o..o + RecSize(r)] == Encode(r)
    ensures Write(idx, o, PtrField(v)) == Write(idx, o, Encode(r.(ptr := v)))
  {
    PtrFieldWidth(v);
    PtrFieldWidth(r.ptr);
    EncodeSize(r);
    EncodeSize(r.(ptr := v));
    var rest := Pad(IDXLEN_SZ, |BodyOf(r)|) + BodyOf(r);
    assert Encode(r) == PtrField(r.ptr) + rest;
    assert Encode(r.(ptr := v)) == PtrField(v) + rest;
    hide PtrField, Encode, Pad, BodyOf, RecSize;
    RewriteFront(idx, o, PtrField(r.ptr), PtrField(v), rest);
  }

  lemma RewriteFront(idx: bytes, o: nat, a: bytes, b: bytes, rest: bytes)
    requires |a| == |b| && o + |a| + |rest| <= |idx| && idx[o..o + |a| + |rest|] == a + rest
    ensures Write(idx, o, b) == Write(idx, o, b + rest)
  {
    var n := |a| + |rest|;
    assert idx[o + |a|..] == idx[o..o + n][|a|..] + idx[o + n..];
    assert (a + rest)[|a|..] == rest;
  }

  lemma TiledGrow(size: nat, es: map<nat, Entry>, e: Entry)
    requires Tiled(size, es) && size !in es
    requires forall p {:trigger Before(es, p, size)} :: p in es ==> Before(es, p, size)
    ensures Tiled(size + Size(e), es[size := e])
  {
    var fs := es[size := e];
    forall p | p in es ensures p < size { assert Before(es, p, size); }
    forall p | p in fs ensures EndOk(size + Size(e), fs, p) {
      if p != size { assert EndOk(size, es, p); }
    }
    forall p, r | p in fs && r in fs && p < r ensures Before(fs, p, r) {
      if r == size { assert Before(es, p, size); } else { assert Before(es, p, r); }
    }
  }

  lemma AppendSlot(idx: bytes, ptrs: map<nat, nat>, d: bytes, v: nat, k: nat)
    requires k < SLOTS && SlotOk(idx, ptrs, k) && |idx| >= BASE
    ensures SlotOk(Write(idx, |idx|, d), ptrs[|idx| := v], k)
  {
    WriteOutside(idx, |idx|, d, Slot(k), Slot(k) + PTR_SZ);
    hide Write, PtrField;
  }

  lemma AppendOther(idx: bytes, ptrs: map<nat, nat>, es: map<nat, Entry>, d: bytes, v: nat, e: Entry, p: nat)
    requires p in es && EntryOk(idx, ptrs, es, p)
    ensures p != |idx| && EntryOk(Write(idx, |idx|, d), ptrs[|idx| := v], es[|idx| := e], p)
  {
    WriteOutside(idx, |idx|, d, p, p + Size(es[p]));
    hide Write, Encode, RecOk, Size;
  }

  lemma AppendLast(idx: bytes, ptrs: map<nat, nat>, es: map<nat, Entry>, v: nat, e: Entry)
    requires RecOk(Whole(v, e)) && |idx| >= BASE
    ensures var w := Write(idx, |idx|, Encode(Whole(v, e)));
            |w| == |idx| + Size(e) && EntryOk(w, ptrs[|idx| := v], es[|idx| := e], |idx|)
  {
    EncodeSize(Whole(v, e));
    AppendLen(idx, Whole(v, e));
    WriteInside(idx, |idx|, Encode(Whole(v, e)));
    hide Write, Encode;
  }

  /** Appending a record extends the tiling by one. */
  lemma AppendEntry(idx: bytes, ptrs: map<nat, nat>, es: map<nat, Entry>, v: nat, e: Entry)
    requires Rendered(idx, ptrs, es) && RecOk(Whole(v, e))
    ensures |idx| !in es
    ensures Rendered(Write(idx, |idx|, Encode(Whole(v, e))), ptrs[|idx| := v], es[|idx| := e])
  {
    var o, d := |idx|, Encode(Whole(v, e));
    var w, q, fs := Write(idx, o, d), ptrs[o := v], es[o := e];
    assert w[BASE - 1] == idx[BASE - 1];
    hide Write, Encode, RecOk, Size;
    forall p | p in es ensures p < o && Before(es, p, o) { assert EntryOk(idx, ptrs, es, p); }
    forall k | 0 <= k < SLOTS ensures SlotOk(w, q, k) {
      assert SlotOk(idx, ptrs, k);
      AppendSlot(idx, ptrs, d, v, k);
    }
    AppendLast(idx, ptrs, es, v, e);
    forall p | p in fs ensures EntryOk(w, q, fs, p) {
      if p != o {
        assert EntryOk(idx, ptrs, es, p);
        AppendOther(idx, ptrs, es, d, v, e, p);
      }
    }
    TiledGrow(o, es, e);
  }

  // -- The data file -------------------------------------------------------------------

  predicate ExtentOk(dat: bytes, es: map<nat, Entry>, o: nat)
    requires o in es
  {
    var e := es[o];
    && 0 < e.datlen && e.datoff + e.datlen <= |dat|
    && dat[e.datoff + e.datlen - 1] == NEWLINE
    && NUL !in dat[e.datoff..e.datoff + e.datlen - 1]
  }

  predicate Apart(es: map<nat, Entry>, o: nat, p: nat)
    requires o in es && p in es
  {
    es[o].datoff + es[o].datlen <= es[p].datoff || es[p].datoff + es[p].datlen <= es[o].datoff
  }

  /** Every record has its own newline-terminated extent of the data file. */
  predicate DataOk(dat: bytes, es: map<nat, Entry>) {
    && (forall o {:trigger ExtentOk(dat, es, o)} :: o in es ==> ExtentOk(dat, es, o))
    && (forall o, p {:trigger Apart(es, o, p)} :: o in es && p in es && o != p ==> Apart(es, o, p))
  }

  /** The data of one record, without its newline. */
  function DataOf(dat: bytes, es: map<nat, Entry>, o: nat): CString
    requires o in es && ExtentOk(dat, es, o)
  {
    dat[es[o].datoff..es[o].datoff + es[o].datlen - 1]
  }

  /** Overwriting one record's extent leaves every other record's data alone. */
  lemma WriteData(dat: bytes, es: map<nat, Entry>, o: nat, data: CString)
    requires DataOk(dat, es) && o in es && |data| + 1 == es[o].datlen
    ensures es[o].datoff <= |dat|
    ensures var w := Write(dat, es[o].datoff, data + [NEWLINE]);
            && |w| == |dat| && DataOk(w, es) && ExtentOk(w, es, o)
            && DataOf(w, es, o) == data
            && forall p :: p in es && p != o ==>
                 ExtentOk(dat, es, p) && ExtentOk(w, es, p) && DataOf(w, es, p) == DataOf(dat, es, p)
  {
    assert ExtentOk(dat, es, o);
    var off := es[o].datoff;
    var w := Write(dat, off, data + [NEWLINE]);
    WriteLen(dat, off, data + [NEWLINE]);
    WriteInside(dat, off, data + [NEWLINE]);
    assert w[off + |data|] == w[off..off + |data| + 1][|data|];
    assert w[off..off + |data|] == w[off..off + |data| + 1][..|data|] == data;
    forall p | p in es && p != o
      ensures ExtentOk(dat, es, p) && ExtentOk(w, es, p) && DataOf(w, es, p) == DataOf(dat, es, p)
    {
      assert ExtentOk(dat, es, p) && Apart(es, o, p);
      KeepExtent(dat, off, data + [NEWLINE], es, p);
    }
  }

  /** A write clear of a record's extent keeps its data. */
  lemma KeepExtent(dat: bytes, off: nat, s: bytes, es: map<nat, Entry>, p: nat)
    requires off <= |dat| && p in es && ExtentOk(dat, es, p)
    requires off + |s| <= es[p].datoff || es[p].datoff + es[p].datlen <= off
    ensures ExtentOk(Write(dat, off, s), es, p)
    ensures DataOf(Write(dat, off, s), es, p) == DataOf(dat, es, p)
  {
    var a, b := es[p].datoff, es[p].datoff + es[p].datlen;
    var w := Write(dat, off, s);
    WriteOutside(dat, off, s, a, b);
    assert w[b - 1] == w[a..b][b - 1 - a] == dat[a..b][b - 1 - a];
    SliceTake(w, a, b, b - 1 - a);
    SliceTake(dat, a, b, b - 1 - a);
  }

  /** Appending data keeps every record's data. */
  lemma AppendData(dat: bytes, es: map<nat, Entry>, data: CString)
    requires DataOk(dat, es)
    ensures var w := Write(dat, |dat|, data + [NEWLINE]);
            && w == dat + data + [NEWLINE] && DataOk(w, es)
            && forall p :: p in es ==>
                 ExtentOk(dat, es, p) && ExtentOk(w, es, p) && DataOf(w, es, p) == DataOf(dat, es, p)
  {
    var w := Write(dat, |dat|, data + [NEWLINE]);
    forall p | p in es
      ensures ExtentOk(dat, es, p) && ExtentOk(w, es, p) && DataOf(w, es, p) == DataOf(dat, es, p)
    {
      assert ExtentOk(dat, es, p);
      KeepExtent(dat, |dat|, data + [NEWLINE], es, p);
    }
  }

  /** A new record may own data that lies clear of every other record's. */
  lemma NewExtent(dat: bytes, es: map<nat, Entry>, o: nat, e: Entry, data: CString)
    requires DataOk(dat, es) && o !in es && e.datlen == |data| + 1 && e.datoff + e.datlen <= |dat|
    requires dat[e.datoff..e.datoff + e.datlen] == data + [NEWLINE]
    requires forall p :: p in es ==> es[p].datoff + es[p].datlen <= e.datoff || e.datoff + e.datlen <= es[p].datoff
    ensures DataOk(dat, es[o := e]) && ExtentOk(dat, es[o := e], o) && DataOf(dat, es[o := e], o) == data
    ensures forall p :: p in es ==>
              ExtentOk(dat, es, p) && ExtentOk(dat, es[o := e], p) && DataOf(dat, es[o := e], p) == DataOf(dat, es, p)
  {
    var fs, a := es[o := e], e.datoff;
    assert dat[a + |data|] == dat[a..a + |data| + 1][|data|];
    SliceTake(dat, a, a + |data| + 1, |data|);
    assert (data + [NEWLINE])[..|data|] == data;
    forall p | p in fs ensures ExtentOk(dat, fs, p) { if p != o { assert ExtentOk(dat, es, p); } }
    forall p, r | p in fs && r in fs && p != r ensures Apart(fs, p, r) {
      if p != o && r != o { assert Apart(es, p, r); }
    }
  }
}

/** db.c run by one process: the DB structure, its two files, and the map they hold. */
module Db {
  import opened Ascii
  import opened DbFormat
  import opened Lists
  import opened DbLinks
  import opened DbBytes
  import opened DbView
  import opened DbSpec
  import opened DbLayout
  import opened DbHeads

  /** A call returns, or ends the process through err_dump or err_quit. */
  datatype Outcome<T> = Return(value: T) | Aborted

  class DB {
    // The index and data files, and the file offset of the index descriptor.
    var idx: bytes
    var dat: bytes
    var pos: nat

    // The DB structure.
    var idxbuf: CString
    var datbuf: CString
    var idxoff: nat
    var idxlen: nat
    var datoff: nat
    var datlen: nat
    var ptrval: nat
    var ptroff: nat
    var chainoff: nat

    // What the files mean.
    ghost var links: Links
    ghost var es: map<nat, Entry>
    ghost var loc: map<CString, nat>

    /** The index is a tiling of records threaded into the free list and the hash
        chains, and every record has its own data extent. A key with a separator, which
        stops every search, is the first of its chain. */
    ghost predicate Valid()
      reads this
    {
      && Rendered(idx, links.ptrs, es)
      && Wf(links, map[])
      && KeysOk(links.home, es, loc)
      && DataOk(dat, es)
      && HeadsOk(links.lists, loc)
    }

    /** Records with a nonblank key that no list leads to. */
    ghost function Orphans(): map<nat, CString>
      reads this
    {
      OrphansOf(links.home, es)
    }

    ghost function Map(): Contents
      reads this
      requires Valid()
    {
      ContentsOf(dat, links.home, es, loc)
    }

    /** Key and data lengths of the records on the free list. */
    ghost function Free(): multiset<(nat, nat)>
      reads this
    {
      if |links.lists| > 0 then FreeSizes(links.lists[0], es) else multiset{}
    }

    ghost function Sizes(): Layout
      reads this
    {
      Layout(|idx|, |dat|, Free(), Orphans())
    }

    /** db_open on a new file: SLOTS zero pointers and a newline. */
    constructor ()
      ensures Valid() && Map() == map[] && Sizes() == NEW
    {
      var hash: bytes := [];
      var i := 0;
      while i < SLOTS
        invariant 0 <= i <= SLOTS && |hash| == i * PTR_SZ
        invariant forall k :: 0 <= k < i ==> hash[Slot(k)..Slot(k) + PTR_SZ] == PtrField(0)
      {
        PtrFieldWidth(0);
        forall k | 0 <= k < i { PrefixSlice(hash, PtrField(0), Slot(k), Slot(k) + PTR_SZ); }
        hash := hash + PtrField(0);
        i := i + 1;
      }
      idx := hash + [NEWLINE];
      dat, pos, idxbuf, datbuf := [], BASE, [], [];
      idxoff, idxlen, datoff, datlen, ptrval, ptroff, chainoff := BASE, 0, 0, 0, 0, 0, 0;
      ghost var ptrs: map<nat, nat> := map k | 0 <= k < SLOTS :: Slot(k) := 0;
      links := Links(ptrs, seq(SLOTS, _ => []), map[]);
      es, loc := map[], map[];
      new;
      forall k | 0 <= k < SLOTS ensures SlotOk(idx, links.ptrs, k) {
        PrefixSlice(hash, [NEWLINE], Slot(k), Slot(k) + PTR_SZ);
      }
      forall k | 0 <= k < SLOTS ensures ListOk(links, k, map[]) {}
    }

    // -- Reads ---------------------------------------------------------------------------

    /** _db_readptr on any pointer field of any list. */
    method ReadPtr(off: nat, ghost i: nat, ghost j: nat) returns (v: nat)
      requires Rendered(idx, links.ptrs, es) && es.Keys == links.home.Keys && Wf(links, map[])
      requires i < SLOTS && j <= |links.lists[i]| && off == Field(links.lists[i], i, j)
      modifies `pos
      ensures off in links.ptrs && v == links.ptrs[off]
    {
      FieldReadable(idx, links, es, i, j, map[]);
      v := ReadPtrField(idx, off);
      pos := off + PTR_SZ;
    }

    /** _db_readidx: at `off`, or at the current file offset when `off` is 0. The result
        is the chain pointer, or -1 at end of file; a record with a separator in its key ends
        the process. */
    method ReadIdx(off: nat) returns (r: int, ok: bool)
      requires Rendered(idx, links.ptrs, es)
      requires var o := if off == 0 then pos else off; o in es || (off == 0 && o == |idx|)
      modifies `pos, `idxoff, `idxlen, `idxbuf, `datoff, `datlen, `ptrval
      ensures idxoff == if off == 0 then old(pos) else off
      ensures ok <==> idxoff in es ==> SEP !in es[idxoff].key
      ensures r == -1 <==> idxoff !in es
      ensures r == -1 ==> pos == old(pos)
      ensures r != -1 && ok ==>
                && idxoff in es && idxoff in links.ptrs
                && r == ptrval == links.ptrs[idxoff]
                && Entry(idxbuf, datoff, datlen) == es[idxoff]
                && pos == idxoff + Size(es[idxoff])
    {
      hide Rendered, ReadRec;
      EndIsNoRecord(idx, links.ptrs, es);
      idxoff := if off == 0 then pos else off;
      if off == 0 && idxoff == |idx| {
        return -1, true;
      }
      ReadEntry(idx, links.ptrs, es, idxoff);
      match ReadRec(idx, idxoff)
      case Dump =>
        r, ok := 0, false;
      case Read(rec, n) =>
        ptrval, idxlen, idxbuf, datoff, datlen := rec.ptr, n, rec.key, rec.datoff, rec.datlen;
        pos := idxoff + PTR_SZ + IDXLEN_SZ + n;
        r, ok := ptrval, true;
    }

    /** _db_readdat: the data of the record last read. */
    method ReadDat() returns (s: CString)
      requires DataOk(dat, es) && idxoff in es
      requires es[idxoff].datoff == datoff && es[idxoff].datlen == datlen
      modifies `datbuf
      ensures ExtentOk(dat, es, idxoff) && s == datbuf == DataOf(dat, es, idxoff)
    {
      assert ExtentOk(dat, es, idxoff);
      datbuf := dat[datoff..datoff + datlen - 1];
      s := datbuf;
    }

    // -- Writes --------------------------------------------------------------------------

    /** _db_writeptr; fails (err_quit) on a pointer that does not fit the field. */
    method WritePtr(off: nat, v: int) returns (ok: bool)
      requires off <= |idx|
      modifies `idx, `pos
      ensures ok <==> 0 <= v <= PTR_MAX
      ensures ok ==> idx == Write(old(idx), off, PtrField(v))
      ensures !ok ==> idx == old(idx)
    {
      if v < 0 || v > PTR_MAX { return false; }
      idx := Write(idx, off, PtrField(v));
      pos := off + PTR_SZ;
      ok := true;
    }

    /** _db_writeidx, at `off` or at the end of the file; fails (err_quit, err_dump) on a
        bad pointer or a bad record length. */
    method WriteIdx(key: CString, off: nat, atEnd: bool, v: int) returns (ok: bool)
      requires off <= |idx|
      modifies `idx, `pos, `idxoff, `ptrval, `idxbuf
      ensures ok <==> 0 <= v <= PTR_MAX && BodyLenOk(key, datoff, datlen)
      ensures ok ==>
                && idxoff == (if atEnd then |old(idx)| else off)
                && idx == Write(old(idx), idxoff, Encode(Rec(v, key, datoff, datlen)))
      ensures !ok ==> idx == old(idx)
    {
      if v < 0 || v > PTR_MAX { return false; }
      ptrval := v;
      var body := Body(key, datoff, datlen);
      if |body| < IDXLEN_MIN || |body| > IDXLEN_MAX { return false; }
      idxoff := if atEnd then |idx| else off;
      var rec := Encode(Rec(v, key, datoff, datlen));
      idx := Write(idx, idxoff, rec);
      pos := idxoff + |rec|;
      ok := true;
    }

    /** _db_writedat, at `off` or at the end of the file. */
    method WriteDat(data: CString, off: nat, atEnd: bool)
      requires off <= |dat|
      modifies `dat, `datoff, `datlen
      ensures datoff == (if atEnd then |old(dat)| else off)
      ensures datlen == |data| + 1
      ensures dat == Write(old(dat), datoff, data + [NEWLINE])
    {
      datoff := if atEnd then |dat| else off;
      datlen := |data| + 1;
      dat := Write(dat, datoff, data + [NEWLINE]);
    }

    // -- Searching -----------------------------------------------------------------------

    /** The DB structure describes position `j` of list `i`. */
    ghost predicate Cursor(i: nat, j: nat)
      reads this
    {
      && i < |links.lists| && j < |links.lists[i]|
      && idxoff == links.lists[i][j]
      && idxoff in links.ptrs && ptrval == links.ptrs[idxoff]
      && idxoff in es && es[idxoff] == Entry(idxbuf, datoff, datlen)
    }

    /** _db_find_and_lock, without its lock: walk the key's chain. */
    method Find(key: CString) returns (ok: bool, found: bool, ghost j: nat)
      requires Valid()
      modifies `pos, `idxoff, `idxlen, `idxbuf, `datoff, `datlen, `ptrval, `ptroff, `chainoff
      ensures Valid() && chainoff == Slot(SlotOf(key))
      ensures ok <==> !Blocked(loc.Keys, key)
      ensures ok ==> (found <==> key in loc)
      ensures ok && found ==>
                && Cursor(SlotOf(key), j) && idxoff == loc[key] && idxbuf == key
                && ptroff == Field(links.lists[SlotOf(key)], SlotOf(key), j)
    {
      hide Rendered, Wf, KeysOk, DataOk, HashOf, HeadsOk, Blocked, Blank;
      WfLists(links);
      KeyFacts(dat, links.home, es, loc);
      BlockedHead(links, es, loc, key, map[]);
      var h := Hash(key);
      chainoff := h * PTR_SZ + PTR_SZ;
      ptroff := chainoff;
      ghost var i := SlotOf(key);
      ghost var s := links.lists[i];
      assert chainoff == Slot(i);
      var offset := ReadPtr(ptroff, i, 0);
      LinkFacts(links, i, 0, map[]);
      j := 0;
      while offset != 0
        invariant 0 <= j <= |s| && offset == At(s, j)
        invariant ptroff == Field(s, i, j) && chainoff == Slot(i)
        invariant j > 0 ==> !Blocked(loc.Keys, key)
        invariant forall k :: 0 <= k < j ==> s[k] in es && es[s[k]].key != key
        decreases |s| - j
      {
        MemberFacts(links, i, j, map[]);
        ChainReadable(links, es, loc, i, j, map[]);
        var next;
        next, ok := ReadIdx(offset);
        if !ok { return false, false, j; }
        if idxbuf == key {
          NameAt(links.home, es, loc, offset);
          return true, true, j;
        }
        LinkFacts(links, i, j + 1, map[]);
        ptroff := offset;
        offset := next;
        j := j + 1;
      }
      if j < |s| { MemberFacts(links, i, j, map[]); }
      AbsentFrom(dat, links, es, loc, key);
      ok, found := true, false;
    }

    /** The loop of _db_findfree: look along the free list for a blank record of exactly
        these sizes. */
    method SearchFree(keylen: nat, want: nat) returns (found: bool, saveoffset: nat, ghost j: nat)
      requires Valid()
      modifies `pos, `idxoff, `idxlen, `idxbuf, `datoff, `datlen, `ptrval
      ensures Valid()
      ensures found ==>
                && Cursor(0, j) && |idxbuf| == keylen && datlen == want
                && saveoffset == Field(links.lists[0], 0, j)
      ensures !found ==>
                forall o :: o in links.lists[0] ==> o in es && !(|es[o].key| == keylen && es[o].datlen == want)
    {
      ghost var s := links.lists[0];
      saveoffset := 0;
      var offset := ReadPtr(saveoffset, 0, 0);
      LinkFacts(links, 0, 0, map[]);
      j := 0;
      while offset != 0
        invariant 0 <= j <= |s| && offset == At(s, j)
        invariant saveoffset == Field(s, 0, j)
        invariant forall k :: 0 <= k < j ==> s[k] in es && !(|es[s[k]].key| == keylen && es[s[k]].datlen == want)
        decreases |s| - j
      {
        MemberFacts(links, 0, j, map[]);
        FreeReadable(links, es, loc, j, map[]);
        var next, ok := ReadIdx(offset);
        if |idxbuf| == keylen && datlen == want { return true, saveoffset, j; }
        LinkFacts(links, 0, j + 1, map[]);
        saveoffset := offset;
        offset := next;
        j := j + 1;
      }
      if j < |s| { MemberFacts(links, 0, j, map[]); }
      found := false;
    }

    // -- Fetch, delete -------------------------------------------------------------------

    /** db_fetch. */
    method Fetch(key: CString) returns (r: Outcome<Fetched>)
      requires Valid()
      modifies `pos, `idxoff, `idxlen, `idxbuf, `datbuf, `datoff, `datlen, `ptrval, `ptroff, `chainoff
      ensures Valid() && Map() == old(Map())
      ensures r == if Blocked(Map().Keys, key) then Aborted else Return(FetchMap(Map(), key))
    {
      var ok, found, j := Find(key);
      if !ok { return Aborted; }
      if found {
        var s := ReadDat();
        r := Return(Found(s));
      } else {
        r := Return(NotFound);
      }
    }

    /** The two blanking loops of _db_dodelete. */
    method BlankBuffers()
      requires datlen > 0
      modifies `idxbuf, `datbuf
      ensures Blank(datbuf) && |datbuf| == datlen - 1
      ensures Blank(idxbuf) && |idxbuf| == |old(idxbuf)|
    {
      var i, s: bytes := 0, [];
      while i < datlen - 1
        invariant 0 <= i <= datlen - 1 && |s| == i && Blank(s)
      {
        s, i := s + [SPACE], i + 1;
      }
      datbuf := s;
      i, s := 0, idxbuf;
      while i < |s|
        invariant 0 <= i <= |s| == |idxbuf|
        invariant Blank(s[..i])
      {
        s := s[i := SPACE];
        i := i + 1;
      }
      assert s == s[..i];
      idxbuf := s;
    }

    /** The index writes of _db_dodelete, in the order of the code: between the first and
        the last the chain runs into the free list. */
    method MoveToFree(ghost i: nat, ghost j: nat)
      requires Rendered(idx, links.ptrs, es) && Wf(links, map[]) && es.Keys == links.home.Keys
      requires 1 <= i < SLOTS && j < |links.lists[i]| && idxoff == links.lists[i][j] && idxoff in es
      requires ptroff == Field(links.lists[i], i, j) && idxoff in links.ptrs && ptrval == links.ptrs[idxoff]
      requires datoff == es[idxoff].datoff && datlen == es[idxoff].datlen
      requires |idxbuf| == |es[idxoff].key| && Blank(idxbuf)
      modifies `idx, `pos, `idxoff, `ptrval, `idxbuf, `links, `es
      ensures Rendered(idx, links.ptrs, es) && Wf(links, map[]) && |idx| == |old(idx)|
      ensures links.home == old(links.home)[old(idxoff) := 0]
      ensures |links.lists| == SLOTS && links.lists[0] == [old(idxoff)] + old(links.lists)[0]
      ensures forall k :: 1 <= k < SLOTS && k != i ==> links.lists[k] == old(links.lists)[k]
      ensures es == old(es)[old(idxoff) := old(es)[old(idxoff)].(key := old(idxbuf))]
    {
      hide Rendered, Wf, Encode, PtrField, Write, Blank;
      WfLists(links);
      var o, b := idxoff, idxbuf;
      ghost var m := DeleteIndex(idx, links, es, i, j, b);
      WfLists(m);
      var freeptr := ReadPtr(0, 0, 0);
      var saveptr := ptrval;
      var ok := WriteIdx(idxbuf, o, false, freeptr);
      ok := WritePtr(0, o);
      ok := WritePtr(ptroff, saveptr);
      links := m;
      es := es[o := es[o].(key := b)];
    }

    /** _db_dodelete: blank the record the cursor is on and move it to the free list. */
    method DoDelete(ghost key: CString, ghost j: nat)
      requires Valid() && key in loc && loc[key] == idxoff && !Blocked(loc.Keys, key)
      requires Cursor(SlotOf(key), j) && ptroff == Field(links.lists[SlotOf(key)], SlotOf(key), j)
      modifies this
      ensures Valid() && Map() == old(Map()) - {key} && loc == old(loc) - {key}
      ensures Sizes() == AfterDelete(old(Sizes()), old(Map()), key) && chainoff == old(chainoff)
    {
      hide Rendered, Wf, KeysOk, DataOk, ContentsOf, FreeSizes, BodyLenOk, RecSize, HeadsOk, OrphansOf, Blocked;
      KeyFacts(dat, links.home, es, loc);
      WfLists(links);
      ghost var i := SlotOf(key);
      var o := idxoff;
      KeyAt(dat, links.home, es, loc, key);
      BlankBuffers();
      FreedSizes(dat, links, es, loc, key, idxbuf);
      DeleteMeaning(dat, links.home, es, loc, key, datbuf, idxbuf);
      OrphansSame(links.home, es, o, 0, es[o].(key := idxbuf));
      WriteDat(datbuf, datoff, false);
      MoveToFree(i, j);
      HeadsDropped(old(links.lists), links.lists, loc, key);
      loc := loc - {key};
    }

    /** db_delete. */
    method Delete(key: CString) returns (r: Outcome<int>)
      requires Valid()
      modifies this
      ensures Valid() && (r.Aborted? <==> Blocked(old(Map()).Keys, key))
      ensures r.Return? ==>
                && r.value == (if key in old(Map()) then 0 else -1) && Map() == old(Map()) - {key}
                && Sizes() == AfterDelete(old(Sizes()), old(Map()), key)
      ensures r.Aborted? ==> Map() == old(Map()) && Sizes() == old(Sizes())
    {
      hide Rendered, Wf, KeysOk, DataOk, ContentsOf, FreeSizes, HeadsOk, OrphansOf, Blocked;
      KeyFacts(dat, links.home, es, loc);
      var ok, found, j := Find(key);
      if !ok { return Aborted; }
      if found {
        DoDelete(key, j);
        r := Return(0);
      } else {
        r := Return(-1);
      }
    }

    // -- Store ---------------------------------------------------------------------------

    /** _db_findfree: a fitting record leaves the free list and is the caller's to fill. */
    method FindFree(keylen: nat, want: nat) returns (found: bool)
      requires Valid()
      modifies `pos, `idxoff, `idxlen, `idxbuf, `datoff, `datlen, `ptrval, `idx, `links
      ensures Valid() && Map() == old(Map()) && |idx| == |old(idx)|
      ensures forall i :: 1 <= i < SLOTS ==> links.lists[i] == old(links.lists)[i]
      ensures Orphans() == old(Orphans())
      ensures found ==>
                && idxoff in es && Blank(es[idxoff].key) && idxoff <= PTR_MAX
                && links.home == old(links.home)[idxoff := LIMBO]
                && |es[idxoff].key| == keylen && datlen == want == es[idxoff].datlen && datoff == es[idxoff].datoff
      ensures !found ==> links == old(links)
      ensures found <==> (keylen, want) in old(Free())
      ensures Free() == if found then old(Free()) - multiset{(keylen, want)} else old(Free())
    {
      hide Rendered, Wf, KeysOk, DataOk, ContentsOf, FreeSizes, HeadsOk, OrphansOf, Blank;
      KeyFacts(dat, links.home, es, loc);
      FreeFacts(links, es, keylen, want);
      var saveoffset; ghost var j;
      found, saveoffset, j := SearchFree(keylen, want);
      if found {
        FreeWithout(links.lists[0], es, j);
        UnlinkFree(idx, links, es, j);
        MemberFacts(links, 0, j, map[]);
        KeyInLimbo(links.home, es, loc, idxoff, es[idxoff]);
        assert es[idxoff := es[idxoff]] == es;
        FreeReadable(links, es, loc, j, map[]);
        OrphansSame(links.home, es, idxoff, LIMBO, es[idxoff]);
        HeadsKept(links.lists, Unlink(links, 0, j).lists, loc);
        var ok := WritePtr(saveoffset, ptrval);
        HomeIrrelevant(dat, links.home, links.home[idxoff := LIMBO], es, loc);
        links := Unlink(links, 0, j);
      }
    }

    /** The write that puts a filled-in record at the front of its key's chain. */
    method Publish(ghost key: CString) returns (ok: bool)
      requires Valid() && key !in loc && chainoff == Slot(SlotOf(key)) && !Blocked(loc.Keys, key)
      requires idxoff in es && es[idxoff].key == key && links.home[idxoff] == LIMBO
      requires idxoff in links.ptrs && links.ptrs[idxoff] == At(links.lists[SlotOf(key)], 0)
      modifies `idx, `pos, `links, `loc
      ensures Valid() && (ok <==> idxoff <= PTR_MAX) && |idx| == |old(idx)| && Free() == old(Free())
      ensures ok ==>
                && ExtentOk(dat, es, idxoff) && Map() == old(Map())[key := DataOf(dat, es, idxoff)]
                && links.home == old(links.home)[idxoff := SlotOf(key)]
      ensures !ok ==> Map() == old(Map()) && links == old(links)
    {
      ghost var i := SlotOf(key);
      ok := idxoff <= PTR_MAX;
      if ok {
        WriteSlot(idx, links.ptrs, es, i, idxoff);
        PushWf(links, i, idxoff, map[]);
        PublishMeaning(dat, links.home, es, loc, idxoff);
        HeadsAdded(links.lists, Push(links, i, idxoff).lists, loc, key, idxoff);
      }
      var done := WritePtr(chainoff, idxoff);
      if ok {
        links := Push(links, i, idxoff);
        loc := loc[key := idxoff];
      }
    }

    /** The data write of an append. */
    method AppendDat(data: CString)
      requires Valid()
      modifies `dat, `datoff, `datlen
      ensures Valid() && Map() == old(Map())
      ensures datlen == |data| + 1 && datoff == |old(dat)| <= |dat| && dat[datoff..] == data + [NEWLINE]
      ensures AllBelow(es, datoff) && |dat| == |old(dat)| + |data| + 1
    {
      AppendedData(dat, links.home, es, loc, data);
      WriteDat(data, 0, true);
      assert dat[datoff..] == data + [NEWLINE];
    }

    /** The index write of an append: a new record, on no list, owning the data that
        _db_writedat just put at the end of the data file. */
    method AppendIdx(key: CString, v: nat, ghost data: CString) returns (ok: bool)
      requires Valid() && v <= PTR_MAX && DATLEN_MIN <= datlen <= DATLEN_MAX
      requires AllBelow(es, datoff) && datlen == |data| + 1 && datoff <= |dat| && dat[datoff..] == data + [NEWLINE]
      modifies `idx, `pos, `idxoff, `ptrval, `idxbuf, `links, `es
      ensures Valid() && Map() == old(Map())
      ensures ok <==> BodyLenOk(key, datoff, datlen)
      ensures ok ==>
                && idxoff == |old(idx)| && idxoff !in old(es) && es == old(es)[idxoff := Entry(key, datoff, datlen)]
                && links == Place(old(links), idxoff, v)
                && ExtentOk(dat, es, idxoff) && DataOf(dat, es, idxoff) == data
                && |idx| == |old(idx)| + RecSize(Rec(0, key, datoff, datlen)) && Free() == old(Free())
      ensures !ok ==> links == old(links) && es == old(es) && idx == old(idx)
    {
      hide Rendered, Wf, KeysOk, DataOk, ContentsOf, FreeSizes, HeadsOk, OrphansOf, Encode;
      KeyFacts(dat, links.home, es, loc);
      ghost var o, e := |idx|, Entry(key, datoff, datlen);
      EndIsNoRecord(idx, links.ptrs, es);
      if BodyLenOk(key, datoff, datlen) {
        AppendEntry(idx, links.ptrs, es, v, e);
        PlaceWf(links, o, v, map[]);
        AppendedRecord(dat, links.home, es, loc, o, e, data);
        AppendLen(idx, Rec(v, key, datoff, datlen));
        NewNotFree(links, es, o, e);
      }
      ok := WriteIdx(key, 0, true, v);
      if ok { links, es := Place(links, o, v), es[o := e]; }
    }

    /** Append data and index record, then publish. */
    method AppendNew(key: CString, data: CString, v: nat) returns (ok: bool)
      requires Valid() && key !in loc && !Blocked(loc.Keys, key) && chainoff == Slot(SlotOf(key))
      requires LenOk(data) && v == At(links.lists[SlotOf(key)], 0)
      modifies `idx, `dat, `pos, `idxoff, `ptrval, `idxbuf, `datoff, `datlen, `links, `es, `loc
      ensures Valid() && (ok <==> RoomFor(old(Sizes()), key, data))
      ensures Map() == if ok then old(Map())[key := data] else old(Map())
      ensures Sizes() == if ok then Grown(old(Sizes()), key, data) else Stranded(old(Sizes()), key, data)
    {
      hide Rendered, Wf, KeysOk, DataOk, ContentsOf, FreeSizes, BodyLenOk, RecSize, HeadsOk, OrphansOf, Blocked, Blank;
      KeyFacts(dat, links.home, es, loc);
      MemberBound(idx, links, es, SlotOf(key), 0, map[]);
      EndIsNoRecord(idx, links.ptrs, es);
      OrphansNew(links.home, es, |idx|, Entry(key, |dat|, |data| + 1), SlotOf(key));
      AppendDat(data);
      ok := AppendIdx(key, v, data);
      if ok { ok := Publish(key); }
    }

    /** The index write into a record that no list holds. */
    method RewriteIdx(key: CString, v: nat)
      requires Valid() && v <= PTR_MAX
      requires idxoff in es && links.home[idxoff] == LIMBO && |es[idxoff].key| == |key|
      requires es[idxoff].datlen == datlen && es[idxoff].datoff == datoff
      modifies `idx, `pos, `idxoff, `ptrval, `idxbuf, `links, `es
      ensures Valid() && Map() == old(Map()) && idxoff == old(idxoff)
      ensures |idx| == |old(idx)| && Free() == old(Free())
      ensures links == Place(old(links), idxoff, v) && links.home == old(links.home)
      ensures es == old(es)[idxoff := old(es)[idxoff].(key := key)]
      ensures ExtentOk(dat, old(es), idxoff) && ExtentOk(dat, es, idxoff)
      ensures DataOf(dat, es, idxoff) == DataOf(dat, old(es), idxoff)
    {
      ghost var e := es[idxoff].(key := key);
      assert EntryOk(idx, links.ptrs, es, idxoff);
      LimboKey(dat, links.home, es, loc, idxoff, key);
      WriteEntry(idx, links.ptrs, es, idxoff, v, e);
      RewriteLen(idx, links.ptrs, es, idxoff, v, e);
      NewNotFree(links, es, idxoff, e);
      PlaceWf(links, idxoff, v, map[]);
      var ok := WriteIdx(key, idxoff, false, v);
      assert links.home[idxoff := LIMBO] == links.home;
      links, es := Place(links, idxoff, v), es[idxoff := e];
    }

    /** Fill in the record FindFree took, then publish. */
    method FillIn(key: CString, data: CString, v: nat)
      requires Valid() && key !in loc && !Blocked(loc.Keys, key) && chainoff == Slot(SlotOf(key))
      requires v == At(links.lists[SlotOf(key)], 0)
      requires idxoff in es && links.home[idxoff] == LIMBO && idxoff <= PTR_MAX && Blank(es[idxoff].key)
      requires |es[idxoff].key| == |key| && es[idxoff].datlen == datlen == |data| + 1 && es[idxoff].datoff == datoff
      modifies `idx, `dat, `pos, `idxoff, `ptrval, `idxbuf, `datoff, `datlen, `links, `es, `loc
      ensures Valid() && Map() == old(Map())[key := data] && Sizes() == old(Sizes())
      ensures links.home == old(links.home)[old(idxoff) := SlotOf(key)]
    {
      hide Rendered, Wf, KeysOk, DataOk, ContentsOf, FreeSizes, BodyLenOk, RecSize, HeadsOk, OrphansOf, Blocked, Blank;
      KeyFacts(dat, links.home, es, loc);
      MemberBound(idx, links, es, SlotOf(key), 0, map[]);
      OrphansSame(links.home, es, idxoff, SlotOf(key), es[idxoff].(key := key));
      LimboData(dat, links.home, es, loc, idxoff, data);
      WriteDat(data, datoff, false);
      RewriteIdx(key, v);
      var ok := Publish(key);
    }

    /** The first record of the key's chain. */
    method ReadHead(ghost key: CString) returns (ptr: nat)
      requires Valid() && chainoff == Slot(SlotOf(key))
      modifies `pos
      ensures Valid() && ptr == At(links.lists[SlotOf(key)], 0)
    {
      LinkFacts(links, SlotOf(key), 0, map[]);
      ptr := ReadPtr(chainoff, SlotOf(key), 0);
    }

    /** db_store once the key is known to be absent. */
    method StoreNew(key: CString, data: CString, flag: int) returns (r: Outcome<int>)
      requires Valid() && key !in loc && chainoff == Slot(SlotOf(key))
      requires LenOk(data) && FlagOk(flag) && !Blocked(loc.Keys, key)
      modifies this
      ensures Valid() && (r.Aborted? <==> StoreAborts(old(Sizes()), old(Map()), key, data, flag))
      ensures r.Return? ==>
                && r.value == StoreRc(old(Map()), key, flag)
                && Map() == StoreMap(old(Map()), key, data, flag)
                && Sizes() == AfterStore(old(Sizes()), old(Map()), key, data, flag)
      ensures r.Aborted? ==>
                && Map() == AbortMap(old(Map()), key, data)
                && Sizes() == AfterAbort(old(Sizes()), old(Map()), key, data)
    {
      hide Rendered, Wf, KeysOk, DataOk, ContentsOf, FreeSizes, BodyLenOk, RecSize, HeadsOk, OrphansOf, Blocked;
      KeyFacts(dat, links.home, es, loc);
      AbsentKey(Sizes(), Map(), key, data, flag);
      hide StoreRc, StoreMap, StoreAborts, AfterStore, RoomFor, Grown, SlotOf, AbortMap, AfterAbort, Stranded;
      if flag == DB_REPLACE { return Return(-1); }
      var ptr := ReadHead(key);
      var reuse := TryReuse(key, data, ptr);
      if reuse {
        r := Return(0);
      } else {
        var ok := AppendNew(key, data, ptr);
        r := if ok then Return(0) else Aborted;
      }
    }

    /** A free record of the right sizes, if there is one, is filled in and published. */
    method TryReuse(key: CString, data: CString, v: nat) returns (reuse: bool)
      requires Valid() && key !in loc && !Blocked(loc.Keys, key) && chainoff == Slot(SlotOf(key))
          && v == At(links.lists[SlotOf(key)], 0)
      modifies `idx, `dat, `pos, `idxoff, `idxlen, `ptrval, `idxbuf, `datoff, `datlen, `links, `es, `loc
      ensures Valid() && (reuse <==> (|key|, |data| + 1) in old(Free()))
      ensures reuse ==>
                && Map() == old(Map())[key := data]
                && Sizes() == old(Sizes()).(free := old(Free()) - multiset{(|key|, |data| + 1)})
      ensures !reuse ==>
          links == old(links) && es == old(es) && loc == old(loc) && dat == old(dat) && |idx| == |old(idx)|
    {
      hide Rendered, Wf, KeysOk, DataOk, ContentsOf, FreeSizes, BodyLenOk, RecSize, HeadsOk, OrphansOf, Blocked, Blank;
      reuse := FindFree(|key|, |data| + 1);
      if reuse { FillIn(key, data, v); }
    }

    /** db_store once the cursor is on the key's record. */
    method StoreOver(key: CString, data: CString, flag: int, ghost j: nat) returns (r: Outcome<int>)
      requires Valid() && key in loc && loc[key] == idxoff && chainoff == Slot(SlotOf(key))
      requires Cursor(SlotOf(key), j) && ptroff == Field(links.lists[SlotOf(key)], SlotOf(key), j)
      requires LenOk(data) && FlagOk(flag) && !Blocked(loc.Keys, key)
      modifies this
      ensures Valid() && (r.Aborted? <==> StoreAborts(old(Sizes()), old(Map()), key, data, flag))
      ensures r.Return? ==>
                && r.value == StoreRc(old(Map()), key, flag)
                && Map() == StoreMap(old(Map()), key, data, flag)
                && Sizes() == AfterStore(old(Sizes()), old(Map()), key, data, flag)
      ensures r.Aborted? ==>
                && Map() == AbortMap(old(Map()), key, data)
                && Sizes() == AfterAbort(old(Sizes()), old(Map()), key, data)
    {
      hide Rendered, Wf, KeysOk, DataOk, ContentsOf, FreeSizes, BodyLenOk, RecSize, HeadsOk, OrphansOf, Blocked, Blank;
      KeyFacts(dat, links.home, es, loc);
      KeyAt(dat, links.home, es, loc, key);
      BlockedLess(loc.Keys, loc.Keys - {key}, key);
      if flag == DB_INSERT { return Return(1); }
      if |data| + 1 != datlen {
        DoDelete(key, j);
        var ptr := ReadHead(key);
        var ok := AppendNew(key, data, ptr);
        r := if ok then Return(0) else Aborted;
      } else {
        ReplaceMeaning(dat, links.home, es, loc, key, data);
        WriteDat(data, datoff, false);
        r := Return(0);
      }
    }

    /** db_store. It aborts exactly when StoreAborts says so, and then leaves what AbortMap and
        AfterAbort say; the files stay well formed in any case. */
    method Store(key: CString, data: CString, flag: int) returns (r: Outcome<int>)
      requires Valid()
      modifies this
      ensures Valid() && (r.Aborted? <==> StoreAborts(old(Sizes()), old(Map()), key, data, flag))
      ensures r.Return? ==>
                && r.value == StoreRc(old(Map()), key, flag)
                && Map() == StoreMap(old(Map()), key, data, flag)
                && Sizes() == AfterStore(old(Sizes()), old(Map()), key, data, flag)
      ensures r.Aborted? ==>
                && Map() == AbortMap(old(Map()), key, data)
                && Sizes() == AfterAbort(old(Sizes()), old(Map()), key, data)
    {
      hide Rendered, Wf, KeysOk, DataOk, ContentsOf, FreeSizes, BodyLenOk, RecSize, HeadsOk, OrphansOf, Blocked;
      KeyFacts(dat, links.home, es, loc);
      if flag != DB_INSERT && flag != DB_REPLACE && flag != DB_STORE { return Return(-1); }
      if |data| + 1 < DATLEN_MIN || |data| + 1 > DATLEN_MAX { return Aborted; }
      var ok, found, j := Find(key);
      if !ok { return Aborted; }
      if found {
        r := StoreOver(key, data, flag, j);
      } else {
        r := StoreNew(key, data, flag);
      }
    }

    /** db_store and then db_fetch of the same key and of another: each flag with the return
        and the data that it promises. */
    method StoreThenFetch(key: CString, data: CString, flag: int, other: CString)
      returns (r: Outcome<int>, now: Outcome<Fetched>, beside: Outcome<Fetched>)
      requires Valid()
      modifies this
      ensures Valid()
      ensures r.Return? && key in old(Map()) ==>
                r.value == if flag == 1 then 1 else if flag == 2 || flag == 3 then 0 else -1
      ensures r.Return? && key !in old(Map()) ==> r.value == if flag == 1 || flag == 3 then 0 else -1
      ensures r == Return(0) ==> now == if SEP in key then Aborted else Return(Found(data))
      ensures r == Return(1) ==> key in old(Map()) && now == Return(Found(old(Map())[key]))
      ensures r == Return(-1) && now.Return? ==>
                now.value == if key in old(Map()) then Found(old(Map())[key]) else NotFound
      ensures r.Return? && other != key && beside.Return? ==>
                beside.value == if other in old(Map()) then Found(old(Map())[other]) else NotFound
    {
      hide Rendered, Wf, KeysOk, DataOk, ContentsOf, FreeSizes, BodyLenOk, RecSize, HeadsOk, OrphansOf, Blocked;
      ghost var m := Map();
      StoreLaw(m, key, data, flag, other);
      if !StoreAborts(Sizes(), m, key, data, flag) { StoreBlocks(Sizes(), m, key, data, flag); }
      r := Store(key, data, flag);
      now := Fetch(key);
      beside := Fetch(other);
    }

    // -- Whole runs ----------------------------------------------------------------------

    /** Any sequence of calls, all of it known beforehand: what each call returns, whether
        and where a store aborts, and what the database then holds. Without an abort that is
        what the plain map returns and holds (DbLayout.RunIsMap). */
    method Run(ops: seq<Op>) returns (outs: seq<Ret>, aborted: bool)
      requires Valid()
      modifies this
      ensures Valid() && Result(Sizes(), Map(), outs, aborted) == RunAll(old(Sizes()), old(Map()), ops)
    {
      hide Rendered, Wf, KeysOk, DataOk, ContentsOf, FreeSizes, BodyLenOk, RecSize, HeadsOk, OrphansOf, Blocked;
      ghost var l, m := Sizes(), Map();
      outs, aborted := [], false;
      var n := 0;
      while n < |ops| && !aborted
        invariant Valid() && n <= |ops|
        invariant RunAll(l, m, ops[..n]) == Result(Sizes(), Map(), outs, aborted)
        decreases |ops| - n
      {
        assert ops[..n + 1][..n] == ops[..n];
        var op := ops[n];
        match op {
          case OpFetch(key) =>
            var r := Fetch(key);
            if r.Aborted? { aborted := true; } else { outs := outs + [RetData(r.value)]; }
          case OpDelete(key) =>
            var r := Delete(key);
            if r.Aborted? { aborted := true; } else { outs := outs + [RetCode(r.value)]; }
          case OpStore(key, data, flag) =>
            var r := Store(key, data, flag);
            if r.Aborted? { aborted := true; } else { outs := outs + [RetCode(r.value)]; }
        }
        n := n + 1;
      }
      AbortedStays(l, m, ops, n);
      assert !aborted ==> ops[..n] == ops;
    }

    // -- Sequential scan -----------------------------------------------------------------

    /** db_rewind. */
    method Rewind()
      modifies `pos, `idxoff
      ensures pos == idxoff == BASE
    {
      pos := SLOTS * PTR_SZ + 1;
      idxoff := pos;
    }

    /** db_nextrec: the next record with a key that is not all blank; the process ends if that
        key has a separator. */
    method NextRec() returns (r: Outcome<Next>)
      requires Valid() && (pos == |idx| || pos in es)
      modifies `pos, `idxoff, `idxlen, `idxbuf, `datbuf, `datoff, `datlen, `ptrval
      ensures Valid() && Map() == old(Map()) && (r.Return? ==> pos == |idx| || pos in es)
      ensures var o := NextLive(|idx|, es, old(pos));
              if o !in es then r == Return(End) && pos == |idx|
              else if SEP in es[o].key then r == Aborted
              else
                && ExtentOk(dat, es, o) && r == Return(Next(Pair(es[o].key, DataOf(dat, es, o))))
                && pos == o + Size(es[o])
    {
      EndIsNoRecord(idx, links.ptrs, es);
      ghost var from := pos;
      while true
        invariant pos == |idx| || pos in es
        invariant NextLive(|idx|, es, from) == NextLive(|idx|, es, pos)
        decreases |idx| - pos
      {
        if pos in es {
          RecordInFile(idx, links.ptrs, es, pos);
          assert EndOk(|idx|, es, pos);
          NotBlank(es[pos].key);
        }
        var p, ok := ReadIdx(0);
        if !ok { return Aborted; }
        if p < 0 { return Return(End); }
        var blank := IsBlank(idxbuf);
        if !blank {
          var s := ReadDat();
          return Return(Next(Pair(idxbuf, s)));
        }
      }
    }

    /** db_rewind and then db_nextrec until it returns NULL. */
    method ScanFile() returns (ok: bool, out: seq<Pair>, ghost offs: seq<nat>)
      requires Valid()
      modifies `pos, `idxoff, `idxlen, `idxbuf, `datbuf, `datoff, `datlen, `ptrval
      ensures Valid() && Map() == old(Map())
      ensures ok <==> Legible(es, LiveOffsets(|idx|, es, BASE))
      ensures ok ==> offs == LiveOffsets(|idx|, es, BASE) && Shown(dat, es, out, offs)
    {
      hide Rendered, Wf, KeysOk, DataOk, ContentsOf, Shown, HeadsOk;
      Rewind();
      EndIsNoRecord(idx, links.ptrs, es);
      AtStart(idx, links.ptrs, es);
      ShownNone(dat, es);
      ghost var size, rs, all := |idx|, es, LiveOffsets(|idx|, es, BASE);
      out, offs := [], [];
      while true
        invariant pos == |idx| || pos in es
        invariant Ahead(size, rs, all, offs, pos)
        invariant Shown(dat, es, out, offs) && Legible(rs, offs)
        decreases size - pos
      {
        ghost var o := NextLive(size, rs, pos);
        LiveStep(size, rs, all, offs, pos);
        if o in es { RecordInFile(idx, links.ptrs, es, o); }
        var r := NextRec();
        if r.Aborted? {
          assert all[|offs|] == o;
          return false, out, offs;
        }
        if r.value == End { return true, out, offs; }
        ShownSnoc(dat, es, out, offs, r.value.pair, o);
        out, offs := out + [r.value.pair], offs + [o];
      }
    }

    /** A scan ends the process exactly when some record has a separator in its key. Else it
        returns every record with a nonblank key, once each, in file order: the live pairs whose
        key is not all blank, and the orphans. So it returns the map's nonblank pairs, once
        each and nothing else, exactly when there is no orphan. */
    method Scan() returns (r: Outcome<seq<Pair>>, ghost offs: seq<nat>)
      requires Valid()
      modifies `pos, `idxoff, `idxlen, `idxbuf, `datbuf, `datoff, `datlen, `ptrval
      ensures Valid() && Map() == old(Map())
      ensures r.Aborted? <==> ScanDumps(Sizes(), Map())
      ensures r.Return? ==>
                && Shown(dat, es, r.value, offs) && (forall i, j :: 0 <= i < j < |offs| ==> offs[i] < offs[j])
                && (forall o :: o in offs <==> o in Orphans() || (o in loc.Values && o in es && !Blank(es[o].key)))
                && (forall k :: k in Map() && !Blank(k) ==> Pair(k, Map()[k]) in r.value)
                && (Orphans() == map[] <==> Faithful(Map(), r.value))
    {
      hide Rendered, Wf, KeysOk, DataOk, ContentsOf, Shown, LiveOffsets, Faithful, OrphanIn, HeadsOk, Legible;
      var ok, out;
      ok, out, offs := ScanFile();
      ScanLegible(idx, dat, links, es, loc, Sizes());
      if !ok { return Aborted, offs; }
      ScanFacts(idx, dat, links, es, loc, out, offs);
      r := Return(out);
    }
  }

  /** On a new database, any number of calls, at most (PTR_MAX - BASE) / REC_MAX of them stores,
      with keys of 1 to KEY_MAX bytes without a separator and data of an allowed length, all
      return, and return what the plain map returns. */
  method RunNew(ops: seq<Op>) returns (db: DB, outs: seq<Ret>)
    requires BASE + Stores(ops) * REC_MAX <= PTR_MAX && forall i :: 0 <= i < |ops| ==> Modest(ops[i])
    ensures fresh(db) && db.Valid() && (db.Map(), outs) == SpecRun(map[], ops) && Answers(ops, outs)
  {
    hide RunAll, SpecRun, Answers;
    History(ops);
    ModestRunsReturn(ops);
    db := new DB();
    var aborted;
    outs, aborted := db.Run(ops);
  }

  /** A scan by another process after a run on a new database shows what the map holds exactly
      when the run did not end in an abort that left a record behind. */
  method RunThenScan(ops: seq<Op>) returns (db: DB, outs: seq<Ret>, r: Outcome<seq<Pair>>)
    ensures fresh(db) && db.Valid() && (db.Map(), outs) == (RunAll(NEW, map[], ops).m, RunAll(NEW, map[], ops).outs)
    ensures |outs| <= |ops| && Answers(ops[..|outs|], outs)
    ensures r.Aborted? <==> ScanDumps(RunAll(NEW, map[], ops).layout, RunAll(NEW, map[], ops).m)
    ensures r.Return? ==> (Faithful(db.Map(), r.value) <==> !EndsInOrphan(NEW, map[], ops))
  {
    hide RunAll, EndsInOrphan, ScanDumps, Faithful, SpecRun, Answers;
    OrphanIff(NEW, map[], ops);
    RunIsMap(NEW, map[], ops);
    History(ops[..|RunAll(NEW, map[], ops).outs|]);
    db := new DB();
    var aborted;
    outs, aborted := db.Run(ops);
    ghost var offs;
    r, offs := db.Scan();
  }

  /** Stores on a new database up to the one that aborts past PTR_MAX: the map is empty, and
      the scan returns pairs all the same. */
  method ScanShowsOrphan() returns (db: DB, r: Outcome<seq<Pair>>)
    ensures fresh(db) && db.Valid() && db.Map() == map[] && r.Return? && !Faithful(map[], r.value) && r.value != []
  {
    hide RunAll, EndsInOrphan, ScanDumps, Flips;
    OrphanReached();
    var outs;
    db, outs, r := RunThenScan(Flips(PTR_MAX));
  }

  /** Once a process has ended, further calls change nothing. */
  lemma {:induction false} AbortedStays(l: Layout, m: Contents, ops: seq<Op>, n: nat)
    requires n <= |ops|
    ensures RunAll(l, m, ops[..n]).aborted ==> RunAll(l, m, ops) == RunAll(l, m, ops[..n])
    decreases |ops|
  {
    if n == |ops| {
      assert ops[..n] == ops;
    } else {
      var k := |ops| - 1;
      AbortedStays(l, m, ops[..k], n);
      assert ops[..k][..n] == ops[..n];
    }
  }

  lemma NotBlank(s: bytes)
    ensures SEP in s ==> !Blank(s)
  {
  }

  // -- Records on no list ------------------------------------------------------------------

  ghost predicate OrphanIn(home: map<nat, nat>, es: map<nat, Entry>, o: nat) {
    o in es && o in home && home[o] == LIMBO && !Blank(es[o].key)
  }

  ghost function OrphansOf(home: map<nat, nat>, es: map<nat, Entry>): map<nat, CString> {
    map o | o in home && OrphanIn(home, es, o) :: es[o].key
  }

  /** One record changes, and is an orphan neither before nor after. */
  lemma OrphansSame(home: map<nat, nat>, es: map<nat, Entry>, o: nat, i: nat, e: Entry)
    requires !OrphanIn(home, es, o) && !OrphanIn(home[o := i], es[o := e], o)
    ensures OrphansOf(home[o := i], es[o := e]) == OrphansOf(home, es)
  {
  }

  /** A new record: an orphan until it is put on a list, unless its key is blank. */
  lemma OrphansNew(home: map<nat, nat>, es: map<nat, Entry>, o: nat, e: Entry, i: nat)
    requires o !in es && i != LIMBO
    ensures var all := OrphansOf(home, es);
            && OrphansOf(home[o := LIMBO], es[o := e]) == (if Blank(e.key) then all else all[o := e.key])
            && OrphansOf(home[o := LIMBO][o := i], es[o := e]) == all
  {
    var all := OrphansOf(home, es);
    assert forall p :: p in all <==> OrphanIn(home, es, p);
    var home' := home[o := LIMBO];
    assert forall p :: p in OrphansOf(home', es[o := e]) <==> (p == o && !Blank(e.key)) || p in all;
    OrphansSame(home, es, o, i, e);
    assert home'[o := i] == home[o := i];
  }

  lemma WfLists(l: Links)
    requires Wf(l, map[])
    ensures |l.lists| == SLOTS
  {
  }

  /** A key that no record of its chain has is not there. */
  lemma AbsentFrom(dat: bytes, l: Links, es: map<nat, Entry>, loc: map<CString, nat>, key: CString)
    requires Wf(l, map[]) && KeysOk(l.home, es, loc) && DataOk(dat, es) && SlotOf(key) < |l.lists|
    requires forall k :: 0 <= k < |l.lists[SlotOf(key)]| ==>
               l.lists[SlotOf(key)][k] in es && es[l.lists[SlotOf(key)][k]].key != key
    ensures key !in loc
  {
    if key in loc {
      KeyAt(dat, l.home, es, loc, key);
      ListIsHome(l, SlotOf(key), loc[key], map[]);
    }
  }

  /** What a deletion adds to the free list. */
  lemma FreedSizes(dat: bytes, l: Links, es: map<nat, Entry>, loc: map<CString, nat>, key: CString, b: CString)
    requires Wf(l, map[]) && KeysOk(l.home, es, loc) && DataOk(dat, es) && key in loc && |b| == |key|
    ensures loc[key] in es
    ensures var o, m := loc[key], ContentsOf(dat, l.home, es, loc);
            && key in m && FreeSizes([o] + l.lists[0], es[o := es[o].(key := b)]) == FreeSizes(l.lists[0],
                es) + Freed(m, key)
  {
    hide Wf, KeysOk, DataOk, ContentsOf, FreeSizes, DataOf;
    var o := loc[key];
    KeyAt(dat, l.home, es, loc, key);
    WfLists(l);
    ListIsHome(l, 0, o, map[]);
    FreeOther(l.lists[0], es, o, es[o].(key := b));
    FreePush(l.lists[0], es[o := es[o].(key := b)], o);
  }

  /** A record on no list does not count as free, whatever it becomes. */
  lemma NewNotFree(l: Links, es: map<nat, Entry>, o: nat, e: Entry)
    requires Wf(l, map[]) && (o in l.home ==> l.home[o] == LIMBO)
    ensures FreeSizes(l.lists[0], es[o := e]) == FreeSizes(l.lists[0], es)
  {
    ListIsHome(l, 0, o, map[]);
    FreeOther(l.lists[0], es, o, e);
  }

  lemma FreeFacts(l: Links, es: map<nat, Entry>, keylen: nat, want: nat)
    requires Wf(l, map[]) && es.Keys == l.home.Keys
    ensures (keylen, want) in FreeSizes(l.lists[0], es) <==>
            exists o :: o in l.lists[0] && o in es && |es[o].key| == keylen && es[o].datlen == want
  {
    var s := l.lists[0];
    forall k | 0 <= k < |s| ensures s[k] in es { MemberFacts(l, 0, k, map[]); }
    FreeHas(s, es, keylen, want);
    if o :| o in s && o in es && |es[o].key| == keylen && es[o].datlen == want {
      var k :| 0 <= k < |s| && s[k] == o;
    }
    if k :| 0 <= k < |s| && |es[s[k]].key| == keylen && es[s[k]].datlen == want { assert s[k] in s; }
  }

  // -- Scans as functions -------------------------------------------------------

  /** The loop of db_nextrec that skips until a NUL or a nonblank. */
  method IsBlank(s: CString) returns (b: bool)
    ensures b <==> Blank(s)
  {
    var i := 0;
    while i < |s| && s[i] == SPACE
      invariant 0 <= i <= |s| && forall k :: 0 <= k < i ==> s[k] == SPACE
    {
      i := i + 1;
    }
    b := i == |s|;
  }

  datatype Pair = Pair(key: CString, data: CString)

  datatype Next = Next(pair: Pair) | End

  /** The first record from `o` on, in file order, whose key is not all blank. */
  function NextLive(size: nat, es: map<nat, Entry>, o: nat): nat
    decreases if o < size then size - o else 0
  {
    if o !in es || o >= size then size
    else if !Blank(es[o].key) then o
    else NextLive(size, es, o + Size(es[o]))
  }

  /** All of them. */
  function LiveOffsets(size: nat, es: map<nat, Entry>, o: nat): seq<nat>
    decreases if o < size then size - o else 0
  {
    if o !in es || o >= size then []
    else (if Blank(es[o].key) then [] else [o]) + LiveOffsets(size, es, o + Size(es[o]))
  }

  lemma {:induction false} NextIsLive(size: nat, es: map<nat, Entry>, o: nat)
    requires size !in es
    ensures var n := NextLive(size, es, o);
            if n in es then o <= n < size && LiveOffsets(size, es, o) == [n] + LiveOffsets(size, es, n + Size(es[n]))
            else LiveOffsets(size, es, o) == []
    decreases if o < size then size - o else 0
  {
    if o in es && o < size && Blank(es[o].key) { NextIsLive(size, es, o + Size(es[o])); }
  }

  predicate Legible(es: map<nat, Entry>, offs: seq<nat>) {
    forall i :: 0 <= i < |offs| ==> offs[i] in es && SEP !in es[offs[i]].key
  }

  ghost predicate Ahead(size: nat, es: map<nat, Entry>, all: seq<nat>, offs: seq<nat>, o: nat) {
    all == offs + LiveOffsets(size, es, o)
  }

  lemma LiveStep(size: nat, es: map<nat, Entry>, all: seq<nat>, offs: seq<nat>, o: nat)
    requires size !in es && Ahead(size, es, all, offs, o)
    ensures var n := NextLive(size, es, o);
            if n in es then o <= n < n + Size(es[n]) && Ahead(size, es, all, offs + [n], n + Size(es[n]))
            else all == offs
  {
    NextIsLive(size, es, o);
    var n: nat := NextLive(size, es, o);
    if n in es {
      var rest := LiveOffsets(size, es, n + Size(es[n]));
      assert offs + ([n] + rest) == (offs + [n]) + rest;
    }
  }

  /** The scan meets every record past a boundary of the tiling, in increasing order. */
  lemma LiveFacts(size: nat, es: map<nat, Entry>, o: nat)
    requires Tiled(size, es) && (o == size || o in es) && forall p :: p in es ==> o <= p < size
    ensures var s := LiveOffsets(size, es, o);
            && (forall i, j :: 0 <= i < j < |s| ==> s[i] < s[j])
            && (forall p :: p in s <==> p in es && !Blank(es[p].key))
  {
    LiveRange(size, es, o);
    hide LiveOffsets;
    var s := LiveOffsets(size, es, o);
    forall p | p in es && !Blank(es[p].key) ensures p in s { LiveMet(size, es, o, p); }
  }

  /** Records from `o` on with nonblank keys, in increasing order. */
  predicate Ranged(es: map<nat, Entry>, s: seq<nat>, o: nat) {
    && (forall i :: 0 <= i < |s| ==> s[i] in es && s[i] >= o && !Blank(es[s[i]].key))
    && (forall i, j :: 0 <= i < j < |s| ==> s[i] < s[j])
  }

  lemma RangedNext(es: map<nat, Entry>, t: seq<nat>, o: nat, n: nat)
    requires Ranged(es, t, n) && o < n && o in es
    ensures Ranged(es, t, o) && (!Blank(es[o].key) ==> Ranged(es, [o] + t, o))
    ensures [] + t == t
  {
  }

  lemma RangedNone(es: map<nat, Entry>, o: nat)
    ensures Ranged(es, [], o)
  {
  }

  lemma {:induction false} LiveRange(size: nat, es: map<nat, Entry>, o: nat)
    ensures Ranged(es, LiveOffsets(size, es, o), o)
    decreases if o < size then size - o else 0
  {
    if o in es && o < size {
      var n := o + Size(es[o]);
      LiveRange(size, es, n);
      RangedNext(es, LiveOffsets(size, es, n), o, n);
      hide Ranged, Blank, Size;
    } else {
      RangedNone(es, o);
    }
  }

  lemma {:induction false} LiveMet(size: nat, es: map<nat, Entry>, o: nat, p: nat)
    requires Tiled(size, es) && (o == size || o in es) && p in es && o <= p < size && !Blank(es[p].key)
    ensures p in LiveOffsets(size, es, o)
    decreases if o < size then size - o else 0
  {
    assert EndOk(size, es, o);
    if p > o {
      assert Before(es, o, p);
      hide Tiled;
      LiveMet(size, es, o + Size(es[o]), p);
    }
  }

  ghost predicate ShownAt(dat: bytes, es: map<nat, Entry>, r: Pair, o: nat) {
    o in es && ExtentOk(dat, es, o) && r == Pair(es[o].key, DataOf(dat, es, o))
  }

  /** `out` lists the records at `offs`. */
  ghost predicate Shown(dat: bytes, es: map<nat, Entry>, out: seq<Pair>, offs: seq<nat>) {
    |out| == |offs| && forall i {:trigger ShownAt(dat, es, out[i], offs[i])} ::
        0 <= i < |out| ==> ShownAt(dat, es, out[i], offs[i])
  }

  lemma ShownSnoc(dat: bytes, es: map<nat, Entry>, out: seq<Pair>, offs: seq<nat>, r: Pair, o: nat)
    requires Shown(dat, es, out, offs) && ShownAt(dat, es, r, o)
    ensures Shown(dat, es, out + [r], offs + [o])
  {
    forall i | 0 <= i < |out| + 1 ensures ShownAt(dat, es, (out + [r])[i], (offs + [o])[i]) {
      if i < |out| { assert ShownAt(dat, es, out[i], offs[i]); }
    }
  }

  /** Each pair is the map's, no key comes twice, and none of the map's is missing. */
  ghost predicate Faithful(m: Contents, out: seq<Pair>) {
    && (forall i :: 0 <= i < |out| ==> out[i].key in m && m[out[i].key] == out[i].data)
    && (forall i, j :: 0 <= i < j < |out| ==> out[i].key != out[j].key)
    && (forall k :: k in m && !Blank(k) ==> Pair(k, m[k]) in out)
  }

  predicate Homes(home: map<nat, nat>) { forall o :: o in home ==> home[o] <= LIMBO }

  lemma HomesBounded(l: Links, es: map<nat, Entry>)
    requires Wf(l, map[])
    ensures Homes(l.home)
  {
    forall o | o in l.home ensures l.home[o] <= LIMBO { assert HomeOk(l, o); }
  }

  lemma RenderedTiles(idx: bytes, ptrs: map<nat, nat>, es: map<nat, Entry>)
    requires Rendered(idx, ptrs, es)
    ensures Tiled(|idx|, es) && (BASE == |idx| || BASE in es)
  {
  }

  /** A record with a nonblank key is live or an orphan. */
  lemma LiveOrOrphan(home: map<nat, nat>, es: map<nat, Entry>, loc: map<CString, nat>, o: nat)
    requires KeysOk(home, es, loc) && Homes(home)
    ensures o in es && !Blank(es[o].key) <==> OrphanIn(home, es, o) || (o in loc.Values && o in es && !Blank(es[o].key))
    ensures o in es && !Blank(es[o].key) && !OrphanIn(home, es, o) ==> es[o].key in loc && loc[es[o].key] == o
  {
    if o in es { assert NameOk(home, es, loc, o); }
  }

  /** A live record with a nonblank key is shown. */
  lemma ScanLive(dat: bytes, home: map<nat, nat>, es: map<nat, Entry>, loc: map<CString, nat>, out: seq<Pair>,
      offs: seq<nat>)
    requires KeysOk(home, es, loc) && DataOk(dat, es) && Shown(dat, es, out, offs) && Homes(home)
    requires forall p :: p in offs <==> p in es && !Blank(es[p].key)
    ensures forall o :: o in offs <==> OrphanIn(home, es, o) || (o in loc.Values && o in es && !Blank(es[o].key))
    ensures forall k ::
        k in ContentsOf(dat, home, es, loc) && !Blank(k) ==> Pair(k, ContentsOf(dat, home, es, loc)[k]) in out
  {
    forall o ensures o in offs <==> OrphanIn(home, es, o) || (o in loc.Values && o in es && !Blank(es[o].key)) {
      LiveOrOrphan(home, es, loc, o);
    }
    var m := ContentsOf(dat, home, es, loc);
    KeyFacts(dat, home, es, loc);
    forall k | k in m && !Blank(k) ensures Pair(k, m[k]) in out {
      KeyAt(dat, home, es, loc, k);
      var i :| 0 <= i < |offs| && offs[i] == loc[k];
      assert ShownAt(dat, es, out[i], offs[i]);
      assert out[i] == Pair(k, m[k]);
    }
  }

  lemma ShownLive(dat: bytes, home: map<nat, nat>, es: map<nat, Entry>, loc: map<CString, nat>, out: seq<Pair>,
      offs: seq<nat>, i: nat)
    requires KeysOk(home, es, loc) && DataOk(dat, es) && Shown(dat, es, out, offs) && Homes(home)
    requires i < |out| == |offs| && offs[i] in es && !Blank(es[offs[i]].key) && !OrphanIn(home, es, offs[i])
    ensures var m := ContentsOf(dat, home, es, loc);
            out[i].key in loc && loc[out[i].key] == offs[i] && out[i].key in m && m[out[i].key] == out[i].data
  {
    assert ShownAt(dat, es, out[i], offs[i]);
    LiveOrOrphan(home, es, loc, offs[i]);
    KeyAt(dat, home, es, loc, out[i].key);
  }

  /** An orphan's key is not in the map, or is shown a second time. */
  lemma ShownOrphan(dat: bytes, home: map<nat, nat>, es: map<nat, Entry>, loc: map<CString, nat>, out: seq<Pair>,
      offs: seq<nat>, o: nat)
    requires KeysOk(home, es, loc) && DataOk(dat, es) && Shown(dat, es, out, offs)
    requires forall p :: p in offs <==> p in es && !Blank(es[p].key)
    requires OrphanIn(home, es, o)
    ensures !Faithful(ContentsOf(dat, home, es, loc), out)
  {
    var m := ContentsOf(dat, home, es, loc);
    var i :| 0 <= i < |offs| && offs[i] == o;
    assert ShownAt(dat, es, out[i], offs[i]);
    KeyFacts(dat, home, es, loc);
    var k := out[i].key;
    if k in loc {
      KeyAt(dat, home, es, loc, k);
      var j :| 0 <= j < |offs| && offs[j] == loc[k];
      assert ShownAt(dat, es, out[j], offs[j]);
    }
  }

  lemma ScanOrphans(dat: bytes, home: map<nat, nat>, es: map<nat, Entry>, loc: map<CString, nat>, out: seq<Pair>,
      offs: seq<nat>)
    requires KeysOk(home, es, loc) && DataOk(dat, es) && Shown(dat, es, out, offs) && Homes(home)
    requires forall i, j :: 0 <= i < j < |offs| ==> offs[i] < offs[j]
    requires forall p :: p in offs <==> p in es && !Blank(es[p].key)
    ensures (forall o :: !OrphanIn(home, es, o)) <==> Faithful(ContentsOf(dat, home, es, loc), out)
  {
    var m := ContentsOf(dat, home, es, loc);
    if o :| OrphanIn(home, es, o) {
      ShownOrphan(dat, home, es, loc, out, offs, o);
    } else {
      ScanLive(dat, home, es, loc, out, offs);
      ShownSame(dat, es, out, offs);
      forall i | 0 <= i < |out|
        ensures out[i].key in loc && loc[out[i].key] == offs[i] && out[i].key in m && m[out[i].key] == out[i].data
      {
        assert offs[i] in offs;
        ShownLive(dat, home, es, loc, out, offs, i);
      }
    }
  }

  lemma ScanFacts(idx: bytes, dat: bytes, l: Links, es: map<nat, Entry>, loc: map<CString, nat>, out: seq<Pair>,
      offs: seq<nat>)
    requires Rendered(idx, l.ptrs, es) && Wf(l, map[]) && KeysOk(l.home, es, loc) && DataOk(dat, es)
    requires offs == LiveOffsets(|idx|, es, BASE) && Shown(dat, es, out, offs)
    ensures forall i, j :: 0 <= i < j < |offs| ==> offs[i] < offs[j]
    ensures forall o :: o in offs <==>
              o in OrphansOf(l.home, es) || (o in loc.Values && o in es && !Blank(es[o].key))
    ensures var m := ContentsOf(dat, l.home, es, loc);
            && (forall k :: k in m && !Blank(k) ==> Pair(k, m[k]) in out)
            && (OrphansOf(l.home, es) == map[] <==> Faithful(m, out))
  {
    forall p | p in es ensures BASE <= p < |idx| { RecordInFile(idx, l.ptrs, es, p); }
    RenderedTiles(idx, l.ptrs, es);
    LiveFacts(|idx|, es, BASE);
    HomesBounded(l, es);
    hide LiveOffsets, Rendered, Wf, KeysOk, DataOk, Shown, ContentsOf, Faithful;
    ScanLive(dat, l.home, es, loc, out, offs);
    ScanOrphans(dat, l.home, es, loc, out, offs);
    assert forall o :: o in OrphansOf(l.home, es) <==> OrphanIn(l.home, es, o);
  }

  /** A scan can read every record exactly when no key of the map or of an orphan has a
      separator. */
  lemma ScanLegible(idx: bytes, dat: bytes, l: Links, es: map<nat, Entry>, loc: map<CString, nat>, y: Layout)
    requires Rendered(idx, l.ptrs, es) && Wf(l, map[]) && KeysOk(l.home, es, loc) && DataOk(dat, es)
    requires y.orphans == OrphansOf(l.home, es)
    ensures Legible(es, LiveOffsets(|idx|, es, BASE)) <==> !ScanDumps(y, ContentsOf(dat, l.home, es, loc))
  {
    var offs, m := LiveOffsets(|idx|, es, BASE), ContentsOf(dat, l.home, es, loc);
    forall p | p in es ensures BASE <= p < |idx| { RecordInFile(idx, l.ptrs, es, p); }
    RenderedTiles(idx, l.ptrs, es);
    LiveFacts(|idx|, es, BASE);
    HomesBounded(l, es);
    hide LiveOffsets, Rendered, Wf, KeysOk, DataOk, ContentsOf, Blank;
    KeyFacts(dat, l.home, es, loc);
    if ScanDumps(y, m) {
      var o := DumpingRecord(dat, l.home, es, loc, y);
      NotBlank(es[o].key);
      assert o in offs;
    } else {
      forall i | 0 <= i < |offs| ensures SEP !in es[offs[i]].key {
        assert offs[i] in offs;
        NoDump(dat, l.home, es, loc, y, offs[i]);
      }
    }
  }

  lemma DumpingRecord(dat: bytes, home: map<nat, nat>, es: map<nat, Entry>, loc: map<CString, nat>, y: Layout)
    returns (o: nat)
    requires KeysOk(home, es, loc) && DataOk(dat, es) && y.orphans == OrphansOf(home, es)
    requires ScanDumps(y, ContentsOf(dat, home, es, loc))
    ensures o in es && SEP in es[o].key
  {
    hide KeysOk, DataOk, ContentsOf;
    KeyFacts(dat, home, es, loc);
    if k :| k in ContentsOf(dat, home, es, loc) && SEP in k {
      KeyAt(dat, home, es, loc, k);
      o := loc[k];
    } else {
      o :| o in y.orphans && SEP in y.orphans[o];
    }
  }

  lemma NoDump(dat: bytes, home: map<nat, nat>, es: map<nat, Entry>, loc: map<CString, nat>, y: Layout, o: nat)
    requires KeysOk(home, es, loc) && DataOk(dat, es) && Homes(home) && y.orphans == OrphansOf(home, es)
    requires !ScanDumps(y, ContentsOf(dat, home, es, loc)) && o in es && !Blank(es[o].key)
    ensures SEP !in es[o].key
  {
    hide KeysOk, DataOk, ContentsOf, Blank;
    KeyFacts(dat, home, es, loc);
    LiveOrOrphan(home, es, loc, o);
    if OrphanIn(home, es, o) { assert o in y.orphans && y.orphans[o] == es[o].key; }
  }

  lemma AtStart(idx: bytes, ptrs: map<nat, nat>, es: map<nat, Entry>)
    requires Rendered(idx, ptrs, es)
    ensures BASE == |idx| || BASE in es
  {
  }

  lemma ShownNone(dat: bytes, es: map<nat, Entry>)
    ensures Shown(dat, es, [], [])
  {
  }

  lemma ShownSame(dat: bytes, es: map<nat, Entry>, out: seq<Pair>, offs: seq<nat>)
    requires Shown(dat, es, out, offs)
    ensures |out| == |offs|
  {
  }
}

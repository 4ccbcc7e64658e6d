/** What the records of the two files mean as a map from keys to data. */
module DbView {
  import opened Ascii
  import opened DbFormat
  import opened Lists
  import opened DbLinks
  import opened DbBytes
  import opened DbSpec

  /** `loc` names the record that holds a key; it is on that key's hash chain. */
  predicate LocOk(home: map<nat, nat>, es: map<nat, Entry>, loc: map<CString, nat>, k: CString)
    requires k in loc
  {
    loc[k] in es && loc[k] in home && es[loc[k]].key == k && home[loc[k]] == SlotOf(k)
  }

  /** A record on a chain is the one its key names; a record on the free list is blank. */
  predicate NameOk(home: map<nat, nat>, es: map<nat, Entry>, loc: map<CString, nat>, o: nat)
    requires o in es
  {
    && o in home
    && (1 <= home[o] < LIMBO ==> es[o].key in loc && loc[es[o].key] == o)
    && (home[o] == 0 ==> Blank(es[o].key))
  }

  ghost predicate KeysOk(home: map<nat, nat>, es: map<nat, Entry>, loc: map<CString, nat>) {
    && es.Keys == home.Keys
    && (forall k {:trigger LocOk(home, es, loc, k)} :: k in loc ==> LocOk(home, es, loc, k))
    && (forall o {:trigger NameOk(home, es, loc, o)} :: o in es ==> NameOk(home, es, loc, o))
  }

  ghost function ContentsOf(dat: bytes, home: map<nat, nat>, es: map<nat, Entry>, loc: map<CString, nat>): Contents
    requires KeysOk(home, es, loc) && DataOk(dat, es)
  {
    map k | k in loc :: Value(dat, home, es, loc, k)
  }

  ghost function Value(dat: bytes, home: map<nat, nat>, es: map<nat, Entry>, loc: map<CString, nat>,
      k: CString): CString
    requires KeysOk(home, es, loc) && DataOk(dat, es) && k in loc
  {
    assert LocOk(home, es, loc, k);
    assert ExtentOk(dat, es, loc[k]);
    DataOf(dat, es, loc[k])
  }

  /** The keys of the map, and the records that hold them. */
  lemma KeyFacts(dat: bytes, home: map<nat, nat>, es: map<nat, Entry>, loc: map<CString, nat>)
    requires KeysOk(home, es, loc) && DataOk(dat, es)
    ensures es.Keys == home.Keys && ContentsOf(dat, home, es, loc).Keys == loc.Keys
  {
  }

  lemma NameAt(home: map<nat, nat>, es: map<nat, Entry>, loc: map<CString, nat>, o: nat)
    requires KeysOk(home, es, loc) && o in es
    ensures NameOk(home, es, loc, o)
  {
  }

  lemma KeyAt(dat: bytes, home: map<nat, nat>, es: map<nat, Entry>, loc: map<CString, nat>, k: CString)
    requires KeysOk(home, es, loc) && DataOk(dat, es) && k in loc
    ensures LocOk(home, es, loc, k) && ExtentOk(dat, es, loc[k]) && k in ContentsOf(dat, home, es, loc)
    ensures ContentsOf(dat, home, es, loc)[k] == DataOf(dat, es, loc[k])
        && es[loc[k]].datlen == |DataOf(dat, es, loc[k])| + 1
  {
    assert LocOk(home, es, loc, k);
    assert ExtentOk(dat, es, loc[k]);
  }

  /** A key's record leaves its chain and turns blank. */
  lemma KeyDropped(home: map<nat, nat>, es: map<nat, Entry>, loc: map<CString, nat>, k: CString, e: Entry)
    requires KeysOk(home, es, loc) && k in loc && Blank(e.key)
    ensures loc[k] in es
    ensures KeysOk(home[loc[k] := 0], es[loc[k] := e], loc - {k})
  {
    assert LocOk(home, es, loc, k);
    var o := loc[k];
    var home', es', loc' := home[o := 0], es[o := e], loc - {k};
    forall q | q in loc' ensures LocOk(home', es', loc', q) { assert LocOk(home, es, loc, q); }
    forall p | p in es' ensures NameOk(home', es', loc', p) { assert NameOk(home, es, loc, p); }
  }

  /** A record off the chains, or a new one, takes a key that had none. */
  lemma KeyAdded(home: map<nat, nat>, es: map<nat, Entry>, loc: map<CString, nat>, o: nat, e: Entry)
    requires KeysOk(home, es, loc) && e.key !in loc
    requires o in home ==> home[o] == 0 || home[o] == LIMBO
    ensures KeysOk(home[o := SlotOf(e.key)], es[o := e], loc[e.key := o])
  {
    var home', es', loc' := home[o := SlotOf(e.key)], es[o := e], loc[e.key := o];
    forall q | q in loc' ensures LocOk(home', es', loc', q) {
      if q != e.key { assert LocOk(home, es, loc, q); }
    }
    forall p | p in es' ensures NameOk(home', es', loc', p) {
      if p != o { assert NameOk(home, es, loc, p); }
    }
  }

  /** A key's record leaves its chain for limbo; whatever it holds then is no longer a key. */
  lemma KeyWithdrawn(home: map<nat, nat>, es: map<nat, Entry>, loc: map<CString, nat>, k: CString, e: Entry)
    requires KeysOk(home, es, loc) && k in loc
    ensures KeysOk(home[loc[k] := LIMBO], es[loc[k] := e], loc - {k})
  {
    assert LocOk(home, es, loc, k);
    var o := loc[k];
    var home', es', loc' := home[o := LIMBO], es[o := e], loc - {k};
    forall q | q in loc' ensures LocOk(home', es', loc', q) { assert LocOk(home, es, loc, q); }
    forall p | p in es' ensures NameOk(home', es', loc', p) { assert NameOk(home, es, loc, p); }
  }

  /** A blank record in limbo may join the free list. */
  lemma KeyFreed(home: map<nat, nat>, es: map<nat, Entry>, loc: map<CString, nat>, o: nat)
    requires KeysOk(home, es, loc) && o in es && o in home && home[o] == LIMBO && Blank(es[o].key)
    ensures KeysOk(home[o := 0], es, loc)
  {
    var home' := home[o := 0];
    forall q | q in loc ensures LocOk(home', es, loc, q) { assert LocOk(home, es, loc, q); }
    forall p | p in es ensures NameOk(home', es, loc, p) { assert NameOk(home, es, loc, p); }
  }

  /** A record in limbo may hold anything. */
  lemma KeyInLimbo(home: map<nat, nat>, es: map<nat, Entry>, loc: map<CString, nat>, o: nat, e: Entry)
    requires KeysOk(home, es, loc)
    requires o in home ==> home[o] == 0 || home[o] == LIMBO
    ensures KeysOk(home[o := LIMBO], es[o := e], loc)
  {
    var home', es' := home[o := LIMBO], es[o := e];
    forall q | q in loc ensures LocOk(home', es', loc, q) { assert LocOk(home, es, loc, q); }
    forall p | p in es' ensures NameOk(home', es', loc, p) {
      if p != o { assert NameOk(home, es, loc, p); }
    }
  }

  /** The data file may change as long as each key's data does not. */
  lemma SameContents(dat: bytes, home: map<nat, nat>, es: map<nat, Entry>, loc: map<CString, nat>,
                     dat': bytes, home': map<nat, nat>, es': map<nat, Entry>, loc': map<CString, nat>)
    requires KeysOk(home, es, loc) && DataOk(dat, es) && KeysOk(home', es', loc') && DataOk(dat', es')
    requires forall k {:trigger LocOk(home', es', loc', k)} :: k in loc' && k in loc ==>
               loc'[k] == loc[k] && loc[k] in es && loc[k] in es'
               && ExtentOk(dat, es, loc[k]) && ExtentOk(dat', es', loc[k])
               && DataOf(dat', es', loc[k]) == DataOf(dat, es, loc[k])
    ensures forall k :: k in loc' && k in loc ==>
              ContentsOf(dat', home', es', loc')[k] == ContentsOf(dat, home, es, loc)[k]
  {
    forall k | k in loc' && k in loc
      ensures ContentsOf(dat', home', es', loc')[k] == ContentsOf(dat, home, es, loc)[k]
    {
      assert LocOk(home', es', loc', k);
    }
  }

  /** Changing a record's key keeps every extent. */
  lemma RenameData(dat: bytes, es: map<nat, Entry>, o: nat, key: CString)
    requires DataOk(dat, es) && o in es
    ensures var es' := es[o := es[o].(key := key)];
            && DataOk(dat, es')
            && forall p :: p in es ==>
                ExtentOk(dat, es, p) && ExtentOk(dat, es', p) && DataOf(dat, es', p) == DataOf(dat, es, p)
  {
    var es' := es[o := es[o].(key := key)];
    forall p | p in es ensures ExtentOk(dat, es, p) && ExtentOk(dat, es', p)
        && DataOf(dat, es', p) == DataOf(dat, es, p) {
      assert ExtentOk(dat, es, p);
    }
    forall p, q | p in es' && q in es' && p != q ensures Apart(es', p, q) { assert Apart(es, p, q); }
  }

  /** The pointer to a list member, and so the member's offset, fits a pointer field. */
  lemma MemberBound(idx: bytes, l: Links, es: map<nat, Entry>, i: nat, j: nat, stale: map<nat, nat>)
    requires Rendered(idx, l.ptrs, es) && Wf(l, stale) && es.Keys == l.home.Keys
    requires i < SLOTS && i !in stale && j <= |l.lists[i]|
    ensures At(l.lists[i], j) <= PTR_MAX
  {
    LinkFacts(l, i, j, stale);
    FieldReadable(idx, l, es, i, j, stale);
  }

  lemma FieldReadable(idx: bytes, l: Links, es: map<nat, Entry>, i: nat, j: nat, stale: map<nat, nat>)
    requires Rendered(idx, l.ptrs, es) && Wf(l, stale) && es.Keys == l.home.Keys
    requires i < SLOTS && j <= |l.lists[i]|
    ensures var f := Field(l.lists[i], i, j);
            && f in l.ptrs && l.ptrs[f] <= PTR_MAX && f + PTR_SZ <= |idx|
            && ReadPtrField(idx, f) == l.ptrs[f]
  {
    if j > 0 { MemberFacts(l, i, j - 1, stale); }
    ReadField(idx, l.ptrs, es, Field(l.lists[i], i, j));
  }

  /** A pointer write anywhere along a list. */
  lemma WriteField(idx: bytes, l: Links, es: map<nat, Entry>, i: nat, j: nat, v: nat, stale: map<nat, nat>)
    requires Rendered(idx, l.ptrs, es) && Wf(l, stale) && es.Keys == l.home.Keys
    requires i < SLOTS && j <= |l.lists[i]| && v <= PTR_MAX
    ensures var f := Field(l.lists[i], i, j);
            f <= |idx| && Rendered(Write(idx, f, PtrField(v)), l.ptrs[f := v], es)
  {
    if j > 0 {
      MemberFacts(l, i, j - 1, stale);
      WriteRecPtr(idx, l.ptrs, es, l.lists[i][j - 1], v);
    } else {
      WriteSlot(idx, l.ptrs, es, i, v);
    }
  }

  /** The three index writes of a deletion, in order, from the cursor at position `j` of
      chain `i`: the record turns into `b` and points into the free list, the free list
      starts at it, and the chain skips it. */
  lemma DeleteIndex(idx: bytes, l: Links, es: map<nat, Entry>, i: nat, j: nat, b: CString)
    returns (m: Links)
    requires Rendered(idx, l.ptrs, es) && Wf(l, map[]) && es.Keys == l.home.Keys
    requires 1 <= i < SLOTS && j < |l.lists[i]|
    requires l.lists[i][j] in es && |b| == |es[l.lists[i][j]].key|
    ensures var o := l.lists[i][j];
            var e := es[o].(key := b);
            var v, f, save := At(l.lists[0], 0), Field(l.lists[i], i, j), At(l.lists[i], j + 1);
            && Slot(0) in l.ptrs && l.ptrs[Slot(0)] == v && o in l.ptrs && l.ptrs[o] == save
            && o <= |idx| && v <= PTR_MAX && o <= PTR_MAX && save <= PTR_MAX
            && BodyLenOk(b, e.datoff, e.datlen)
            && var idx1 := Write(idx, o, Encode(Rec(v, b, e.datoff, e.datlen)));
               var idx2 := Write(idx1, 0, PtrField(o));
               && f <= |idx2|
               && var idx3 := Write(idx2, f, PtrField(save));
                  && |idx3| == |idx| && Rendered(idx3, m.ptrs, es[o := e])
                  && Wf(m, map[]) && m.home == l.home[o := 0]
    ensures m.lists == l.lists[i := Without(l.lists[i], j)][0 := [l.lists[i][j]] + l.lists[0]]
  {
    var o := l.lists[i][j];
    var e := es[o].(key := b);
    var v, f, save := At(l.lists[0], 0), Field(l.lists[i], i, j), At(l.lists[i], j + 1);
    LinkFacts(l, 0, 0, map[]);
    LinkFacts(l, i, j + 1, map[]);
    MemberBound(idx, l, es, 0, 0, map[]);
    MemberBound(idx, l, es, i, j, map[]);
    MemberBound(idx, l, es, i, j + 1, map[]);
    assert EntryOk(idx, l.ptrs, es, o);
    WriteEntry(idx, l.ptrs, es, o, v, e);
    DivertWf(l, i, j, v, map[]);
    DeleteRelink(Write(idx, o, Encode(Rec(v, b, e.datoff, e.datlen))), Divert(l, i, j, v), es[o := e], i, j, o, save);
    EncodeSize(Whole(v, e));
    WriteLen(idx, o, Encode(Whole(v, e)));
    m := Repair(Push(Divert(l, i, j, v), 0, o), i, j);
  }

  /** The last two of those writes. */
  lemma DeleteRelink(idx: bytes, l: Links, es: map<nat, Entry>, i: nat, j: nat, o: nat, save: nat)
    requires Rendered(idx, l.ptrs, es) && Wf(l, map[i := j]) && es.Keys == l.home.Keys
    requires 1 <= i < SLOTS && j <= |l.lists[i]| && save == At(l.lists[i], j)
    requires o <= PTR_MAX && save <= PTR_MAX
    requires o in l.home && l.home[o] == LIMBO && o in l.ptrs && l.ptrs[o] == At(l.lists[0], 0)
    ensures var idx2 := Write(idx, 0, PtrField(o));
            var f := Field(l.lists[i], i, j);
            && f <= |idx2|
            && var idx3 := Write(idx2, f, PtrField(save));
               var m := Repair(Push(l, 0, o), i, j);
               |idx3| == |idx| && Rendered(idx3, m.ptrs, es) && Wf(m, map[])
  {
    var idx2, l2, f := Write(idx, 0, PtrField(o)), Push(l, 0, o), Field(l.lists[i], i, j);
    WriteSlot(idx, l.ptrs, es, 0, o);
    PushWf(l, 0, o, map[i := j]);
    WriteField(idx2, l2, es, i, j, save, map[i := j]);
    RepairWf(l2, i, j, map[i := j]);
    assert map[i := j] - {i} == map[];
    PtrFieldWidth(o);
    PtrFieldWidth(save);
    FieldReadable(idx2, l2, es, i, j, map[i := j]);
  }

  /** What the data write and the index writes of a deletion mean. */
  lemma DeleteMeaning(dat: bytes, home: map<nat, nat>, es: map<nat, Entry>, loc: map<CString, nat>,
                      key: CString, blanks: CString, b: CString)
    requires KeysOk(home, es, loc) && DataOk(dat, es) && key in loc && loc[key] in es
    requires |blanks| + 1 == es[loc[key]].datlen && Blank(b)
    ensures var o := loc[key];
            && es[o].datoff <= |dat|
            && var dat', es' := Write(dat, es[o].datoff, blanks + [NEWLINE]), es[o := es[o].(key := b)];
               && |dat'| == |dat| && DataOk(dat', es') && KeysOk(home[o := 0], es', loc - {key})
               && ContentsOf(dat', home[o := 0], es', loc - {key}) == ContentsOf(dat, home, es, loc) - {key}
  {
    var o := loc[key];
    assert LocOk(home, es, loc, key);
    WriteData(dat, es, o, blanks);
    var dat', es' := Write(dat, es[o].datoff, blanks + [NEWLINE]), es[o := es[o].(key := b)];
    RenameData(dat', es, o, b);
    KeyDropped(home, es, loc, key, es[o].(key := b));
    forall k | k in loc && k != key ensures loc[k] in es && loc[k] != o && ExtentOk(dat, es, loc[k]) {
      assert LocOk(home, es, loc, k);
    }
    SameContents(dat, home, es, loc, dat', home[o := 0], es', loc - {key});
  }

  /** The pointer write that takes position `j` off the free list. */
  lemma UnlinkFree(idx: bytes, l: Links, es: map<nat, Entry>, j: nat)
    requires Rendered(idx, l.ptrs, es) && Wf(l, map[]) && es.Keys == l.home.Keys && j < |l.lists[0]|
    ensures var o, f, save := l.lists[0][j], Field(l.lists[0], 0, j), At(l.lists[0], j + 1);
            && o in l.ptrs && l.ptrs[o] == save && save <= PTR_MAX && o <= PTR_MAX && f <= |idx|
            && var m := Unlink(l, 0, j);
               && Rendered(Write(idx, f, PtrField(save)), m.ptrs, es) && Wf(m, map[])
               && |Write(idx, f, PtrField(save))| == |idx|
  {
    LinkFacts(l, 0, j + 1, map[]);
    MemberFacts(l, 0, j, map[]);
    MemberBound(idx, l, es, 0, j, map[]);
    MemberBound(idx, l, es, 0, j + 1, map[]);
    WriteField(idx, l, es, 0, j, At(l.lists[0], j + 1), map[]);
    FieldReadable(idx, l, es, 0, j, map[]);
    PtrFieldWidth(At(l.lists[0], j + 1));
    UnlinkWf(l, 0, j, map[]);
  }

  /** The meaning depends on where records are listed only through `loc`. */
  lemma HomeIrrelevant(dat: bytes, home: map<nat, nat>, home': map<nat, nat>, es: map<nat, Entry>, loc: map<CString,
      nat>)
    requires KeysOk(home, es, loc) && KeysOk(home', es, loc) && DataOk(dat, es)
    ensures ContentsOf(dat, home', es, loc) == ContentsOf(dat, home, es, loc)
  {
    forall k | k in loc ensures Value(dat, home', es, loc, k) == Value(dat, home, es, loc, k) {}
  }

  /** Writing the data of a record that no list holds. */
  lemma LimboData(dat: bytes, home: map<nat, nat>, es: map<nat, Entry>, loc: map<CString, nat>, o: nat, data: CString)
    requires KeysOk(home, es, loc) && DataOk(dat, es) && o in home && home[o] == LIMBO
    requires o in es && |data| + 1 == es[o].datlen
    ensures es[o].datoff <= |dat|
    ensures var dat' := Write(dat, es[o].datoff, data + [NEWLINE]);
            && |dat'| == |dat| && DataOk(dat', es) && ExtentOk(dat', es, o) && DataOf(dat', es, o) == data
            && ContentsOf(dat', home, es, loc) == ContentsOf(dat, home, es, loc)
  {
    WriteData(dat, es, o, data);
    var dat' := Write(dat, es[o].datoff, data + [NEWLINE]);
    forall k | k in loc ensures Value(dat', home, es, loc, k) == Value(dat, home, es, loc, k) {
      assert LocOk(home, es, loc, k);
    }
  }

  /** Writing the key of a record that no list holds. */
  lemma LimboKey(dat: bytes, home: map<nat, nat>, es: map<nat, Entry>, loc: map<CString, nat>, o: nat, key: CString)
    requires KeysOk(home, es, loc) && DataOk(dat, es) && o in home && home[o] == LIMBO && o in es
    ensures var es' := es[o := es[o].(key := key)];
            && DataOk(dat, es') && KeysOk(home, es', loc)
            && ExtentOk(dat, es, o) && ExtentOk(dat, es', o) && DataOf(dat, es', o) == DataOf(dat, es, o)
            && ContentsOf(dat, home, es', loc) == ContentsOf(dat, home, es, loc)
  {
    var es' := es[o := es[o].(key := key)];
    RenameData(dat, es, o, key);
    KeyInLimbo(home, es, loc, o, es[o].(key := key));
    assert home[o := LIMBO] == home;
    forall k | k in loc ensures Value(dat, home, es', loc, k) == Value(dat, home, es, loc, k) {
      assert LocOk(home, es, loc, k);
    }
  }

  /** Appended data belongs to no record yet. */
  lemma AppendedData(dat: bytes, home: map<nat, nat>, es: map<nat, Entry>, loc: map<CString, nat>, data: CString)
    requires KeysOk(home, es, loc) && DataOk(dat, es)
    ensures var dat' := Write(dat, |dat|, data + [NEWLINE]);
            && DataOk(dat', es) && dat' == dat + data + [NEWLINE] && AllBelow(es, |dat|)
            && ContentsOf(dat', home, es, loc) == ContentsOf(dat, home, es, loc)
  {
    AppendData(dat, es, data);
    var dat' := Write(dat, |dat|, data + [NEWLINE]);
    forall p | p in es ensures es[p].datoff + es[p].datlen <= |dat| { assert ExtentOk(dat, es, p); }
    forall k | k in loc ensures Value(dat', home, es, loc, k) == Value(dat, home, es, loc, k) {
      assert LocOk(home, es, loc, k);
    }
  }

  predicate AllBelow(es: map<nat, Entry>, size: nat) {
    forall p :: p in es ==> es[p].datoff + es[p].datlen <= size
  }

  /** A new record takes the data just appended. */
  lemma AppendedRecord(dat: bytes, home: map<nat, nat>, es: map<nat, Entry>, loc: map<CString, nat>,
                       o: nat, e: Entry, data: CString)
    requires KeysOk(home, es, loc) && DataOk(dat, es) && o !in es && AllBelow(es, e.datoff)
    requires e.datlen == |data| + 1 && e.datoff <= |dat| && dat[e.datoff..] == data + [NEWLINE]
    ensures var es' := es[o := e];
            && DataOk(dat, es') && KeysOk(home[o := LIMBO], es', loc)
            && ExtentOk(dat, es', o) && DataOf(dat, es', o) == data
            && ContentsOf(dat, home[o := LIMBO], es', loc) == ContentsOf(dat, home, es, loc)
  {
    var home', es' := home[o := LIMBO], es[o := e];
    assert |dat| == e.datoff + e.datlen;
    assert dat[e.datoff..e.datoff + e.datlen] == dat[e.datoff..];
    NewExtent(dat, es, o, e, data);
    KeyInLimbo(home, es, loc, o, e);
    forall k | k in loc ensures Value(dat, home', es', loc, k) == Value(dat, home, es, loc, k) {
      assert LocOk(home, es, loc, k);
    }
  }

  /** A filled-in record joins the chain of its key. */
  lemma PublishMeaning(dat: bytes, home: map<nat, nat>, es: map<nat, Entry>, loc: map<CString, nat>, o: nat)
    requires KeysOk(home, es, loc) && DataOk(dat, es)
    requires o in es && o in home && home[o] == LIMBO && es[o].key !in loc
    ensures var k := es[o].key;
            && KeysOk(home[o := SlotOf(k)], es, loc[k := o]) && ExtentOk(dat, es, o)
            && ContentsOf(dat, home[o := SlotOf(k)], es, loc[k := o])
               == ContentsOf(dat, home, es, loc)[k := DataOf(dat, es, o)]
  {
    KeyAdded(home, es, loc, o, es[o]);
    assert es[o := es[o]] == es;
    var home', loc' := home[o := SlotOf(es[o].key)], loc[es[o].key := o];
    assert ExtentOk(dat, es, o);
    forall k | k in loc ensures loc[k] in es && ExtentOk(dat, es, loc[k]) { assert LocOk(home, es, loc, k); }
    SameContents(dat, home, es, loc, dat, home', es, loc');
  }

  /** Same-size data of a live record is overwritten. */
  lemma ReplaceMeaning(dat: bytes, home: map<nat, nat>, es: map<nat, Entry>, loc: map<CString, nat>,
                       key: CString, data: CString)
    requires KeysOk(home, es, loc) && DataOk(dat, es) && key in loc && loc[key] in es
    requires |data| + 1 == es[loc[key]].datlen
    ensures es[loc[key]].datoff <= |dat|
    ensures var dat' := Write(dat, es[loc[key]].datoff, data + [NEWLINE]);
            DataOk(dat', es) && ContentsOf(dat', home, es, loc) == ContentsOf(dat, home, es, loc)[key := data]
  {
    var o := loc[key];
    assert LocOk(home, es, loc, key);
    WriteData(dat, es, o, data);
    var dat' := Write(dat, es[o].datoff, data + [NEWLINE]);
    forall k | k in loc && k != key
      ensures Value(dat', home, es, loc, k) == Value(dat, home, es, loc, k)
    {
      assert LocOk(home, es, loc, k);
    }
    assert ContentsOf(dat', home, es, loc)[key] == data;
  }

  // -- The sizes of the free records -----------------------------------------------------

  function SizeOf(es: map<nat, Entry>, o: nat): multiset<(nat, nat)> {
    if o in es then multiset{(|es[o].key|, es[o].datlen)} else multiset{}
  }

  /** Key length and data length of the records on a list. */
  function FreeSizes(l: seq<nat>, es: map<nat, Entry>): multiset<(nat, nat)> {
    if l == [] then multiset{} else SizeOf(es, l[0]) + FreeSizes(l[1..], es)
  }

  lemma {:induction false} FreeHas(l: seq<nat>, es: map<nat, Entry>, a: nat, b: nat)
    requires forall k :: 0 <= k < |l| ==> l[k] in es
    ensures (a, b) in FreeSizes(l, es) <==> exists k :: 0 <= k < |l| && |es[l[k]].key| == a && es[l[k]].datlen == b
  {
    if l != [] {
      FreeHas(l[1..], es, a, b);
      assert forall k :: 1 <= k < |l| ==> l[k] == l[1..][k - 1];
      if k :| 0 <= k < |l[1..]| && |es[l[1..][k]].key| == a && es[l[1..][k]].datlen == b {
        assert l[k + 1] == l[1..][k];
      }
    }
  }

  lemma {:induction false} FreeSame(l: seq<nat>, es: map<nat, Entry>, es': map<nat, Entry>)
    requires forall k :: 0 <= k < |l| ==> SizeOf(es, l[k]) == SizeOf(es', l[k])
    ensures FreeSizes(l, es) == FreeSizes(l, es')
  {
    if l != [] { FreeSame(l[1..], es, es'); }
  }

  lemma FreePush(l: seq<nat>, es: map<nat, Entry>, o: nat)
    ensures FreeSizes([o] + l, es) == FreeSizes(l, es) + SizeOf(es, o)
  {
    assert ([o] + l)[1..] == l;
  }

  lemma FreeMore(l: seq<nat>, es: map<nat, Entry>)
    requires l != []
    ensures FreeSizes(l, es) == SizeOf(es, l[0]) + FreeSizes(l[1..], es)
  {
  }

  lemma Reorder(a: multiset<(nat, nat)>, b: multiset<(nat, nat)>, c: multiset<(nat, nat)>)
    ensures a + (b + c) == (a + b) + c && a + b == b + a
  {
  }

  lemma {:induction false} FreeWithout(l: seq<nat>, es: map<nat, Entry>, j: nat)
    requires j < |l|
    ensures FreeSizes(l, es) == FreeSizes(Without(l, j), es) + SizeOf(es, l[j])
  {
    hide FreeSizes, SizeOf;
    var w := Without(l, j);
    FreeMore(l, es);
    if j == 0 {
      assert w == l[1..];
      Reorder(SizeOf(es, l[0]), FreeSizes(w, es), multiset{});
    } else {
      FreeWithout(l[1..], es, j - 1);
      assert w[0] == l[0] && w[1..] == Without(l[1..], j - 1) && l[1..][j - 1] == l[j];
      FreeMore(w, es);
      Reorder(SizeOf(es, l[0]), FreeSizes(w[1..], es), SizeOf(es, l[j]));
    }
  }

  /** A record that is not on a list does not count there. */
  lemma FreeOther(l: seq<nat>, es: map<nat, Entry>, o: nat, e: Entry)
    requires o !in l
    ensures FreeSizes(l, es[o := e]) == FreeSizes(l, es)
  {
    FreeSame(l, es, es[o := e]);
  }
}

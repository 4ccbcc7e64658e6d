/** What every step of every process keeps. */
module DbProcsInv {
  import opened Ascii
  import opened DbFormat
  import opened Lists
  import opened DbLinks
  import opened DbBytes
  import opened DbSpec
  import opened DbView
  import opened DbProcs

  // -- Locks follow from program points --------------------------------------------------

  predicate HoldsFree(pc: Pc) {
    || pc.DelDat? || pc.DelRead? || pc.DelIdx? || pc.DelHead? || pc.DelFix? || pc.DelUnlock?
    || pc.FfHead? || pc.FfWalk? || pc.FfTake? || pc.FfUnlock?
  }

  predicate HoldsW(proc: Proc, lock: nat) {
    var Proc(op, pc) := proc;
    || (lock == SlotOf(op.key) && !op.OpFetch? && !pc.Idle? && !pc.WantChain?)
    || (lock == 0 && HoldsFree(pc))
    || (lock == LDAT && (pc.AppSeekDat? || pc.AppDat? || pc.AppUnlockDat?))
    || (lock == LIDX && (pc.AppSeekIdx? || pc.AppIdx? || pc.AppUnlockIdx?))
  }

  predicate HoldsR(proc: Proc, lock: nat) {
    lock == SlotOf(proc.op.key) && proc.op.OpFetch? && !proc.pc.Idle? && !proc.pc.WantChain?
  }

  predicate HoldsChain(proc: Proc) { HoldsW(proc, SlotOf(proc.op.key)) || HoldsR(proc, SlotOf(proc.op.key)) }

  predicate WriterOk(s: State, lock: nat)
    requires lock in s.w
  {
    s.w[lock] in s.procs && HoldsW(s.procs[s.w[lock]], lock) && Readers(s, lock) == {}
  }

  predicate HolderOk(s: State, p: nat, lock: nat)
    requires p in s.procs
  {
    && (HoldsW(s.procs[p], lock) ==> lock in s.w && s.w[lock] == p)
    && (HoldsR(s.procs[p], lock) <==> p in Readers(s, lock))
  }

  /** The lock table says exactly what the program points say. */
  ghost predicate LocksOk(s: State) {
    && (forall l {:trigger WriterOk(s, l)} :: l in s.w ==> WriterOk(s, l))
    && (forall p, l {:trigger HolderOk(s, p, l)} :: p in s.procs ==> HolderOk(s, p, l))
    && (forall l, p :: p in Readers(s, l) ==> p in s.procs)
  }

  // -- The files -------------------------------------------------------------------------

  predicate InFile(isize: nat, es: map<nat, Entry>, o: nat)
    requires o in es
  {
    o + Size(es[o]) <= isize
  }

  ghost predicate FilesOk(s: State) {
    && Wf(s.links, s.stale)
    && KeysOk(s.links.home, s.es, s.loc)
    && DataOk(s.dat, s.es)
    && s.isize >= BASE && Tiled(s.isize, s.es)
    && (forall o {:trigger InFile(s.isize, s.es, o)} :: o in s.es ==> InFile(s.isize, s.es, o))
  }

  /** Only a process between the record write and the last pointer write of a deletion
      leaves an out-of-date pointer, and it holds that chain. */
  predicate StaleAt(s: State, i: nat)
    requires i in s.stale
  {
    && i in s.w && s.w[i] in s.procs
    && var Proc(op, pc) := s.procs[s.w[i]];
       SlotOf(op.key) == i && (pc.DelHead? || pc.DelFix?) && pc.j == s.stale[i]
  }

  ghost predicate StaleOk(s: State) {
    forall i {:trigger StaleAt(s, i)} :: i in s.stale ==> StaleAt(s, i)
  }

  // -- The map ---------------------------------------------------------------------------

  /** What the files say about a key. */
  function Lookup(s: State, k: CString): Fetched {
    if k in s.loc && s.loc[k] in s.es && ExtentOk(s.dat, s.es, s.loc[k]) then Found(DataOf(s.dat, s.es, s.loc[k]))
    else NotFound
  }

  predicate Agree(s: State, k: CString) { FetchMap(s.abs, k) == Lookup(s, k) }

  /** Program points at which the call's own key may differ from the map. */
  predicate Loose(pc: Pc) {
    || pc.DelRead? || pc.DelIdx? || pc.DelHead? || pc.DelFix? || pc.DelUnlock?
    || (pc.NewHead? && pc.again) || InAppend(pc) || pc.Link? || pc.Done?
    || (pc.Failed? && !pc.why.Unreadable?)
  }

  predicate LooseKey(s: State, k: CString) {
    var c := SlotOf(k);
    && c in s.w && s.w[c] in s.procs
    && s.procs[s.w[c]].op.key == k && Loose(s.procs[s.w[c]].pc)
  }

  predicate KeyOk(s: State, k: CString) { Agree(s, k) || LooseKey(s, k) }

  ghost predicate AbsOk(s: State) { forall k {:trigger KeyOk(s, k)} :: KeyOk(s, k) }

  // -- Processes -------------------------------------------------------------------------

  /** The record that a process is moving or filling in, on no list. */
  function MineOff(pc: Pc): Option<nat> {
    match pc
    case DelHead(off, _, _, _) => Some(off)
    case FfUnlock(_, got, off) => if got then Some(off) else None
    case FillDat(_, off) => Some(off)
    case FillIdx(_, off) => Some(off)
    case AppUnlockIdx(_, off) => Some(off)
    case Link(_, off) => Some(off)
    case _ => None
  }

  /** Data appended for a record that is not there yet. */
  function PendOff(pc: Pc): Option<nat> {
    match pc
    case AppUnlockDat(_, doff) => Some(doff)
    case AppLockIdx(_, doff) => Some(doff)
    case AppSeekIdx(_, doff) => Some(doff)
    case AppIdx(_, doff, _) => Some(doff)
    case _ => None
  }

  predicate Clear(e: Entry, doff: nat, len: nat) { e.datoff + e.datlen <= doff || doff + len <= e.datoff }

  ghost predicate Pend(s: State, doff: nat, data: CString) {
    && doff + |data| + 1 <= |s.dat|
    && s.dat[doff..doff + |data| + 1] == data + [NEWLINE]
    && forall o :: o in s.es ==> Clear(s.es[o], doff, |data| + 1)
  }

  predicate InLimbo(s: State, off: nat) { off in s.es && off in s.links.home && s.links.home[off] == LIMBO }

  predicate DataIs(s: State, off: nat, data: CString) {
    off in s.es && ExtentOk(s.dat, s.es, off) && DataOf(s.dat, s.es, off) == data
  }

  /** A cursor on, or just past, position `j` of list `i`. */
  predicate Along(s: State, i: nat, off: nat, fld: nat, j: nat) {
    i < |s.links.lists| && j <= |s.links.lists[i]| && off == At(s.links.lists[i], j)
        && fld == Field(s.links.lists[i], i, j)
  }

  predicate OnRec(s: State, i: nat, off: nat, fld: nat, j: nat, save: nat) {
    Along(s, i, off, fld, j) && j < |s.links.lists[i]| && off in s.es && save == GetPtr(s, off)
  }

  predicate OnKey(s: State, key: CString, off: nat, fld: nat, j: nat, save: nat) {
    OnRec(s, SlotOf(key), off, fld, j, save) && s.es[off].key == key
  }

  predicate Skipped(s: State, key: CString, j: nat) {
    && SlotOf(key) < |s.links.lists| && j <= |s.links.lists[SlotOf(key)]|
    && forall k :: 0 <= k < j ==>
         s.links.lists[SlotOf(key)][k] in s.es && s.es[s.links.lists[SlotOf(key)][k]].key != key
  }

  /** The call is going to succeed with code 0. */
  predicate Commit(s: State, op: Op) {
    (op.OpDelete? && op.key in s.abs) || (op.OpStore? && StoreRc(s.abs, op.key, op.flag) == 0)
  }

  predicate Gone(s: State, op: Op) { op.key !in s.loc && Commit(s, op) }

  predicate Head(s: State, op: Op, ptr: nat) {
    op.OpStore? && SlotOf(op.key) < |s.links.lists| && ptr == At(s.links.lists[SlotOf(op.key)], 0)
  }

  predicate Sized(s: State, op: Op, off: nat) {
    off in s.es && |s.es[off].key| == |op.key| && s.es[off].datlen == DataLen(op)
  }

  predicate Filled(s: State, op: Op, ptr: nat, off: nat) {
    InLimbo(s, off) && s.es[off].key == op.key && GetPtr(s, off) == ptr && DataIs(s, off, NewData(op))
  }

  /** The end of a deletion: chain pointer at `j` still to be repaired. */
  predicate Repairing(s: State, op: Op, fld: nat, j: nat, save: nat) {
    var c := SlotOf(op.key);
    && c in s.stale && s.stale[c] == j && c < |s.links.lists| && j <= |s.links.lists[c]|
    && fld == Field(s.links.lists[c], c, j) && save == At(s.links.lists[c], j)
  }

  ghost predicate DelOk(s: State, op: Op, pc: Pc) {
    match pc
    case DelLock(off, fld, j, save) => OnKey(s, op.key, off, fld, j, save) && Commit(s, op)
    case DelDat(off, fld, j, save) => OnKey(s, op.key, off, fld, j, save) && Commit(s, op)
    case DelRead(off, fld, j, save) => OnKey(s, op.key, off, fld, j, save) && Commit(s, op)
    case DelIdx(off, fld, j, save, freeptr) =>
      OnKey(s, op.key, off, fld, j, save) && Commit(s, op) && Along(s, 0, freeptr, 0, 0)
    case DelHead(off, fld, j, save) =>
      && Repairing(s, op, fld, j, save) && Gone(s, op) && InLimbo(s, off)
      && Blank(s.es[off].key) && Along(s, 0, GetPtr(s, off), 0, 0)
    case DelFix(off, fld, j, save) => Repairing(s, op, fld, j, save) && Gone(s, op)
    case DelUnlock => Gone(s, op)
    case _ => true
  }

  ghost predicate StoreOk(s: State, op: Op, pc: Pc) {
    match pc
    case NewHead(_) => op.OpStore? && Gone(s, op)
    case FfLock(ptr) => Gone(s, op) && Head(s, op, ptr)
    case FfHead(ptr) => Gone(s, op) && Head(s, op, ptr)
    case FfWalk(ptr, off, fld, j) => Gone(s, op) && Head(s, op, ptr) && Along(s, 0, off, fld, j)
    case FfTake(ptr, off, fld, j, save) =>
      Gone(s, op) && Head(s, op, ptr) && OnRec(s, 0, off, fld, j, save) && Sized(s, op, off)
    case FfUnlock(ptr, got, off) =>
      Gone(s, op) && Head(s, op, ptr) && (got ==> InLimbo(s, off) && Sized(s, op, off))
    case FillDat(ptr, off) => Gone(s, op) && Head(s, op, ptr) && InLimbo(s, off) && Sized(s, op, off)
    case FillIdx(ptr, off) =>
      Gone(s, op) && Head(s, op, ptr) && InLimbo(s, off) && Sized(s, op, off) && DataIs(s, off, NewData(op))
    case Link(ptr, off) => Gone(s, op) && Head(s, op, ptr) && Filled(s, op, ptr, off)
    case Repl(off) => op.OpStore? && Commit(s, op) && op.key in s.loc && s.loc[op.key] == off && Sized(s, op, off)
    case _ => true
  }

  ghost predicate AppendOk(s: State, op: Op, pc: Pc) {
    match pc
    case AppLockDat(ptr) => Gone(s, op) && Head(s, op, ptr)
    case AppSeekDat(ptr) => Gone(s, op) && Head(s, op, ptr)
    case AppDat(ptr, doff) => Gone(s, op) && Head(s, op, ptr) && doff == |s.dat|
    case AppUnlockDat(ptr, doff) => Gone(s, op) && Head(s, op, ptr) && Pend(s, doff, NewData(op))
    case AppLockIdx(ptr, doff) => Gone(s, op) && Head(s, op, ptr) && Pend(s, doff, NewData(op))
    case AppSeekIdx(ptr, doff) => Gone(s, op) && Head(s, op, ptr) && Pend(s, doff, NewData(op))
    case AppIdx(ptr, doff, off) => Gone(s, op) && Head(s, op, ptr) && Pend(s, doff, NewData(op)) && off == s.isize
    case AppUnlockIdx(ptr, off) => Gone(s, op) && Head(s, op, ptr) && Filled(s, op, ptr, off)
    case _ => true
  }

  /** A record of list `i` that cannot be read. */
  predicate BadRec(s: State, i: nat, off: nat) {
    i < |s.links.lists| && off in s.links.lists[i] && off in s.es && SEP in s.es[off].key
  }

  predicate FindOk(s: State, op: Op, pc: Pc) {
    match pc
    case Walk(off, fld, j) => Along(s, SlotOf(op.key), off, fld, j) && Skipped(s, op.key, j)
    case Got(off, fld, j, save) => OnKey(s, op.key, off, fld, j, save)
    case Miss => op.key !in s.loc
    case Failed(Unreadable(off)) => BadRec(s, SlotOf(op.key), off)
    case Failed(TooLong(doff)) => op.OpStore? && op.key !in s.loc && !BodyLenOk(op.key, doff, DataLen(op))
    case Failed(TooFar(off)) => op.OpStore? && op.key !in s.loc && off > PTR_MAX
    case Done(ret) => ret == SpecStep(s.abs, op).1 && Lookup(s, op.key) == FetchMap(SpecStep(s.abs, op).0, op.key)
    case _ => true
  }

  ghost predicate ProcOk(s: State, p: nat)
    requires p in s.procs
  {
    OpOk(s.procs[p].op, s.procs[p].pc) && PcOk(s, s.procs[p].op, s.procs[p].pc)
  }

  /** A call that may be made, at a point where it may be. */
  predicate OpOk(op: Op, pc: Pc) { Callable(op) && (op.OpFetch? ==> FetchPc(pc)) }

  /** What holds of the files at each program point of a call. */
  ghost predicate PcOk(s: State, op: Op, pc: Pc) {
    if InDelete(pc) then DelOk(s, op, pc)
    else if InStore(pc) then StoreOk(s, op, pc)
    else if InAppend(pc) then AppendOk(s, op, pc)
    else FindOk(s, op, pc)
  }

  predicate FetchPc(pc: Pc) {
    pc.Idle? || pc.WantChain? || pc.ReadHead? || pc.Walk? || pc.Got? || pc.Miss? || pc.Done?
    || (pc.Failed? && pc.why.Unreadable?)
  }

  /** Two processes never work on the same record or the same new data. */
  predicate PairOk(s: State, p: nat, q: nat)
    requires p in s.procs && q in s.procs
  {
    && (MineOff(s.procs[p].pc).Some? ==> MineOff(s.procs[q].pc) != MineOff(s.procs[p].pc))
    && (PendOff(s.procs[p].pc).Some? && PendOff(s.procs[q].pc).Some? ==>
          var a, b := PendOff(s.procs[p].pc).value, PendOff(s.procs[q].pc).value;
          a + DataLen(s.procs[p].op) <= b || b + DataLen(s.procs[q].op) <= a)
  }

  ghost predicate Inv(s: State) {
    && FilesOk(s) && LocksOk(s) && StaleOk(s) && AbsOk(s)
    && (forall p {:trigger ProcOk(s, p)} :: p in s.procs ==> ProcOk(s, p))
    && (forall p, q {:trigger PairOk(s, p, q)} :: p in s.procs && q in s.procs && p != q ==> PairOk(s, p, q))
  }

  // -- Mutual exclusion ------------------------------------------------------------------

  lemma Exclusive(s: State, p: nat, q: nat, lock: nat)
    requires LocksOk(s) && p in s.procs && q in s.procs && p != q && HoldsW(s.procs[p], lock)
    ensures !HoldsW(s.procs[q], lock) && !HoldsR(s.procs[q], lock)
  {
    assert HolderOk(s, p, lock) && HolderOk(s, q, lock) && WriterOk(s, lock);
  }

  /** Whoever holds a chain finds its pointers up to date, unless it is deleting. */
  lemma NotStale(s: State, p: nat, i: nat)
    requires LocksOk(s) && StaleOk(s) && p in s.procs
    requires HoldsW(s.procs[p], i) || HoldsR(s.procs[p], i)
    requires i == SlotOf(s.procs[p].op.key) ==> !s.procs[p].pc.DelHead? && !s.procs[p].pc.DelFix?
    ensures i !in s.stale
  {
    assert i in s.stale ==> StaleAt(s, i);
    assert i in s.w ==> WriterOk(s, i);
    assert HolderOk(s, p, i);
  }

  lemma FreeNotStale(s: State)
    requires StaleOk(s)
    ensures 0 !in s.stale
  {
    assert 0 in s.stale ==> StaleAt(s, 0);
  }

  // -- What a process relies on ----------------------------------------------------------

  predicate SameRec(s: State, t: State, o: nat) {
    && o in s.es && o in t.es && t.es[o] == s.es[o] && GetPtr(t, o) == GetPtr(s, o)
    && (o in s.links.home ==> o in t.links.home && t.links.home[o] == s.links.home[o])
  }

  predicate SameData(s: State, t: State, o: nat) {
    o in s.es && ExtentOk(s.dat, s.es, o) ==>
      o in t.es && ExtentOk(t.dat, t.es, o) && DataOf(t.dat, t.es, o) == DataOf(s.dat, s.es, o)
  }

  predicate SameList(s: State, t: State, i: nat) {
    && i < |s.links.lists| && i < |t.links.lists| && t.links.lists[i] == s.links.lists[i]
    && (forall o {:trigger SameRec(s, t, o)} :: o in s.links.lists[i] ==> SameRec(s, t, o))
  }

  predicate SameKey(s: State, t: State, k: CString) {
    && (k in s.loc <==> k in t.loc) && (k in s.loc ==> t.loc[k] == s.loc[k])
    && (k in s.abs <==> k in t.abs) && (k in s.abs ==> t.abs[k] == s.abs[k])
  }

  ghost predicate Rely(s: State, t: State, q: nat)
    requires q in s.procs
  {
    var Proc(op, pc) := s.procs[q];
    var c := SlotOf(op.key);
    && q in t.procs && t.procs[q] == s.procs[q]
    && (HoldsChain(s.procs[q]) ==>
          && SameList(s, t, c) && SameKey(s, t, op.key) && Lookup(t, op.key) == Lookup(s, op.key)
          && (c in s.stale ==> c in t.stale && t.stale[c] == s.stale[c]))
    && (HoldsW(s.procs[q], 0) ==> SameList(s, t, 0))
    && (HoldsW(s.procs[q], LDAT) ==> |t.dat| == |s.dat|)
    && (HoldsW(s.procs[q], LIDX) ==> t.isize == s.isize)
    && (MineOff(pc).Some? ==> SameRec(s, t, MineOff(pc).value) && SameData(s, t, MineOff(pc).value))
    && (op.key in s.loc && HoldsChain(s.procs[q]) ==> SameRec(s, t, s.loc[op.key]))
    && (PendOff(pc).Some? && Pend(s, PendOff(pc).value, NewData(op)) ==> Pend(t, PendOff(pc).value, NewData(op)))
  }

  lemma RelyOk(s: State, t: State, q: nat)
    requires q in s.procs && ProcOk(s, q) && Rely(s, t, q)
    ensures ProcOk(t, q)
  {
    hide SlotOf;
    hide FindOk, DelOk, StoreOk, AppendOk;
    var Proc(op, pc) := s.procs[q];
    if InDelete(pc) { RelyDel(s, t, q); }
    else if InStore(pc) { RelyStore(s, t, q); }
    else if InAppend(pc) { RelyAppend(s, t, q); }
    else { RelyFind(s, t, q); }
  }

  lemma RelyOnRec(s: State, t: State, i: nat, off: nat, fld: nat, j: nat, save: nat)
    requires SameList(s, t, i) && OnRec(s, i, off, fld, j, save)
    ensures OnRec(t, i, off, fld, j, save) && t.es[off] == s.es[off]
  {
    assert SameRec(s, t, off);
  }

  lemma RelyFind(s: State, t: State, q: nat)
    requires q in s.procs && ProcOk(s, q) && Rely(s, t, q)
    requires !InDelete(s.procs[q].pc) && !InStore(s.procs[q].pc) && !InAppend(s.procs[q].pc)
    ensures ProcOk(t, q)
  {
    hide SlotOf, DelOk, StoreOk, AppendOk;
    var Proc(op, pc) := s.procs[q];
    if pc.Walk? {
      forall k | 0 <= k < pc.j
        ensures t.links.lists[SlotOf(op.key)][k] in t.es && t.es[t.links.lists[SlotOf(op.key)][k]].key != op.key
      {
        assert SameRec(s, t, s.links.lists[SlotOf(op.key)][k]);
      }
    } else if pc.Got? {
      RelyOnRec(s, t, SlotOf(op.key), pc.off, pc.fld, pc.j, pc.save);
    } else if pc.Failed? && pc.why.Unreadable? {
      assert SameRec(s, t, pc.why.off);
    }
  }

  lemma RelyDel(s: State, t: State, q: nat)
    requires q in s.procs && ProcOk(s, q) && Rely(s, t, q) && InDelete(s.procs[q].pc)
    ensures ProcOk(t, q)
  {
    hide SlotOf, FindOk, StoreOk, AppendOk;
    var Proc(op, pc) := s.procs[q];
    if pc.DelLock? || pc.DelDat? || pc.DelRead? || pc.DelIdx? {
      RelyOnRec(s, t, SlotOf(op.key), pc.off, pc.fld, pc.j, pc.save);
    }
  }

  lemma RelyStore(s: State, t: State, q: nat)
    requires q in s.procs && ProcOk(s, q) && Rely(s, t, q) && InStore(s.procs[q].pc)
    ensures ProcOk(t, q)
  {
    hide SlotOf, FindOk, DelOk, StoreOk, AppendOk;
    var pc := s.procs[q].pc;
    if pc.FillDat? || pc.FillIdx? || pc.Link? || pc.Repl? { RelyFill(s, t, q); } else { RelySearch(s, t, q); }
  }

  lemma RelySearch(s: State, t: State, q: nat)
    requires q in s.procs && ProcOk(s, q) && Rely(s, t, q)
    requires var pc := s.procs[q].pc;
             pc.NewHead? || pc.FfLock? || pc.FfHead? || pc.FfWalk? || pc.FfTake? || pc.FfUnlock?
    ensures ProcOk(t, q)
  {
    hide SlotOf, FindOk, DelOk, AppendOk;
    var Proc(op, pc) := s.procs[q];
    assert HoldsChain(s.procs[q]);
    assert Gone(t, op);
    if !pc.NewHead? { assert Head(t, op, pc.ptr); }
    if pc.FfTake? { RelyOnRec(s, t, 0, pc.off, pc.fld, pc.j, pc.save); }
    if pc.FfUnlock? && pc.got { RelyMine(s, t, q, pc.off); }
  }

  lemma RelyFill(s: State, t: State, q: nat)
    requires q in s.procs && ProcOk(s, q) && Rely(s, t, q)
    requires var pc := s.procs[q].pc; pc.FillDat? || pc.FillIdx? || pc.Link? || pc.Repl?
    ensures ProcOk(t, q)
  {
    hide SlotOf, FindOk, DelOk, AppendOk;
    var Proc(op, pc) := s.procs[q];
    assert HoldsChain(s.procs[q]);
    if pc.Repl? {
      assert SameRec(s, t, pc.off);
    } else {
      assert Gone(t, op) && Head(t, op, pc.ptr);
      RelyMine(s, t, q, pc.off);
    }
  }

  lemma RelyMine(s: State, t: State, q: nat, o: nat)
    requires q in s.procs && Rely(s, t, q) && MineOff(s.procs[q].pc) == Some(o)
    ensures InLimbo(s, o) ==> InLimbo(t, o) && t.es[o] == s.es[o] && GetPtr(t, o) == GetPtr(s, o)
    ensures forall d :: DataIs(s, o, d) ==> DataIs(t, o, d)
  {
  }

  lemma RelyAppend(s: State, t: State, q: nat)
    requires q in s.procs && ProcOk(s, q) && Rely(s, t, q) && InAppend(s.procs[q].pc)
    ensures ProcOk(t, q)
  {
    hide SlotOf, FindOk, DelOk, StoreOk;
    var Proc(op, pc) := s.procs[q];
    assert HoldsChain(s.procs[q]);
    assert Gone(t, op) && Head(t, op, pc.ptr);
    if pc.AppUnlockIdx? { RelyMine(s, t, q, pc.off); }
    assert AppendOk(t, op, pc);
  }

  // -- From one step to the whole system ---------------------------------------------------

  predicate SameSlot(s: State, t: State, i: nat)
    requires i < |s.links.lists| && i < |t.links.lists|
  {
    && t.links.lists[i] == s.links.lists[i]
    && (i in s.stale ==> i in t.stale && t.stale[i] == s.stale[i])
  }

  /** `p` may have changed list `i`, the records in `rs`, its own key, and nothing else. */
  ghost predicate Diff(s: State, t: State, p: nat, i: nat, rs: set<nat>)
    requires p in s.procs
  {
    && p in t.procs && t.procs == s.procs[p := t.procs[p]] && t.procs[p].op == s.procs[p].op
    && |t.links.lists| == |s.links.lists| == SLOTS
    && (forall k {:trigger SameSlot(s, t, k)} :: 0 <= k < SLOTS && k != i ==> SameSlot(s, t, k))
    && (forall o {:trigger SameRec(s, t, o)} :: o in s.es && o !in rs ==> SameRec(s, t, o))
    && (forall o {:trigger SameData(s, t, o)} :: o in s.es && o !in rs ==> SameData(s, t, o))
    && (forall k: CString {:trigger SameKey(s, t, k)} ::
          k != s.procs[p].op.key || !HoldsW(s.procs[p], SlotOf(k)) ==> SameKey(s, t, k))
    && (|t.dat| == |s.dat| || HoldsW(s.procs[p], LDAT))
    && (t.isize == s.isize || HoldsW(s.procs[p], LIDX))
  }

  /** The changed records are on the list that `p` holds, or are its own, or are new. */
  predicate OwnRecs(s: State, p: nat, i: nat, rs: set<nat>)
    requires p in s.procs
  {
    && (i < SLOTS ==> HoldsW(s.procs[p], i))
    && (forall o :: o in rs && o in s.links.home ==>
          (i < SLOTS && s.links.home[o] == i) || MineOff(s.procs[p].pc) == Some(o))
  }

  ghost predicate PendsKept(s: State, t: State, p: nat) {
    forall q {:trigger PendOff(s.procs[q].pc)} :: q in s.procs && q != p && PendOff(s.procs[q].pc).Some? ==>
      Pend(s, PendOff(s.procs[q].pc).value, NewData(s.procs[q].op)) ==>
      Pend(t, PendOff(s.procs[q].pc).value, NewData(s.procs[q].op))
  }

  /** A list held by `q` lies outside what `p` changed. */
  lemma OtherList(s: State, t: State, p: nat, q: nat, i: nat, rs: set<nat>, k: nat)
    requires Inv(s) && p in s.procs && q in s.procs && p != q && Diff(s, t, p, i, rs) && OwnRecs(s, p, i, rs)
    requires k < SLOTS && (HoldsW(s.procs[q], k) || HoldsR(s.procs[q], k))
    ensures SameList(s, t, k) && SameSlot(s, t, k)
  {
    hide SlotOf;
    if i < SLOTS { Exclusive(s, p, q, i); }
    assert k != i;
    assert SameSlot(s, t, k);
    forall o | o in s.links.lists[k] ensures SameRec(s, t, o) { OtherRec(s, p, i, rs, k, o); }
  }

  lemma OtherRec(s: State, p: nat, i: nat, rs: set<nat>, k: nat, o: nat)
    requires Inv(s) && p in s.procs && OwnRecs(s, p, i, rs) && k < SLOTS && k != i
    requires (o in s.links.home && s.links.home[o] == k) || o in s.links.lists[k]
    ensures o !in rs && o in s.es
  {
    hide SlotOf;
    ListIsHome(s.links, k, o, s.stale);
    assert ProcOk(s, p);
    MineIsLimbo(s, p);
  }

  lemma MineIsLimbo(s: State, p: nat)
    requires p in s.procs && ProcOk(s, p)
    ensures MineOff(s.procs[p].pc).Some? ==> InLimbo(s, MineOff(s.procs[p].pc).value)
  {
    hide SlotOf;
  }

  lemma FrameRely(s: State, t: State, p: nat, q: nat, i: nat, rs: set<nat>)
    requires Inv(s) && p in s.procs && q in s.procs && p != q
    requires Diff(s, t, p, i, rs) && OwnRecs(s, p, i, rs) && PendsKept(s, t, p)
    ensures Rely(s, t, q)
  {
    hide SlotOf;
    var Proc(op, pc) := s.procs[q];
    var c := SlotOf(op.key);
    assert t.procs[q] == s.procs[q];
    if HoldsChain(s.procs[q]) { RelyChain(s, t, p, q, i, rs); }
    if HoldsW(s.procs[q], 0) { OtherList(s, t, p, q, i, rs, 0); }
    if HoldsW(s.procs[p], LDAT) { Exclusive(s, p, q, LDAT); }
    if HoldsW(s.procs[p], LIDX) { Exclusive(s, p, q, LIDX); }
    if MineOff(pc).Some? {
      assert ProcOk(s, q);
      MineIsLimbo(s, q);
      assert PairOk(s, p, q);
      var o := MineOff(pc).value;
      assert o !in rs;
      assert SameRec(s, t, o) && SameData(s, t, o);
    }
  }

  lemma RelyChain(s: State, t: State, p: nat, q: nat, i: nat, rs: set<nat>)
    requires Inv(s) && p in s.procs && q in s.procs && p != q
    requires Diff(s, t, p, i, rs) && OwnRecs(s, p, i, rs) && HoldsChain(s.procs[q])
    ensures var c := SlotOf(s.procs[q].op.key);
            var k := s.procs[q].op.key;
            && SameList(s, t, c) && SameKey(s, t, k) && Lookup(t, k) == Lookup(s, k)
            && (c in s.stale ==> c in t.stale && t.stale[c] == s.stale[c])
            && (k in s.loc ==> SameRec(s, t, s.loc[k]))
  {
    hide SlotOf;
    var k := s.procs[q].op.key;
    var c := SlotOf(k);
    OtherList(s, t, p, q, i, rs, c);
    if HoldsW(s.procs[p], c) { Exclusive(s, p, q, c); }
    assert SameKey(s, t, k);
    if k in s.loc {
      assert LocOk(s.links.home, s.es, s.loc, k);
      if i < SLOTS { Exclusive(s, p, q, i); }
      OtherRec(s, p, i, rs, c, s.loc[k]);
      assert SameRec(s, t, s.loc[k]) && SameData(s, t, s.loc[k]);
      assert ExtentOk(s.dat, s.es, s.loc[k]);
    }
  }

  lemma PairSym(s: State, p: nat, q: nat)
    requires p in s.procs && q in s.procs && PairOk(s, p, q)
    ensures PairOk(s, q, p)
  {
  }

  /** Only the key of `p` may change what the files say. */
  ghost predicate Quiet(s: State, t: State, key: CString) {
    forall k: CString {:trigger Lookup(t, k)} :: k != key ==> Lookup(t, k) == Lookup(s, k)
  }

  lemma OtherKeys(s: State, t: State, p: nat, i: nat, rs: set<nat>, k: CString)
    requires Inv(s) && p in s.procs && Diff(s, t, p, i, rs) && LocksOk(t)
    requires k != s.procs[p].op.key && Lookup(t, k) == Lookup(s, k)
    ensures KeyOk(t, k)
  {
    hide SlotOf;
    assert KeyOk(s, k) && SameKey(s, t, k);
    if !Agree(s, k) {
      var c := SlotOf(k);
      var q := s.w[c];
      assert WriterOk(s, c) && q != p && t.procs[q] == s.procs[q];
      assert HolderOk(t, q, c);
    }
  }

  /** One step keeps the invariant once it is shown for what the step touches. */
  lemma Assemble(s: State, t: State, p: nat, i: nat, rs: set<nat>)
    requires Inv(s) && p in s.procs && Diff(s, t, p, i, rs) && OwnRecs(s, p, i, rs) && PendsKept(s, t, p)
    requires FilesOk(t) && LocksOk(t) && StaleOk(t) && ProcOk(t, p)
    requires Quiet(s, t, s.procs[p].op.key) && KeyOk(t, s.procs[p].op.key)
    requires forall q {:trigger PairOk(t, p, q)} :: q in t.procs && q != p ==> PairOk(t, p, q)
    ensures Inv(t)
  {
    hide SlotOf, ProcOk, FilesOk, Wf, KeysOk, DataOk;
    forall k: CString ensures KeyOk(t, k) {
      if k != s.procs[p].op.key {
        assert Lookup(t, k) == Lookup(s, k);
        OtherKeys(s, t, p, i, rs, k);
      }
    }
    forall q | q in t.procs ensures ProcOk(t, q) {
      if q != p {
        FrameRely(s, t, p, q, i, rs);
        assert ProcOk(s, q);
        RelyOk(s, t, q);
      }
    }
    forall a, b | a in t.procs && b in t.procs && a != b ensures PairOk(t, a, b) {
      if a == p { assert PairOk(t, p, b); }
      else if b == p { assert PairOk(t, p, a); PairSym(t, p, a); }
      else { assert PairOk(s, a, b); }
    }
  }

  // -- Lock moves ------------------------------------------------------------------------

  /** The byte ranges of different locks are disjoint, so releasing one lock releases
      nothing else. */
  lemma RangesDisjoint(a: nat, b: nat)
    requires a <= LDAT && b <= LDAT
    ensures Overlap(RangeOf(a), RangeOf(b)) <==> a == b
  {
  }

  lemma LocksSame(s: State, t: State, p: nat)
    requires LocksOk(s) && p in s.procs && t.w == s.w && t.rd == s.rd
    requires p in t.procs && t.procs == s.procs[p := t.procs[p]]
    requires forall l :: HoldsW(t.procs[p], l) == HoldsW(s.procs[p], l)
    requires forall l :: HoldsR(t.procs[p], l) == HoldsR(s.procs[p], l)
    ensures LocksOk(t)
  {
    hide SlotOf, HoldsW, HoldsR;
    forall l | l in t.w ensures WriterOk(t, l) { assert WriterOk(s, l); }
    forall q, l | q in t.procs ensures HolderOk(t, q, l) { assert HolderOk(s, q, l); }
    forall l, q | q in Readers(t, l) ensures q in t.procs { assert q in Readers(s, l); }
  }

  lemma LocksGain(s: State, t: State, p: nat, lock: nat)
    requires LocksOk(s) && p in s.procs && CanWriteLock(s, lock) && t.w == s.w[lock := p] && t.rd == s.rd
    requires p in t.procs && t.procs == s.procs[p := t.procs[p]]
    requires forall l :: HoldsW(t.procs[p], l) == (HoldsW(s.procs[p], l) || l == lock)
    requires forall l :: HoldsR(t.procs[p], l) == HoldsR(s.procs[p], l)
    ensures LocksOk(t)
  {
    hide SlotOf, HoldsW, HoldsR;
    forall l | l in t.w ensures WriterOk(t, l) { if l != lock { assert WriterOk(s, l); } }
    forall q, l | q in t.procs ensures HolderOk(t, q, l) { assert HolderOk(s, q, l); }
    forall l, q | q in Readers(t, l) ensures q in t.procs { assert q in Readers(s, l); }
  }

  lemma LocksGainRead(s: State, t: State, p: nat, lock: nat)
    requires LocksOk(s) && p in s.procs && lock !in s.w && t.w == s.w && t.rd == s.rd[lock := Readers(s, lock) + {p}]
    requires p in t.procs && t.procs == s.procs[p := t.procs[p]]
    requires forall l :: HoldsW(t.procs[p], l) == HoldsW(s.procs[p], l)
    requires forall l :: HoldsR(t.procs[p], l) == (HoldsR(s.procs[p], l) || l == lock)
    ensures LocksOk(t)
  {
    hide SlotOf, HoldsW, HoldsR;
    forall l | l in t.w ensures WriterOk(t, l) { assert WriterOk(s, l); }
    forall q, l | q in t.procs ensures HolderOk(t, q, l) { assert HolderOk(s, q, l); }
    forall l, q | q in Readers(t, l) ensures q in t.procs { if q != p { assert q in Readers(s, l); } }
  }

  lemma LocksLose(s: State, t: State, p: nat, lock: nat)
    requires LocksOk(s) && p in s.procs && t.w == Unlock(s, p, lock).w && t.rd == Unlock(s, p, lock).rd
    requires lock <= LDAT && p in t.procs && t.procs == s.procs[p := t.procs[p]]
    requires forall l :: HoldsW(t.procs[p], l) == (HoldsW(s.procs[p], l) && l != lock)
    requires forall l :: HoldsR(t.procs[p], l) == (HoldsR(s.procs[p], l) && l != lock)
    ensures LocksOk(t)
  {
    forall l | l in s.w || (l in s.rd && s.rd[l] != {}) ensures Overlap(RangeOf(l), RangeOf(lock)) <==> l == lock {
      HeldIsLock(s, l);
      RangesDisjoint(l, lock);
    }
    hide SlotOf, HoldsW, HoldsR, Overlap, RangeOf;
    forall l ensures Readers(t, l) == if l == lock then Readers(s, l) - {p} else Readers(s, l) {}
    forall l | l in t.w ensures WriterOk(t, l) { assert WriterOk(s, l); }
    forall q, l | q in t.procs ensures HolderOk(t, q, l) { assert HolderOk(s, q, l); }
    forall l, q | q in Readers(t, l) ensures q in t.procs { assert q in Readers(s, l); }
  }

  lemma HeldIsLock(s: State, l: nat)
    requires LocksOk(s) && (l in s.w || (l in s.rd && s.rd[l] != {}))
    ensures l <= LDAT
  {
    if l in s.w {
      assert WriterOk(s, l);
    } else {
      var q :| q in s.rd[l];
      assert q in Readers(s, l);
      assert HolderOk(s, q, l);
    }
  }

  lemma StaleKept(s: State, t: State, p: nat)
    requires LocksOk(s) && LocksOk(t) && StaleOk(s) && t.stale == s.stale && p in s.procs
    requires p in t.procs && t.procs == s.procs[p := t.procs[p]] && !s.procs[p].pc.DelHead? && !s.procs[p].pc.DelFix?
    ensures StaleOk(t)
  {
    hide SlotOf, HoldsW;
    forall i | i in t.stale ensures StaleAt(t, i) {
      assert StaleAt(s, i) && WriterOk(s, i);
      assert HolderOk(t, s.w[i], i);
    }
  }

  // -- Steps that only move the process, and its locks -------------------------------------

  predicate SameFiles(s: State, t: State) {
    && t.links == s.links && t.es == s.es && t.dat == s.dat && t.isize == s.isize
    && t.stale == s.stale && t.loc == s.loc
  }

  predicate SubOption<T(==)>(a: Option<T>, b: Option<T>) { a == b || a.None? }

  lemma Moved(s: State, t: State, p: nat)
    requires Inv(s) && p in s.procs && SameFiles(s, t)
    requires p in t.procs && t.procs == s.procs[p := t.procs[p]] && t.procs[p].op == s.procs[p].op
    requires !s.procs[p].pc.DelHead? && !s.procs[p].pc.DelFix?
    requires LocksOk(t) && ProcOk(t, p) && KeyOk(t, s.procs[p].op.key)
    requires forall k: CString :: k != s.procs[p].op.key || !HoldsW(s.procs[p], SlotOf(k)) ==> SameKey(s, t, k)
    requires SubOption(MineOff(t.procs[p].pc), MineOff(s.procs[p].pc))
    requires SubOption(PendOff(t.procs[p].pc), PendOff(s.procs[p].pc))
    ensures Inv(t)
  {
    StaleKept(s, t, p);
    hide SlotOf, HoldsW, ProcOk, Wf, KeysOk, DataOk;
    forall q | q in t.procs && q != p ensures PairOk(t, p, q) { assert PairOk(s, p, q); }
    forall k | 0 <= k < SLOTS ensures SameSlot(s, t, k) {}
    Assemble(s, t, p, SLOTS, {});
  }
}

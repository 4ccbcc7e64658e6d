/** The steps that only read, lock or unlock. Each moves its process to another program
    point; what must hold there is shown of the files as they are. */
module DbProcsMoves {
  import opened Ascii
  import opened DbFormat
  import opened DbLinks
  import opened DbBytes
  import opened DbSpec
  import opened DbLayout
  import opened DbView
  import opened DbProcs
  import opened DbProcsInv

  // -- Moving a process ------------------------------------------------------------------

  lemma DelFiles(s: State, t: State, op: Op, pc: Pc)
    requires SameFiles(s, t) && t.abs == s.abs && DelOk(s, op, pc)
    ensures DelOk(t, op, pc)
  {
    hide SlotOf;
  }

  lemma StoreFiles(s: State, t: State, op: Op, pc: Pc)
    requires SameFiles(s, t) && t.abs == s.abs && StoreOk(s, op, pc)
    ensures StoreOk(t, op, pc)
  {
    hide SlotOf;
  }

  lemma AppendFiles(s: State, t: State, op: Op, pc: Pc)
    requires SameFiles(s, t) && t.abs == s.abs && AppendOk(s, op, pc)
    ensures AppendOk(t, op, pc)
  {
    hide SlotOf;
  }

  lemma FindFiles(s: State, t: State, op: Op, pc: Pc)
    requires SameFiles(s, t) && t.abs == s.abs && FindOk(s, op, pc)
    ensures FindOk(t, op, pc)
  {
    hide SlotOf;
  }

  /** What holds at a program point depends on the files and the map only. */
  lemma PcOkFiles(s: State, t: State, op: Op, pc: Pc)
    requires SameFiles(s, t) && t.abs == s.abs && PcOk(s, op, pc)
    ensures PcOk(t, op, pc)
  {
    hide FindOk, DelOk, StoreOk, AppendOk, SameFiles;
    if InDelete(pc) { DelFiles(s, t, op, pc); }
    else if InStore(pc) { StoreFiles(s, t, op, pc); }
    else if InAppend(pc) { AppendFiles(s, t, op, pc); }
    else { FindFiles(s, t, op, pc); }
  }

  /** A call's own key keeps its status while the files and the map stay. */
  lemma KeyStays(s: State, t: State, p: nat)
    requires Inv(s) && p in s.procs && SameFiles(s, t) && t.abs == s.abs && LocksOk(t)
    requires p in t.procs && t.procs == s.procs[p := t.procs[p]] && t.procs[p].op == s.procs[p].op
    requires Loose(s.procs[p].pc) && HoldsW(s.procs[p], SlotOf(s.procs[p].op.key)) ==>
               Loose(t.procs[p].pc) && HoldsW(t.procs[p], SlotOf(s.procs[p].op.key))
    ensures KeyOk(t, s.procs[p].op.key)
  {
    hide SlotOf;
    var key := s.procs[p].op.key;
    assert KeyOk(s, key);
    if !Agree(s, key) {
      var c := SlotOf(key);
      assert WriterOk(s, c);
      assert HolderOk(t, s.w[c], c);
    }
  }

  /** The point reached is no more than the point left, apart from locks. */
  predicate Onward(op: Op, pc: Pc, pc': Pc) {
    && !pc.DelHead? && !pc.DelFix?
    && (Loose(pc) && !op.OpFetch? ==> Loose(pc'))
    && !pc'.Idle? && !pc'.WantChain?
    && SubOption(MineOff(pc'), MineOff(pc)) && SubOption(PendOff(pc'), PendOff(pc))
  }

  /** From here on `t` is `s` with other locks and `p` at another point. */
  lemma MoveAny(s: State, t: State, p: nat, pc': Pc)
    requires Inv(s) && p in s.procs && SameFiles(s, t) && t.abs == s.abs && LocksOk(t)
    requires t.procs == s.procs[p := Proc(s.procs[p].op, pc')] && Onward(s.procs[p].op, s.procs[p].pc, pc')
    requires OpOk(s.procs[p].op, pc') && PcOk(s, s.procs[p].op, pc')
    ensures Inv(t)
  {
    KeyStays(s, t, p);
    PcOkFiles(s, t, s.procs[p].op, pc');
    hide SlotOf, PcOk, OpOk, FilesOk, LocksOk, StaleOk, AbsOk, HoldsW;
    Moved(s, t, p);
  }

  predicate SameHolds(op: Op, pc: Pc, pc': Pc) {
    (pc.Idle? || pc.WantChain? <==> pc'.Idle? || pc'.WantChain?)
    && HoldsFree(pc) == HoldsFree(pc')
    && (pc.AppSeekDat? || pc.AppDat? || pc.AppUnlockDat? <==> pc'.AppSeekDat? || pc'.AppDat? || pc'.AppUnlockDat?)
    && (pc.AppSeekIdx? || pc.AppIdx? || pc.AppUnlockIdx? <==> pc'.AppSeekIdx? || pc'.AppIdx? || pc'.AppUnlockIdx?)
  }

  lemma Move(s: State, p: nat, pc': Pc)
    requires Inv(s) && p in s.procs && Onward(s.procs[p].op, s.procs[p].pc, pc')
    requires SameHolds(s.procs[p].op, s.procs[p].pc, pc')
    requires OpOk(s.procs[p].op, pc') && PcOk(s, s.procs[p].op, pc')
    ensures Inv(Goto(s, p, s.procs[p].op, pc'))
  {
    hide SlotOf, PcOk, OpOk, FilesOk, Onward;
    var t := Goto(s, p, s.procs[p].op, pc');
    LocksSame(s, t, p);
    MoveAny(s, t, p, pc');
  }

  lemma MoveLock(s: State, p: nat, lock: nat, pc': Pc)
    requires Inv(s) && p in s.procs && Onward(s.procs[p].op, s.procs[p].pc, pc') && CanWriteLock(s, lock)
    requires forall l :: HoldsW(Proc(s.procs[p].op, pc'), l) == (HoldsW(s.procs[p], l) || l == lock)
    requires forall l :: HoldsR(Proc(s.procs[p].op, pc'), l) == HoldsR(s.procs[p], l)
    requires OpOk(s.procs[p].op, pc') && PcOk(s, s.procs[p].op, pc')
    ensures Inv(Goto(WriteLock(s, p, lock), p, s.procs[p].op, pc'))
  {
    hide SlotOf, PcOk, OpOk, FilesOk, Onward, HoldsW, HoldsR;
    var t := Goto(WriteLock(s, p, lock), p, s.procs[p].op, pc');
    LocksGain(s, t, p, lock);
    MoveAny(s, t, p, pc');
  }

  lemma MoveUnlock(s: State, p: nat, lock: nat, pc': Pc)
    requires Inv(s) && p in s.procs && Onward(s.procs[p].op, s.procs[p].pc, pc') && lock <= LDAT
    requires forall l :: HoldsW(Proc(s.procs[p].op, pc'), l) == (HoldsW(s.procs[p], l) && l != lock)
    requires forall l :: HoldsR(Proc(s.procs[p].op, pc'), l) == (HoldsR(s.procs[p], l) && l != lock)
    requires OpOk(s.procs[p].op, pc') && PcOk(s, s.procs[p].op, pc')
    ensures Inv(Goto(Unlock(s, p, lock), p, s.procs[p].op, pc'))
  {
    hide SlotOf, PcOk, OpOk, FilesOk, Onward, HoldsW, HoldsR;
    var t := Goto(Unlock(s, p, lock), p, s.procs[p].op, pc');
    LocksLose(s, t, p, lock);
    MoveAny(s, t, p, pc');
  }

  // -- Facts -----------------------------------------------------------------------------

  /** A key that is not loose is as the map says. */
  lemma Firm(s: State, p: nat)
    requires Inv(s) && p in s.procs && HoldsChain(s.procs[p])
    requires !Loose(s.procs[p].pc) || s.procs[p].op.OpFetch?
    ensures Agree(s, s.procs[p].op.key)
  {
    hide SlotOf;
    var key := s.procs[p].op.key;
    assert KeyOk(s, key) && HolderOk(s, p, SlotOf(key));
    assert SlotOf(key) in s.w ==> WriterOk(s, SlotOf(key));
  }

  /** Reading the pointer that leads to position `j` of an up-to-date list. */
  lemma ReadAlong(s: State, i: nat, j: nat)
    requires FilesOk(s) && i < SLOTS && i !in s.stale && j <= |s.links.lists[i]|
    ensures var f := Field(s.links.lists[i], i, j); Along(s, i, GetPtr(s, f), f, j)
    ensures j < |s.links.lists[i]| ==> s.links.lists[i][j] in s.es && s.links.lists[i][j] != 0
  {
    LinkFacts(s.links, i, j, s.stale);
    if j < |s.links.lists[i]| { MemberFacts(s.links, i, j, s.stale); }
  }

  // -- Finding ---------------------------------------------------------------------------

  lemma StepWant(s: State, p: nat)
    requires Inv(s) && p in s.procs && s.procs[p].pc.WantChain? && Enabled(s, p)
    ensures Inv(ExecFind(s, p, s.procs[p].op, WantChain))
  {
    var op := s.procs[p].op;
    var c := SlotOf(op.key);
    hide SlotOf;
    assert ProcOk(s, p);
    if op.OpFetch? {
      var t := Goto(ReadLock(s, p, c), p, op, ReadHead);
      LocksGainRead(s, t, p, c);
      MoveAny(s, t, p, ReadHead);
    } else {
      MoveLock(s, p, c, ReadHead);
    }
  }

  lemma StepReadHead(s: State, p: nat)
    requires Inv(s) && p in s.procs && s.procs[p].pc.ReadHead?
    ensures Inv(ExecFind(s, p, s.procs[p].op, ReadHead))
  {
    var op := s.procs[p].op;
    var c := SlotOf(op.key);
    hide SlotOf;
    assert ProcOk(s, p);
    NotStale(s, p, c);
    ReadAlong(s, c, 0);
    Move(s, p, Walk(GetPtr(s, Slot(c)), Slot(c), 0));
  }

  lemma StepWalk(s: State, p: nat)
    requires Inv(s) && p in s.procs && s.procs[p].pc.Walk?
    ensures Inv(ExecFind(s, p, s.procs[p].op, s.procs[p].pc))
  {
    hide ExecStore, ExecAppend, ExecDelete;
    var Proc(op, pc) := s.procs[p];
    var c := SlotOf(op.key);
    hide SlotOf;
    assert ProcOk(s, p);
    NotStale(s, p, c);
    ReadAlong(s, c, pc.j);
    var next := WalkNext(s, op, pc);
    if pc.j < |s.links.lists[c]| {
      ReadAlong(s, c, pc.j + 1);
    } else {
      NotOnChain(s, op.key);
    }
    assert PcOk(s, op, next);
    Move(s, p, next);
  }

  function WalkNext(s: State, op: Op, pc: Pc): Pc
    requires pc.Walk?
  {
    if pc.off == 0 || pc.off !in s.es then Miss
    else if SEP in s.es[pc.off].key then Failed(Unreadable(pc.off))
    else if s.es[pc.off].key == op.key then Got(pc.off, pc.fld, pc.j, GetPtr(s, pc.off))
    else Walk(GetPtr(s, pc.off), pc.off, pc.j + 1)
  }

  /** A key that a whole chain does not hold is not in the database. */
  lemma NotOnChain(s: State, key: CString)
    requires FilesOk(s) && Skipped(s, key, |s.links.lists[SlotOf(key)]|)
    ensures key !in s.loc
  {
    if key in s.loc {
      assert LocOk(s.links.home, s.es, s.loc, key);
      ListIsHome(s.links, SlotOf(key), s.loc[key], s.stale);
    }
  }

  /** What Got or Miss says about the key. */
  predicate Located(s: State, op: Op, pc: Pc) {
    && Agree(s, op.key)
    && (pc.Got? ==> op.key in s.loc && s.loc[op.key] == pc.off && op.key in s.abs
                    && pc.off in s.es && GetDat(s, s.es[pc.off]) == s.abs[op.key])
    && (pc.Miss? ==> op.key !in s.loc && op.key !in s.abs)
  }

  lemma Locate(s: State, p: nat)
    requires Inv(s) && p in s.procs && (s.procs[p].pc.Got? || s.procs[p].pc.Miss?)
    ensures Located(s, s.procs[p].op, s.procs[p].pc)
  {
    hide SlotOf;
    var Proc(op, pc) := s.procs[p];
    assert ProcOk(s, p);
    Firm(s, p);
    if pc.Got? {
      MemberFacts(s.links, SlotOf(op.key), pc.j, s.stale);
      assert NameOk(s.links.home, s.es, s.loc, pc.off);
      assert ExtentOk(s.dat, s.es, pc.off);
      FindNone(DataOf(s.dat, s.es, pc.off), NUL);
    }
  }

  lemma AfterFindOk(s: State, op: Op, pc: Pc)
    requires (pc.Got? || pc.Miss?) && OpOk(op, pc) && PcOk(s, op, pc) && Located(s, op, pc)
    ensures OpOk(op, AfterFind(s, op, pc)) && PcOk(s, op, AfterFind(s, op, pc))
  {
    hide SlotOf, AppendOk;
    var pc' := AfterFind(s, op, pc);
    if pc'.Done? { assert FindOk(s, op, pc'); }
    else if pc'.DelLock? { assert DelOk(s, op, pc'); }
    else { assert StoreOk(s, op, pc'); }
  }

  lemma StepFound(s: State, p: nat)
    requires Inv(s) && p in s.procs && (s.procs[p].pc.Got? || s.procs[p].pc.Miss?)
    ensures Inv(ExecFind(s, p, s.procs[p].op, s.procs[p].pc))
  {
    hide SlotOf, PcOk, OpOk, Located;
    var Proc(op, pc) := s.procs[p];
    assert ProcOk(s, p);
    Locate(s, p);
    AfterFindOk(s, op, pc);
    Move(s, p, AfterFind(s, op, pc));
  }

  /** The call returns: what it did and what it returns is what one step of the map does
      and returns. */
  lemma StepDone(s: State, p: nat)
    requires Inv(s) && p in s.procs && s.procs[p].pc.Done?
    ensures var t := ExecFind(s, p, s.procs[p].op, s.procs[p].pc);
            Inv(t) && (t.abs, s.procs[p].pc.ret) == SpecStep(s.abs, s.procs[p].op)
  {
    var Proc(op, pc) := s.procs[p];
    var t := Goto(Unlock(s, p, SlotOf(op.key)).(abs := SpecStep(s.abs, op).0), p, op, Idle);
    assert ProcOk(s, p);
    assert FindOk(s, op, pc);
    LocksLose(s, t, p, SlotOf(op.key));
    hide SlotOf, FilesOk, HoldsW;
    assert Agree(t, op.key);
    if op.OpFetch? { assert t.abs == s.abs; }
    DoneKeys(s, t, p);
    Moved(s, t, p);
  }

  lemma DoneKeys(s: State, t: State, p: nat)
    requires p in s.procs && t.loc == s.loc && t.abs == SpecStep(s.abs, s.procs[p].op).0 && s.procs[p].pc.Done?
    ensures forall k: CString :: k != s.procs[p].op.key || !HoldsW(s.procs[p], SlotOf(k)) ==> SameKey(s, t, k)
  {
  }

  /** The process ends in a store: its chain is sound, and its key is gone. */
  lemma StepFailed(s: State, p: nat)
    requires Inv(s) && p in s.procs && s.procs[p].pc.Failed? && !s.procs[p].pc.why.Unreadable?
    ensures var Proc(op, pc) := s.procs[p];
            var t := ExecFind(s, p, op, pc);
            && Inv(t) && t.abs == s.abs - {op.key} && op.OpStore?
            && (pc.why.TooLong? ==> !BodyLenOk(op.key, pc.why.doff, DataLen(op)))
            && (pc.why.TooFar? ==> pc.why.off > PTR_MAX)
  {
    var Proc(op, pc) := s.procs[p];
    var t := Goto(Unlock(s, p, SlotOf(op.key)).(abs := s.abs - {op.key}), p, op, Idle);
    assert ProcOk(s, p);
    assert FindOk(s, op, pc);
    LocksLose(s, t, p, SlotOf(op.key));
    hide SlotOf, FilesOk, HoldsW;
    assert Agree(t, op.key);
    assert forall k: CString :: k != op.key ==> SameKey(s, t, k);
    Moved(s, t, p);
  }

  /** The process ends in its search: nothing has changed, and a key with a separator is on
      the chain. */
  lemma StepUnreadable(s: State, p: nat)
    requires Inv(s) && p in s.procs && s.procs[p].pc.Failed? && s.procs[p].pc.why.Unreadable?
    ensures var t := ExecFind(s, p, s.procs[p].op, s.procs[p].pc);
            Inv(t) && t.abs == s.abs && Blocked(s.abs.Keys, s.procs[p].op.key)
  {
    var Proc(op, pc) := s.procs[p];
    var t := Goto(Unlock(s, p, SlotOf(op.key)), p, op, Idle);
    assert ProcOk(s, p);
    LocksLose(s, t, p, SlotOf(op.key));
    BadKey(s, p);
    Firm(s, p);
    hide SlotOf, FilesOk, HoldsW;
    assert Agree(t, op.key);
    Moved(s, t, p);
  }

  lemma BadKey(s: State, p: nat)
    requires Inv(s) && p in s.procs && s.procs[p].pc.Failed? && s.procs[p].pc.why.Unreadable?
    ensures Blocked(s.abs.Keys, s.procs[p].op.key)
  {
    hide SlotOf;
    var Proc(op, pc) := s.procs[p];
    assert ProcOk(s, p);
    var c, o := SlotOf(op.key), pc.why.off;
    var j :| 0 <= j < |s.links.lists[c]| && s.links.lists[c][j] == o;
    MemberFacts(s.links, c, j, s.stale);
    assert NameOk(s.links.home, s.es, s.loc, o);
    var k := s.es[o].key;
    assert LocOk(s.links.home, s.es, s.loc, k) && KeyOk(s, k) && ExtentOk(s.dat, s.es, o);
    assert HolderOk(s, p, c);
    assert c in s.w ==> WriterOk(s, c);
    assert Agree(s, k);
    assert k in s.abs.Keys;
  }

  // -- Deleting --------------------------------------------------------------------------

  lemma StepDelLock(s: State, p: nat)
    requires Inv(s) && p in s.procs && s.procs[p].pc.DelLock? && Enabled(s, p)
    ensures Inv(ExecDelete(s, p, s.procs[p].op, s.procs[p].pc))
  {
    hide SlotOf, FilesOk, StaleOk, AbsOk, OnKey, Commit;
    var Proc(op, pc) := s.procs[p];
    assert ProcOk(s, p);
    MoveLock(s, p, 0, DelDat(pc.off, pc.fld, pc.j, pc.save));
  }

  lemma StepDelRead(s: State, p: nat)
    requires Inv(s) && p in s.procs && s.procs[p].pc.DelRead?
    ensures Inv(ExecDelete(s, p, s.procs[p].op, s.procs[p].pc))
  {
    hide SlotOf, Wf, KeysOk, DataOk, OnKey, Commit;
    var Proc(op, pc) := s.procs[p];
    assert ProcOk(s, p);
    FreeNotStale(s);
    ReadAlong(s, 0, 0);
    Move(s, p, DelIdx(pc.off, pc.fld, pc.j, pc.save, GetPtr(s, 0)));
  }

  lemma StepDelUnlock(s: State, p: nat)
    requires Inv(s) && p in s.procs && s.procs[p].pc.DelUnlock?
    ensures Inv(ExecDelete(s, p, s.procs[p].op, s.procs[p].pc))
  {
    hide SlotOf, FilesOk, StaleOk, AbsOk;
    var Proc(op, pc) := s.procs[p];
    assert ProcOk(s, p);
    DeletedIs(s, op);
    MoveUnlock(s, p, 0, if op.OpDelete? then Done(RetCode(0)) else NewHead(true));
  }

  /** A deleted key is what the map says a deletion leaves. */
  lemma DeletedIs(s: State, op: Op)
    requires Gone(s, op)
    ensures op.OpDelete? ==> FindOk(s, op, Done(RetCode(0)))
    ensures !op.OpDelete? ==> op.OpStore?
  {
  }

  // -- Storing ---------------------------------------------------------------------------

  lemma StepNewHead(s: State, p: nat)
    requires Inv(s) && p in s.procs && s.procs[p].pc.NewHead?
    ensures Inv(ExecStore(s, p, s.procs[p].op, s.procs[p].pc))
  {
    hide SlotOf, Wf, KeysOk, DataOk, Gone;
    var Proc(op, pc) := s.procs[p];
    assert ProcOk(s, p);
    NotStale(s, p, SlotOf(op.key));
    ReadAlong(s, SlotOf(op.key), 0);
    var ptr := GetPtr(s, Slot(SlotOf(op.key)));
    Move(s, p, if pc.again then AppLockDat(ptr) else FfLock(ptr));
  }

  lemma StepFfLock(s: State, p: nat)
    requires Inv(s) && p in s.procs && s.procs[p].pc.FfLock? && Enabled(s, p)
    ensures Inv(ExecStore(s, p, s.procs[p].op, s.procs[p].pc))
  {
    hide SlotOf, FilesOk, StaleOk, AbsOk, Gone, Head;
    var Proc(op, pc) := s.procs[p];
    assert ProcOk(s, p);
    MoveLock(s, p, 0, FfHead(pc.ptr));
  }

  lemma StepFfHead(s: State, p: nat)
    requires Inv(s) && p in s.procs && s.procs[p].pc.FfHead?
    ensures Inv(ExecStore(s, p, s.procs[p].op, s.procs[p].pc))
  {
    hide SlotOf, Wf, KeysOk, DataOk, Gone, Head;
    var Proc(op, pc) := s.procs[p];
    assert ProcOk(s, p);
    FreeNotStale(s);
    ReadAlong(s, 0, 0);
    Move(s, p, FfWalk(pc.ptr, GetPtr(s, 0), 0, 0));
  }

  lemma StepFfUnlock(s: State, p: nat)
    requires Inv(s) && p in s.procs && s.procs[p].pc.FfUnlock?
    ensures Inv(ExecStore(s, p, s.procs[p].op, s.procs[p].pc))
  {
    hide SlotOf, FilesOk, StaleOk, AbsOk, Gone, Head, InLimbo, Sized;
    var Proc(op, pc) := s.procs[p];
    assert ProcOk(s, p);
    MoveUnlock(s, p, 0, if pc.got then FillDat(pc.ptr, pc.off) else AppLockDat(pc.ptr));
  }

  lemma StepFfWalk(s: State, p: nat)
    requires Inv(s) && p in s.procs && s.procs[p].pc.FfWalk?
    ensures Inv(ExecStore(s, p, s.procs[p].op, s.procs[p].pc))
  {
    hide SlotOf, Wf, KeysOk, DataOk, Gone, Head;
    var Proc(op, pc) := s.procs[p];
    assert ProcOk(s, p);
    FreeNotStale(s);
    ReadAlong(s, 0, pc.j);
    if pc.j < |s.links.lists[0]| { ReadAlong(s, 0, pc.j + 1); }
    var next := FfNext(s, op, pc);
    assert PcOk(s, op, next);
    Move(s, p, next);
  }

  function FfNext(s: State, op: Op, pc: Pc): Pc
    requires pc.FfWalk?
  {
    if pc.off == 0 || pc.off !in s.es then FfUnlock(pc.ptr, false, 0)
    else if |s.es[pc.off].key| == |op.key| && s.es[pc.off].datlen == DataLen(op) then
      FfTake(pc.ptr, pc.off, pc.fld, pc.j, GetPtr(s, pc.off))
    else FfWalk(pc.ptr, GetPtr(s, pc.off), pc.off, pc.j + 1)
  }

  // -- Appending -------------------------------------------------------------------------

  lemma StepAppLockDat(s: State, p: nat)
    requires Inv(s) && p in s.procs && s.procs[p].pc.AppLockDat? && Enabled(s, p)
    ensures Inv(ExecAppend(s, p, s.procs[p].op, s.procs[p].pc))
  {
    hide SlotOf, FilesOk, StaleOk, AbsOk, Gone, Head, Pend, Filled;
    var Proc(op, pc) := s.procs[p];
    assert ProcOk(s, p);
    MoveLock(s, p, LDAT, AppSeekDat(pc.ptr));
  }

  lemma StepAppSeekDat(s: State, p: nat)
    requires Inv(s) && p in s.procs && s.procs[p].pc.AppSeekDat?
    ensures Inv(ExecAppend(s, p, s.procs[p].op, s.procs[p].pc))
  {
    hide SlotOf, FilesOk, StaleOk, AbsOk, Gone, Head, Pend, Filled;
    var Proc(op, pc) := s.procs[p];
    assert ProcOk(s, p);
    Move(s, p, AppDat(pc.ptr, |s.dat|));
  }

  lemma StepAppUnlockDat(s: State, p: nat)
    requires Inv(s) && p in s.procs && s.procs[p].pc.AppUnlockDat?
    ensures Inv(ExecAppend(s, p, s.procs[p].op, s.procs[p].pc))
  {
    hide SlotOf, FilesOk, StaleOk, AbsOk, Gone, Head, Pend, Filled;
    var Proc(op, pc) := s.procs[p];
    assert ProcOk(s, p);
    MoveUnlock(s, p, LDAT, AppLockIdx(pc.ptr, pc.doff));
  }

  lemma StepAppLockIdx(s: State, p: nat)
    requires Inv(s) && p in s.procs && s.procs[p].pc.AppLockIdx? && Enabled(s, p)
    ensures Inv(ExecAppend(s, p, s.procs[p].op, s.procs[p].pc))
  {
    hide SlotOf, FilesOk, StaleOk, AbsOk, Pend, Filled, BodyLenOk;
    var Proc(op, pc) := s.procs[p];
    assert ProcOk(s, p);
    if BodyLenOk(op.key, pc.doff, DataLen(op)) {
      MoveLock(s, p, LIDX, AppSeekIdx(pc.ptr, pc.doff));
    } else {
      Move(s, p, Failed(TooLong(pc.doff)));
    }
  }

  lemma StepAppSeekIdx(s: State, p: nat)
    requires Inv(s) && p in s.procs && s.procs[p].pc.AppSeekIdx?
    ensures Inv(ExecAppend(s, p, s.procs[p].op, s.procs[p].pc))
  {
    hide SlotOf, FilesOk, StaleOk, AbsOk, Gone, Head, Pend, Filled;
    var Proc(op, pc) := s.procs[p];
    assert ProcOk(s, p);
    Move(s, p, AppIdx(pc.ptr, pc.doff, s.isize));
  }

  lemma StepAppUnlockIdx(s: State, p: nat)
    requires Inv(s) && p in s.procs && s.procs[p].pc.AppUnlockIdx?
    ensures Inv(ExecAppend(s, p, s.procs[p].op, s.procs[p].pc))
  {
    hide SlotOf, FilesOk, StaleOk, AbsOk, Gone, Head, Pend, Filled;
    var Proc(op, pc) := s.procs[p];
    assert ProcOk(s, p);
    MoveUnlock(s, p, LIDX, Link(pc.ptr, pc.off));
  }
}

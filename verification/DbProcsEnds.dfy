/** No call goes on for ever: every step of its own process brings it nearer to its end, and no
    step of another process takes it further away. */
module DbProcsEnds {
  import opened Ascii
  import opened DbFormat
  import opened Lists
  import opened DbLinks
  import opened DbSpec
  import opened DbProcs
  import opened DbProcsInv
  import opened DbProcsMoves
  import opened DbProcsRuns
  import opened DbProcsKeys
  import opened DbProcsSizes

  /** How many stages of its call a process still has before it, at most. */
  function Stage(pc: Pc): nat {
    match pc
    case Idle => 0
    case Done(_) => 1
    case Failed(_) => 1
    case Repl(_) => 2
    case Link(_, _) => 2
    case FillIdx(_, _) => 3
    case FillDat(_, _) => 4
    case AppUnlockIdx(_, _) => 3
    case AppIdx(_, _, _) => 4
    case AppSeekIdx(_, _) => 5
    case AppLockIdx(_, _) => 6
    case AppUnlockDat(_, _) => 7
    case AppDat(_, _) => 8
    case AppSeekDat(_) => 9
    case AppLockDat(_) => 10
    case FfUnlock(_, _, _) => 11
    case FfTake(_, _, _, _, _) => 12
    case FfWalk(_, _, _, _) => 13
    case FfHead(_) => 14
    case FfLock(_) => 15
    case NewHead(_) => 16
    case DelUnlock => 17
    case DelFix(_, _, _, _) => 18
    case DelHead(_, _, _, _) => 19
    case DelIdx(_, _, _, _, _) => 20
    case DelRead(_, _, _, _) => 21
    case DelDat(_, _, _, _) => 22
    case DelLock(_, _, _, _) => 23
    case Got(_, _, _, _) => 24
    case Miss => 24
    case Walk(_, _, _) => 25
    case ReadHead => 26
    case WantChain => 27
  }

  /** How far a search is from the end of its list. */
  function Ahead(s: State, proc: Proc): int {
    match proc.pc
    case Walk(_, _, j) =>
      if SlotOf(proc.op.key) < |s.links.lists| then |s.links.lists[SlotOf(proc.op.key)]| - j else 0
    case FfWalk(_, _, _, j) => if |s.links.lists| > 0 then |s.links.lists[0]| - j else 0
    case _ => 0
  }

  /** The second is nearer to its end. */
  predicate Nearer(s: State, a: Proc, t: State, b: Proc) {
    || Stage(b.pc) < Stage(a.pc)
    || (Stage(b.pc) == Stage(a.pc) && 0 <= Ahead(t, b) < Ahead(s, a))
  }

  predicate Advances(s: State, t: State, p: nat)
    requires p in s.procs
  {
    Steps(s, t, p) && Nearer(s, s.procs[p], t, t.procs[p])
  }

  lemma DeleteAdvances(s: State, p: nat)
    requires p in s.procs && InDelete(s.procs[p].pc)
    ensures Advances(s, ExecDelete(s, p, s.procs[p].op, s.procs[p].pc), p)
  {
    hide SlotOf, Goto, WriteLock, ReadLock, Unlock, SetPtr, SetDat, Removed, Joined, DoDelDat, DoDelIdx, Ahead;
  }

  /** Where a store on a new, reused or same-size record, or an append, goes next. */
  predicate StoreOn(pc: Pc, pc': Pc) {
    match pc
    case NewHead(_) => pc'.AppLockDat? || pc'.FfLock?
    case FfLock(_) => pc'.FfHead?
    case FfHead(_) => pc'.FfWalk?
    case FfTake(_, _, _, _, _) => pc'.FfUnlock?
    case FfUnlock(_, _, _) => pc'.FillDat? || pc'.AppLockDat?
    case FillDat(_, _) => pc'.FillIdx?
    case FillIdx(_, _) => pc'.Link?
    case _ => pc'.Done? || pc'.Failed?
  }

  predicate AppendOn(pc: Pc, pc': Pc) {
    match pc
    case AppLockDat(_) => pc'.AppSeekDat?
    case AppSeekDat(_) => pc'.AppDat?
    case AppDat(_, _) => pc'.AppUnlockDat?
    case AppUnlockDat(_, _) => pc'.AppLockIdx?
    case AppLockIdx(_, _) => pc'.AppSeekIdx? || pc'.Failed?
    case AppSeekIdx(_, _) => pc'.AppIdx?
    case AppIdx(_, _, _) => pc'.AppUnlockIdx?
    case _ => pc'.Link?
  }

  lemma StoreGoes(s: State, p: nat)
    requires p in s.procs && InStore(s.procs[p].pc) && !s.procs[p].pc.FfWalk?
    ensures var t := ExecStore(s, p, s.procs[p].op, s.procs[p].pc);
            Steps(s, t, p) && StoreOn(s.procs[p].pc, t.procs[p].pc)
  {
    hide SlotOf, Goto, WriteLock, ReadLock, Unlock, SetPtr, SetDat, Removed, Joined, DoFillIdx, DoLink, DoRepl;
  }

  lemma StoreAdvances(s: State, p: nat)
    requires p in s.procs && InStore(s.procs[p].pc) && !s.procs[p].pc.FfWalk?
    ensures Advances(s, ExecStore(s, p, s.procs[p].op, s.procs[p].pc), p)
  {
    hide ExecStore, Ahead;
    StoreGoes(s, p);
  }

  lemma AppendGoes(s: State, p: nat)
    requires p in s.procs && InAppend(s.procs[p].pc)
    ensures var t := ExecAppend(s, p, s.procs[p].op, s.procs[p].pc);
            Steps(s, t, p) && AppendOn(s.procs[p].pc, t.procs[p].pc)
  {
    hide SlotOf, Goto, WriteLock, ReadLock, Unlock, SetDat, DoAppIdx, BodyLenOk;
  }

  lemma AppendAdvances(s: State, p: nat)
    requires p in s.procs && InAppend(s.procs[p].pc)
    ensures Advances(s, ExecAppend(s, p, s.procs[p].op, s.procs[p].pc), p)
  {
    hide ExecAppend, Ahead;
    AppendGoes(s, p);
  }

  lemma FindAdvances(s: State, p: nat)
    requires p in s.procs && !InDelete(s.procs[p].pc) && !InStore(s.procs[p].pc) && !InAppend(s.procs[p].pc)
    requires !s.procs[p].pc.Idle? && !s.procs[p].pc.Walk?
    ensures Advances(s, ExecFind(s, p, s.procs[p].op, s.procs[p].pc), p)
  {
    hide SlotOf, Goto, WriteLock, ReadLock, Unlock, SpecStep, Ahead;
  }

  /** A search that goes on has not reached the end of its list. */
  lemma WalkAdvances(s: State, p: nat)
    requires p in s.procs && s.procs[p].pc.Walk? && Along(s, SlotOf(s.procs[p].op.key), s.procs[p].pc.off,
        s.procs[p].pc.fld, s.procs[p].pc.j)
    ensures Advances(s, ExecFind(s, p, s.procs[p].op, s.procs[p].pc), p)
  {
    var Proc(op, pc) := s.procs[p];
    WalkShape(s, p);
    hide ExecFind, SlotOf;
  }

  lemma WalkShape(s: State, p: nat)
    requires p in s.procs && s.procs[p].pc.Walk?
    ensures var Proc(op, pc) := s.procs[p];
            ExecFind(s, p, op, pc) == s.(procs := s.procs[p := Proc(op, WalkNext(s, op, pc))])
  {
    hide SlotOf;
  }

  lemma FfWalkAdvances(s: State, p: nat)
    requires p in s.procs && s.procs[p].pc.FfWalk?
    requires Along(s, 0, s.procs[p].pc.off, s.procs[p].pc.fld, s.procs[p].pc.j)
    ensures Advances(s, ExecStore(s, p, s.procs[p].op, s.procs[p].pc), p)
  {
    FfWalkShape(s, p);
    hide ExecStore, SlotOf;
  }

  lemma FfWalkShape(s: State, p: nat)
    requires p in s.procs && s.procs[p].pc.FfWalk?
    ensures var Proc(op, pc) := s.procs[p];
            ExecStore(s, p, op, pc) == s.(procs := s.procs[p := Proc(op, FfNext(s, op, pc))])
  {
    hide SlotOf;
  }

  lemma ExecAdvances(s: State, p: nat)
    requires Inv(s) && p in s.procs && !s.procs[p].pc.Idle?
    ensures Advances(s, Exec(s, p), p)
  {
    var pc := s.procs[p].pc;
    assert ProcOk(s, p);
    hide Inv, ExecFind, ExecDelete, ExecStore, ExecAppend, Advances, SlotOf;
    if pc.Walk? { WalkAdvances(s, p); }
    else if pc.FfWalk? { FfWalkAdvances(s, p); }
    else if InDelete(pc) { DeleteAdvances(s, p); }
    else if InStore(pc) { StoreAdvances(s, p); }
    else if InAppend(pc) { AppendAdvances(s, p); }
    else { FindAdvances(s, p); }
  }

  // -- What the others do ------------------------------------------------------------------

  /** The free list changes only where a process holds it. */
  predicate FreeKept(s: State, t: State, pc: Pc) {
    |t.links.lists| == |s.links.lists|
    && (pc.DelHead? || pc.FfTake? || |s.links.lists| == 0 || t.links.lists[0] == s.links.lists[0])
  }

  lemma DeleteFree(s: State, p: nat, op: Op, pc: Pc)
    requires InDelete(pc)
    ensures FreeKept(s, ExecDelete(s, p, op, pc), pc)
  {
    hide SlotOf, Goto, WriteLock, Unlock, DoDelDat, DoDelIdx, SetPtr, Joined;
    if pc.DelIdx? { DropFree(s, op.key, pc.off, pc.j, pc.freeptr); }
    else if pc.DelHead? { FreeEffect(s, pc.off); }
    else if pc.DelFix? { PtrLists(s, pc.fld, pc.save); }
  }

  lemma DropFree(s: State, key: CString, off: nat, j: nat, freeptr: nat)
    ensures var t := DoDelIdx(s, key, SlotOf(key), off, j, freeptr);
            |t.links.lists| == |s.links.lists| && (|s.links.lists| > 0 ==> t.links.lists[0] == s.links.lists[0])
  {
    var c := SlotOf(key);
    assert c != 0;
    hide SlotOf;
  }

  lemma PtrLists(s: State, fld: nat, v: nat)
    ensures SetPtr(s, fld, v).links.lists == s.links.lists
  {
  }

  lemma StoreFree(s: State, p: nat, op: Op, pc: Pc)
    requires InStore(pc)
    ensures FreeKept(s, ExecStore(s, p, op, pc), pc)
  {
    hide SlotOf, Goto, WriteLock, Unlock, DoRepl, DoLink, Removed, DoFillIdx;
    if pc.Link? { LinkFree(s, op.key, pc.off); }
    else if pc.FfTake? { TakeLists(s, pc.fld, pc.save, pc.j, pc.off); }
    else if pc.FillIdx? { FillEffect(s, op.key, pc.off, pc.ptr); FillLists(s, op.key, pc.off, pc.ptr); }
  }

  lemma LinkFree(s: State, key: CString, off: nat)
    ensures var t := DoLink(s, key, SlotOf(key), off);
            |t.links.lists| == |s.links.lists| && (|s.links.lists| > 0 ==> t.links.lists[0] == s.links.lists[0])
  {
    assert SlotOf(key) != 0;
    hide SlotOf;
  }

  lemma TakeLists(s: State, fld: nat, save: nat, j: nat, off: nat)
    ensures |Removed(SetPtr(s, fld, save), 0, j, off).links.lists| == |s.links.lists|
  {
  }

  lemma FillLists(s: State, key: CString, off: nat, ptr: nat)
    ensures DoFillIdx(s, key, off, ptr).links.lists == s.links.lists
  {
  }

  lemma AppendFree(s: State, p: nat, op: Op, pc: Pc)
    requires InAppend(pc)
    ensures FreeKept(s, ExecAppend(s, p, op, pc), pc)
  {
    hide SlotOf, Goto, WriteLock, Unlock, SetDat, BodyLenOk;
  }

  lemma FindFree(s: State, p: nat, op: Op, pc: Pc)
    requires !InDelete(pc) && !InStore(pc) && !InAppend(pc)
    ensures FreeKept(s, ExecFind(s, p, op, pc), pc)
  {
    hide SlotOf, Goto, WriteLock, ReadLock, Unlock, SpecStep, AfterFind;
  }

  lemma ExecFree(s: State, p: nat)
    requires p in s.procs
    ensures FreeKept(s, Exec(s, p), s.procs[p].pc)
  {
    hide FreeKept, ExecDelete, ExecStore, ExecAppend, ExecFind;
    var Proc(op, pc) := s.procs[p];
    if InDelete(pc) { DeleteFree(s, p, op, pc); }
    else if InStore(pc) { StoreFree(s, p, op, pc); }
    else if InAppend(pc) { AppendFree(s, p, op, pc); }
    else { FindFree(s, p, op, pc); }
  }

  /** A step of another process leaves a search as far from its end as it was. */
  lemma OthersWait(s: State, t: State, p: nat, q: nat)
    requires Inv(s) && p in s.procs && q in s.procs && p != q
    requires Effect(s, t, s.procs[p].op, s.procs[p].pc) && FreeKept(s, t, s.procs[p].pc)
    ensures Ahead(t, s.procs[q]) == Ahead(s, s.procs[q])
  {
    hide FilesOk, PcOk;
    var c := SlotOf(s.procs[p].op.key);
    assert ProcOk(s, p);
    if s.procs[q].pc.Walk? && HoldsW(s.procs[p], c) { Exclusive(s, p, q, c); }
    if s.procs[q].pc.FfWalk? && HoldsW(s.procs[p], 0) { Exclusive(s, p, q, 0); }
    hide SlotOf;
  }

  /** In every run each step of a process in a call brings the call nearer to its end: it enters
      a later stage, or goes on along a list that ends; and a step of another process leaves it
      where it is. */
  lemma CallsEnd(run: seq<State>, who: seq<nat>, n: nat, p: nat)
    requires IsRun(run, who) && n < |who| && p in run[n].procs && !run[n].procs[p].pc.Idle?
    ensures p in run[n + 1].procs
    ensures var a, b := run[n].procs[p], run[n + 1].procs[p];
            if who[n] == p then b.op == a.op && Nearer(run[n], a, run[n + 1], b)
            else b == a && Ahead(run[n + 1], b) == Ahead(run[n], a)
  {
    RunInv(run, who, n);
    var s, t, q := run[n], run[n + 1], who[n];
    assert Step(s, t, q);
    hide IsRun, Inv, Exec, Effect, FreeKept, Nearer, Enabled;
    if q in s.procs && Enabled(s, q) && t == Exec(s, q) {
      EnabledBusy(s, q);
      ExecAdvances(s, q);
      if q != p {
        ExecEffect(s, q);
        ExecFree(s, q);
        OthersWait(s, t, q, p);
      }
    }
  }
}

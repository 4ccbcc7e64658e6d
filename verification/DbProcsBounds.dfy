/** The PTR_MAX tests of _db_writeidx and _db_writeptr: the model makes the one test that can
    fail, at the write that publishes a new record; here, that no other can. */
module DbProcsBounds {
  import opened DbFormat
  import opened Lists
  import opened DbLinks
  import opened DbSpec
  import opened DbProcs
  import opened DbProcsInv
  import opened DbProcsRuns

  predicate FitsAll(l: seq<nat>) { forall j :: 0 <= j < |l| ==> l[j] <= PTR_MAX }

  predicate ListFits(s: State, i: nat)
    requires i < |s.links.lists|
  {
    FitsAll(s.links.lists[i])
  }

  /** The record that a deletion is about to make the head of the free list. */
  predicate OffFits(proc: Proc) { proc.pc.DelHead? ==> proc.pc.off <= PTR_MAX }

  /** Every record on a list, and every record on its way to the free list, has an offset
      that a pointer can hold. */
  ghost predicate Bounded(s: State) {
    && (forall i {:trigger ListFits(s, i)} :: 0 <= i < |s.links.lists| ==> ListFits(s, i))
    && (forall p {:trigger OffFits(s.procs[p])} :: p in s.procs ==> OffFits(s.procs[p]))
  }

  /** A step leaves list `i` as it was, or takes one record from it, or puts `o` before it. */
  predicate ListStep(l: seq<nat>, m: seq<nat>, o: nat) {
    m == l || m == [o] + l || exists j :: 0 <= j < |l| && m == Without(l, j)
  }

  ghost predicate ListsStep(s: State, t: State, o: nat) {
    && |t.links.lists| == |s.links.lists|
    && forall i {:trigger t.links.lists[i]} :: 0 <= i < |s.links.lists|
        ==> ListStep(s.links.lists[i], t.links.lists[i], o)
  }

  lemma WithoutFits(l: seq<nat>, j: nat)
    requires FitsAll(l) && j < |l|
    ensures FitsAll(Without(l, j))
  {
    forall k | 0 <= k < |Without(l, j)| ensures Without(l, j)[k] <= PTR_MAX {
      assert Without(l, j)[k] == l[if k < j then k else k + 1];
    }
  }

  lemma StepFits(l: seq<nat>, m: seq<nat>, o: nat)
    requires FitsAll(l) && ListStep(l, m, o) && (m == [o] + l ==> o <= PTR_MAX)
    ensures FitsAll(m)
  {
    if j :| 0 <= j < |l| && m == Without(l, j) { WithoutFits(l, j); }
  }

  /** What a step may put at the head of a list. */
  function Pushed(pc: Pc): nat { if pc.DelHead? || pc.Link? then pc.off else 0 }

  lemma SamePtrs(s: State, fld: nat, v: nat)
    ensures SetPtr(s, fld, v).links.lists == s.links.lists
  {
  }

  lemma SameStep(s: State, t: State, o: nat)
    requires t.links.lists == s.links.lists
    ensures ListsStep(s, t, o)
  {
  }

  lemma RemovedStep(s: State, t: State, i: nat, j: nat, off: nat, o: nat)
    requires t.links.lists == Removed(s, i, j, off).links.lists
    ensures ListsStep(s, t, o)
  {
  }

  lemma JoinedStep(s: State, t: State, i: nat, o: nat)
    requires t.links.lists == Joined(s, i, o).links.lists
    ensures ListsStep(s, t, o)
  {
  }

  lemma DeleteLists(s: State, p: nat, op: Op, pc: Pc)
    ensures ListsStep(s, ExecDelete(s, p, op, pc), Pushed(pc))
  {
    hide SlotOf, Unlock, WriteLock, Goto, DoDelDat, SetPtr, Removed, Joined, ListsStep;
    var t := ExecDelete(s, p, op, pc);
    if pc.DelIdx? && pc.off in s.es {
      SamePtrs(s, pc.off, pc.freeptr);
      var u := SetPtr(s, pc.off, pc.freeptr);
      RemovedStep(u, t, SlotOf(op.key), pc.j, pc.off, Pushed(pc));
      StepFrom(s, u, t, Pushed(pc));
    } else if pc.DelHead? {
      SamePtrs(s, 0, pc.off);
      var u := SetPtr(s, 0, pc.off);
      JoinedStep(u, t, 0, pc.off);
      StepFrom(s, u, t, pc.off);
    } else {
      if pc.DelFix? { SamePtrs(s, pc.fld, pc.save); }
      SameStep(s, t, Pushed(pc));
    }
  }

  lemma StepFrom(s: State, u: State, t: State, o: nat)
    requires u.links.lists == s.links.lists && ListsStep(u, t, o)
    ensures ListsStep(s, t, o)
  {
  }

  lemma StoreLists(s: State, p: nat, op: Op, pc: Pc)
    ensures ListsStep(s, ExecStore(s, p, op, pc), Pushed(pc))
  {
    hide SlotOf, Unlock, WriteLock, Goto, DoRepl, SetPtr, Removed, Joined, ListsStep;
    var t, c := ExecStore(s, p, op, pc), SlotOf(op.key);
    if pc.FfTake? {
      SamePtrs(s, pc.fld, pc.save);
      var u := SetPtr(s, pc.fld, pc.save);
      RemovedStep(u, t, 0, pc.j, pc.off, Pushed(pc));
      StepFrom(s, u, t, Pushed(pc));
    } else if pc.Link? && pc.off <= PTR_MAX {
      SamePtrs(s, Slot(c), pc.off);
      var u := SetPtr(s, Slot(c), pc.off);
      JoinedStep(u, t, c, pc.off);
      StepFrom(s, u, t, pc.off);
    } else {
      if pc.FillIdx? { SamePtrs(s, pc.off, pc.ptr); }
      SameStep(s, t, Pushed(pc));
    }
  }

  lemma AppendLists(s: State, p: nat, op: Op, pc: Pc)
    ensures ExecAppend(s, p, op, pc).links.lists == s.links.lists
  {
    hide SlotOf, Unlock, WriteLock, Goto, SetDat, BodyLenOk;
  }

  lemma FindLists(s: State, p: nat, op: Op, pc: Pc)
    ensures ExecFind(s, p, op, pc).links.lists == s.links.lists
  {
    hide SlotOf, Unlock, WriteLock, ReadLock, Goto, SpecStep, AfterFind;
  }

  lemma ExecLists(s: State, p: nat)
    requires p in s.procs
    ensures ListsStep(s, Exec(s, p), Pushed(s.procs[p].pc))
  {
    hide ExecDelete, ExecStore, ExecAppend, ExecFind, ListsStep;
    var Proc(op, pc) := s.procs[p];
    DeleteLists(s, p, op, pc);
    StoreLists(s, p, op, pc);
    AppendLists(s, p, op, pc);
    FindLists(s, p, op, pc);
    if !InDelete(pc) && !InStore(pc) { SameStep(s, Exec(s, p), Pushed(pc)); }
  }

  // -- Every step keeps the bound --------------------------------------------------------

  /** A deletion works on a record of a chain, and a record past PTR_MAX is not linked. */
  lemma PushedFits(s: State, p: nat)
    requires Bounded(s) && p in s.procs && !(s.procs[p].pc.Link? && s.procs[p].pc.off > PTR_MAX)
    ensures Pushed(s.procs[p].pc) <= PTR_MAX
  {
    assert OffFits(s.procs[p]);
  }

  /** Only `p` moves, and it gets to DelHead only from DelIdx, with the same record. */
  predicate ProcsStep(s: State, t: State, p: nat)
    requires p in s.procs
  {
    && p in t.procs && t.procs == s.procs[p := t.procs[p]]
    && (t.procs[p].pc.DelHead? ==> s.procs[p].pc.DelIdx? && t.procs[p].pc.off == s.procs[p].pc.off)
  }

  lemma DeleteProcs(s: State, p: nat)
    requires p in s.procs && InDelete(s.procs[p].pc)
    ensures ProcsStep(s, ExecDelete(s, p, s.procs[p].op, s.procs[p].pc), p)
  {
    hide SlotOf, Goto, WriteLock, ReadLock, Unlock, SetPtr, SetDat, Removed, Joined,
         DoDelDat, DoDelIdx, DoFillIdx, DoAppIdx, DoLink, DoRepl;
  }

  lemma StoreProcs(s: State, p: nat)
    requires p in s.procs && InStore(s.procs[p].pc)
    ensures ProcsStep(s, ExecStore(s, p, s.procs[p].op, s.procs[p].pc), p)
  {
    hide SlotOf, Goto, WriteLock, ReadLock, Unlock, SetPtr, SetDat, Removed, Joined,
         DoDelDat, DoDelIdx, DoFillIdx, DoAppIdx, DoLink, DoRepl;
  }

  lemma AppendProcs(s: State, p: nat)
    requires p in s.procs && InAppend(s.procs[p].pc)
    ensures ProcsStep(s, ExecAppend(s, p, s.procs[p].op, s.procs[p].pc), p)
  {
    hide SlotOf, Goto, WriteLock, ReadLock, Unlock, SetPtr, SetDat, Removed, Joined,
         DoDelDat, DoDelIdx, DoFillIdx, DoAppIdx, DoLink, DoRepl;
  }

  lemma FindProcs(s: State, p: nat)
    requires p in s.procs && !InDelete(s.procs[p].pc) && !InStore(s.procs[p].pc) && !InAppend(s.procs[p].pc)
    ensures ProcsStep(s, ExecFind(s, p, s.procs[p].op, s.procs[p].pc), p)
  {
    hide SlotOf, Goto, WriteLock, ReadLock, Unlock, SetPtr, SetDat, Removed, Joined,
         DoDelDat, DoDelIdx, DoFillIdx, DoAppIdx, DoLink, DoRepl;
  }

  lemma ExecProcs(s: State, p: nat)
    requires p in s.procs
    ensures ProcsStep(s, Exec(s, p), p)
  {
    hide ExecFind, ExecDelete, ExecStore, ExecAppend, ProcsStep;
    var pc := s.procs[p].pc;
    if InDelete(pc) { DeleteProcs(s, p); }
    else if InStore(pc) { StoreProcs(s, p); }
    else if InAppend(pc) { AppendProcs(s, p); }
    else { FindProcs(s, p); }
  }

  lemma MemberFits(s: State, i: nat, j: nat)
    requires Bounded(s) && i < |s.links.lists| && j < |s.links.lists[i]|
    ensures s.links.lists[i][j] <= PTR_MAX
  {
    assert ListFits(s, i);
  }

  lemma ExecBounded(s: State, p: nat)
    requires Inv(s) && Bounded(s) && p in s.procs
    ensures Bounded(Exec(s, p))
  {
    var t, pc := Exec(s, p), s.procs[p].pc;
    assert ProcOk(s, p);
    if pc.DelIdx? { MemberFits(s, SlotOf(s.procs[p].op.key), pc.j); }
    hide Inv, PcOk, OpOk, Exec, SlotOf;
    ExecLists(s, p);
    ExecProcs(s, p);
    hide ListStep;
    forall i | 0 <= i < |t.links.lists| ensures ListFits(t, i) {
      assert ListFits(s, i);
      if pc.Link? && pc.off > PTR_MAX { TooFar(s, p); }
          else { PushedFits(s, p); StepFits(s.links.lists[i], t.links.lists[i], Pushed(pc)); }
    }
    forall q | q in t.procs ensures OffFits(t.procs[q]) { assert q in s.procs && OffFits(s.procs[q]); }
  }

  lemma TooFar(s: State, p: nat)
    requires p in s.procs && s.procs[p].pc.Link? && s.procs[p].pc.off > PTR_MAX
    ensures Exec(s, p).links.lists == s.links.lists
  {
    hide SlotOf, Goto;
  }

  lemma {:induction false} RunBounded(run: seq<State>, who: seq<nat>, n: nat)
    requires IsRun(run, who) && n < |run|
    ensures Bounded(run[n])
  {
    hide Bounded, Inv, Exec, Init, Enabled;
    if n == 0 {
      InitBounded(run[0]);
    } else {
      RunBounded(run, who, n - 1);
      RunInv(run, who, n - 1);
      var s, t, p := run[n - 1], run[n], who[n - 1];
      assert Step(s, t, p);
      hide IsRun, Inv, Exec, Init, Bounded, Enabled;
      if p in s.procs && Enabled(s, p) && t == Exec(s, p) {
        ExecBounded(s, p);
      } else {
        BeginBounded(s, p, t.procs[p].op);
      }
    }
  }

  lemma BeginBounded(s: State, p: nat, op: Op)
    requires Bounded(s)
    ensures Bounded(Begin(s, p, op))
  {
    var t := Begin(s, p, op);
    forall i | 0 <= i < |t.links.lists| ensures ListFits(t, i) { assert ListFits(s, i); }
    forall q | q in t.procs ensures OffFits(t.procs[q]) { assert q in s.procs ==> OffFits(s.procs[q]); }
  }

  lemma InitBounded(s: State)
    requires Init(s)
    ensures Bounded(s)
  {
  }

  // -- So every pointer written fits -----------------------------------------------------

  /** The pointer that a process is about to write, where the model does not test it. */
  function NextPtr(pc: Pc): nat {
    match pc
    case DelIdx(_, _, _, _, freeptr) => freeptr
    case DelHead(off, _, _, _) => off
    case DelFix(_, _, _, save) => save
    case FfTake(_, _, _, _, save) => save
    case FillIdx(ptr, _) => ptr
    case AppIdx(ptr, _, _) => ptr
    case _ => 0
  }

  lemma AtFits(s: State, i: nat, j: nat)
    requires Bounded(s) && i < |s.links.lists|
    ensures At(s.links.lists[i], j) <= PTR_MAX
  {
    if j < |s.links.lists[i]| { MemberFits(s, i, j); }
  }

  /** In every reachable state the pointer about to be written is at most PTR_MAX, so the
      test of _db_writeptr and _db_writeidx passes wherever the model leaves it out. */
  lemma PointersFit(run: seq<State>, who: seq<nat>, n: nat, p: nat)
    requires IsRun(run, who) && n < |run| && p in run[n].procs
    ensures NextPtr(run[n].procs[p].pc) <= PTR_MAX
  {
    RunInv(run, who, n);
    RunBounded(run, who, n);
    var s := run[n];
    hide IsRun;
    var Proc(op, pc) := s.procs[p];
    assert ProcOk(s, p);
    assert |s.links.lists| == SLOTS;
    var c := SlotOf(op.key);
    AtFits(s, 0, 0);
    AtFits(s, c, 0);
    if pc.DelHead? { assert OffFits(s.procs[p]); }
    if pc.DelFix? { AtFits(s, c, pc.j); }
    if pc.FfTake? {
      FreeNotStale(s);
      LinkFacts(s.links, 0, pc.j + 1, s.stale);
      AtFits(s, 0, pc.j + 1);
    }
  }
}

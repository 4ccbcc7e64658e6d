/** Keys with a separator under any interleaving: they head their chains, and whoever gets past
    the head of a chain finds that the map has no such key there. */
module DbProcsKeys {
  import opened Ascii
  import opened DbFormat
  import opened Lists
  import opened DbLinks
  import opened DbBytes
  import opened DbSpec
  import opened DbView
  import opened DbLayout
  import opened DbHeads
  import opened DbProcs
  import opened DbProcsInv
  import opened DbProcsRuns

  /** The search has read the first record of its chain, if there is one. */
  predicate PastHead(pc: Pc) {
    && !pc.Idle? && !pc.WantChain? && !pc.ReadHead? && !(pc.Walk? && pc.j == 0)
    && !(pc.Failed? && pc.why.Unreadable?)
  }

  /** Neither the map nor the files have a key with a separator on the chain of `op`; once the
      call is done its own key may be one. */
  predicate Unblocked(s: State, op: Op, pc: Pc) {
    !Blocked(s.abs.Keys, op.key) && (pc.Done? || !Blocked(s.loc.Keys, op.key))
  }

  predicate Open(s: State, p: nat)
    requires p in s.procs
  {
    PastHead(s.procs[p].pc) ==> Unblocked(s, s.procs[p].op, s.procs[p].pc)
  }

  ghost predicate AllOpen(s: State) {
    && HeadsOk(s.links.lists, s.loc)
    && forall p {:trigger Open(s, p)} :: p in s.procs ==> Open(s, p)
  }

  // -- What a step does to lists and keys --------------------------------------------------

  predicate OtherLists(s: State, t: State, c: nat) {
    && |t.links.lists| == |s.links.lists|
    && forall i :: 1 <= i < |s.links.lists| && i != c ==> t.links.lists[i] == s.links.lists[i]
  }

  predicate SameChains(s: State, t: State) {
    && t.loc == s.loc && |t.links.lists| == |s.links.lists|
    && forall i :: 1 <= i < |s.links.lists| ==> t.links.lists[i] == s.links.lists[i]
  }

  /** The chains and the keys change at two points of a call, and only for its own key. */
  predicate Effect(s: State, t: State, op: Op, pc: Pc) {
    var c := SlotOf(op.key);
    if pc.DelIdx? then OtherLists(s, t, c) && t.loc == s.loc - {op.key}
    else if pc.Link? && pc.off <= PTR_MAX then
      && OtherLists(s, t, c) && t.loc == s.loc[op.key := pc.off]
      && c < |t.links.lists| && At(t.links.lists[c], 0) == pc.off
    else SameChains(s, t)
  }

  lemma DeleteEffect(s: State, p: nat, op: Op, pc: Pc)
    requires InDelete(pc) && (pc.DelIdx? ==> pc.off in s.es) && |s.links.lists| == SLOTS
    ensures Effect(s, ExecDelete(s, p, op, pc), op, pc)
  {
    hide SlotOf, Goto, WriteLock, Unlock, DoDelDat, DoDelIdx, SetPtr, Joined;
    if pc.DelIdx? { DropEffect(s, op.key, pc.off, pc.j, pc.freeptr); }
    else if pc.DelHead? { FreeEffect(s, pc.off); }
    else if pc.DelFix? { PtrEffect(s, pc.fld, pc.save); }
  }

  lemma DropEffect(s: State, key: CString, off: nat, j: nat, freeptr: nat)
    requires |s.links.lists| == SLOTS && off in s.es
    ensures var t := DoDelIdx(s, key, SlotOf(key), off, j, freeptr);
            OtherLists(s, t, SlotOf(key)) && t.loc == s.loc - {key}
  {
    hide SlotOf;
  }

  lemma FreeEffect(s: State, off: nat)
    ensures SameChains(s, Joined(SetPtr(s, 0, off), 0, off))
  {
  }

  lemma PtrEffect(s: State, fld: nat, v: nat)
    ensures SameChains(s, SetPtr(s, fld, v))
  {
  }

  lemma LinkEffect(s: State, key: CString, off: nat)
    requires |s.links.lists| == SLOTS
    ensures var c := SlotOf(key);
            var t := DoLink(s, key, c, off);
            && OtherLists(s, t, c) && t.loc == s.loc[key := off]
            && c < |t.links.lists| && At(t.links.lists[c], 0) == off
  {
    hide SlotOf;
  }

  lemma TakeEffect(s: State, fld: nat, save: nat, j: nat, off: nat)
    ensures SameChains(s, Removed(SetPtr(s, fld, save), 0, j, off))
  {
  }

  lemma FillEffect(s: State, key: CString, off: nat, ptr: nat)
    ensures SameChains(s, DoFillIdx(s, key, off, ptr))
  {
  }

  lemma StoreEffect(s: State, p: nat, op: Op, pc: Pc)
    requires InStore(pc) && |s.links.lists| == SLOTS
    ensures Effect(s, ExecStore(s, p, op, pc), op, pc)
  {
    hide SlotOf, Goto, WriteLock, Unlock, DoRepl, DoLink, Removed, SetPtr, DoFillIdx;
    if pc.Link? { LinkEffect(s, op.key, pc.off); }
    else if pc.FfTake? { TakeEffect(s, pc.fld, pc.save, pc.j, pc.off); }
    else if pc.FillIdx? { FillEffect(s, op.key, pc.off, pc.ptr); }
  }

  lemma AppendEffect(s: State, p: nat, op: Op, pc: Pc)
    requires InAppend(pc)
    ensures Effect(s, ExecAppend(s, p, op, pc), op, pc)
  {
    hide SlotOf, Goto, WriteLock, Unlock, SetDat, BodyLenOk;
  }

  lemma FindEffect(s: State, p: nat, op: Op, pc: Pc)
    requires !InDelete(pc) && !InStore(pc) && !InAppend(pc)
    ensures Effect(s, ExecFind(s, p, op, pc), op, pc)
  {
    hide SlotOf, Goto, WriteLock, ReadLock, Unlock, SpecStep, AfterFind;
  }

  lemma ExecEffect(s: State, p: nat)
    requires Inv(s) && p in s.procs
    ensures Effect(s, Exec(s, p), s.procs[p].op, s.procs[p].pc)
  {
    var Proc(op, pc) := s.procs[p];
    assert ProcOk(s, p);
    assert |s.links.lists| == SLOTS;
    assert pc.DelIdx? ==> pc.off in s.es;
    hide Inv, Effect, ExecDelete, ExecStore, ExecAppend, ExecFind;
    if InDelete(pc) { DeleteEffect(s, p, op, pc); }
    else if InStore(pc) { StoreEffect(s, p, op, pc); }
    else if InAppend(pc) { AppendEffect(s, p, op, pc); }
    else { FindEffect(s, p, op, pc); }
  }

  // -- The map and the files agree on a chain that is held -----------------------------------

  lemma AbsIsLoc(s: State, p: nat, k: CString)
    requires Inv(s) && p in s.procs && HoldsChain(s.procs[p]) && SlotOf(k) == SlotOf(s.procs[p].op.key)
    requires !Loose(s.procs[p].pc) || s.procs[p].op.OpFetch?
    ensures k in s.abs <==> k in s.loc
  {
    hide SlotOf;
    var c := SlotOf(k);
    assert KeyOk(s, k) && HolderOk(s, p, c);
    assert c in s.w ==> WriterOk(s, c);
    assert Agree(s, k);
    if k in s.loc { assert LocOk(s.links.home, s.es, s.loc, k) && ExtentOk(s.dat, s.es, s.loc[k]); }
  }

  predicate Readable(s: State, off: nat) { off != 0 && off in s.es ==> SEP !in s.es[off].key }

  /** The head of the chain could be read, or there is none. */
  lemma HeadRead(s: State, p: nat)
    requires Inv(s) && AllOpen(s) && p in s.procs && s.procs[p].pc.Walk? && s.procs[p].pc.j == 0
    requires Readable(s, s.procs[p].pc.off)
    ensures !Blocked(s.abs.Keys, s.procs[p].op.key) && !Blocked(s.loc.Keys, s.procs[p].op.key)
  {
    hide SlotOf;
    var Proc(op, pc) := s.procs[p];
    assert ProcOk(s, p);
    BlockedHead(s.links, s.es, s.loc, op.key, s.stale);
    var c := SlotOf(op.key);
    if |s.links.lists[c]| > 0 { MemberFacts(s.links, c, 0, s.stale); }
    if k :| k in s.abs.Keys && SEP in k && SlotOf(k) == SlotOf(op.key) {
      AbsIsLoc(s, p, k);
    }
  }

  // -- A step keeps it --------------------------------------------------------------------

  /** `t` has no key that `s` has not, except on another chain. */
  lemma ElsewhereOpen(a: set<CString>, b: set<CString>, key: CString, mine: CString)
    requires !Blocked(a, key) && b <= a + {mine} && SlotOf(mine) != SlotOf(key)
    ensures !Blocked(b, key)
  {
    hide SlotOf;
  }

  /** Only `p` moves. It gets past the head of its chain when it has read it, the map changes
      only when the call is over, and for its own key, and linking is the last thing it does. */
  predicate Moves(s: State, t: State, p: nat)
    requires p in s.procs
  {
    var Proc(op, pc) := s.procs[p];
    && p in t.procs && t.procs == s.procs[p := t.procs[p]] && t.procs[p].op == op
    && (if pc.Done? || pc.Failed? then t.procs[p].pc.Idle? else t.abs == s.abs)
    && t.abs.Keys <= s.abs.Keys + {op.key} && (!op.OpStore? ==> t.abs.Keys <= s.abs.Keys)
    && (op.OpFetch? && FetchPc(pc) ==> t.abs == s.abs)
    && (PastHead(t.procs[p].pc) ==>
          || PastHead(pc) || (pc.Walk? && pc.j == 0 && Readable(s, pc.off)))
    && (pc.Link? && pc.off <= PTR_MAX ==> t.procs[p].pc.Done?)
  }

  lemma DeleteMoves(s: State, p: nat)
    requires p in s.procs && InDelete(s.procs[p].pc)
    ensures Moves(s, ExecDelete(s, p, s.procs[p].op, s.procs[p].pc), p)
  {
    hide SlotOf, Goto, WriteLock, ReadLock, Unlock, SetPtr, SetDat, Removed, Joined, DoDelDat, DoDelIdx;
  }

  lemma StoreMoves(s: State, p: nat)
    requires p in s.procs && InStore(s.procs[p].pc)
    ensures Moves(s, ExecStore(s, p, s.procs[p].op, s.procs[p].pc), p)
  {
    hide SlotOf, Goto, WriteLock, ReadLock, Unlock, SetPtr, SetDat, Removed, Joined, DoFillIdx, DoLink, DoRepl;
  }

  lemma AppendMoves(s: State, p: nat)
    requires p in s.procs && InAppend(s.procs[p].pc)
    ensures Moves(s, ExecAppend(s, p, s.procs[p].op, s.procs[p].pc), p)
  {
    hide SlotOf, Goto, WriteLock, ReadLock, Unlock, SetDat, DoAppIdx, BodyLenOk;
  }

  lemma FindMoves(s: State, p: nat)
    requires p in s.procs && !InDelete(s.procs[p].pc) && !InStore(s.procs[p].pc) && !InAppend(s.procs[p].pc)
    requires !s.procs[p].pc.Idle?
    ensures Moves(s, ExecFind(s, p, s.procs[p].op, s.procs[p].pc), p)
  {
    hide SlotOf, Goto, WriteLock, ReadLock, Unlock, AfterFind, SpecStep;
    SpecKeys(s.abs, s.procs[p].op);
  }

  lemma SpecKeys(m: Contents, op: Op)
    ensures SpecStep(m, op).0.Keys <= m.Keys + {op.key} && (!op.OpStore? ==> SpecStep(m, op).0.Keys <= m.Keys)
    ensures op.OpFetch? ==> SpecStep(m, op).0 == m
  {
  }

  lemma ExecMoves(s: State, p: nat)
    requires p in s.procs && !s.procs[p].pc.Idle?
    ensures Moves(s, Exec(s, p), p)
  {
    hide ExecFind, ExecDelete, ExecStore, ExecAppend, Moves;
    var pc := s.procs[p].pc;
    if InDelete(pc) { DeleteMoves(s, p); }
    else if InStore(pc) { StoreMoves(s, p); }
    else if InAppend(pc) { AppendMoves(s, p); }
    else { FindMoves(s, p); }
  }

  lemma HeadsStep(s: State, t: State, p: nat)
    requires Inv(s) && AllOpen(s) && p in s.procs && Effect(s, t, s.procs[p].op, s.procs[p].pc)
    ensures HeadsOk(t.links.lists, t.loc)
  {
    var Proc(op, pc) := s.procs[p];
    assert Open(s, p);
    assert |s.links.lists| == SLOTS;
    hide SlotOf, Inv, HeadsOk, Blocked;
    if pc.DelIdx? { HeadsDropped(s.links.lists, t.links.lists, s.loc, op.key); }
    else if pc.Link? && pc.off <= PTR_MAX { HeadsAdded(s.links.lists, t.links.lists, s.loc, op.key, pc.off); }
    else { HeadsKept(s.links.lists, t.links.lists, s.loc); }
  }

  lemma OwnOpen(s: State, t: State, p: nat)
    requires Inv(s) && AllOpen(s) && p in s.procs && Effect(s, t, s.procs[p].op, s.procs[p].pc) && Moves(s, t, p)
    ensures Open(t, p)
  {
    var Proc(op, pc) := s.procs[p];
    assert Open(s, p);
    hide SlotOf, Inv, HeadsOk, Blocked;
    if PastHead(t.procs[p].pc) {
      if !PastHead(pc) { HeadRead(s, p); }
      if pc.DelIdx? { BlockedLess(s.loc.Keys, t.loc.Keys, op.key); }
    }
  }

  lemma OtherOpen(s: State, t: State, p: nat, q: nat)
    requires Inv(s) && AllOpen(s) && p in s.procs && Effect(s, t, s.procs[p].op, s.procs[p].pc) && Moves(s, t, p)
    requires q in s.procs && q != p
    ensures q in t.procs && Open(t, q)
  {
    var Proc(op, pc) := s.procs[p];
    assert Open(s, q) && ProcOk(s, p);
    hide SlotOf, HeadsOk, Blocked;
    if PastHead(s.procs[q].pc) && HoldsW(s.procs[p], SlotOf(op.key)) {
      Exclusive(s, p, q, SlotOf(op.key));
      ElsewhereOpen(s.abs.Keys, t.abs.Keys, s.procs[q].op.key, op.key);
      if !s.procs[q].pc.Done? { ElsewhereOpen(s.loc.Keys, t.loc.Keys, s.procs[q].op.key, op.key); }
    }
  }

  lemma ExecOpen(s: State, p: nat)
    requires Inv(s) && AllOpen(s) && p in s.procs && !s.procs[p].pc.Idle?
    ensures AllOpen(Exec(s, p))
  {
    hide Inv, Exec, Effect, Moves, HeadsOk, Open;
    var t := Exec(s, p);
    ExecEffect(s, p);
    ExecMoves(s, p);
    HeadsStep(s, t, p);
    OwnOpen(s, t, p);
    forall q | q in t.procs ensures Open(t, q) {
      if q != p {
        Known(s, t, p, q);
        OtherOpen(s, t, p, q);
      }
    }
  }

  lemma Known(s: State, t: State, p: nat, q: nat)
    requires p in s.procs && Moves(s, t, p) && q in t.procs && q != p
    ensures q in s.procs
  {
  }

  lemma BeginOpen(s: State, p: nat, op: Op)
    requires AllOpen(s)
    ensures AllOpen(Begin(s, p, op))
  {
    hide Blocked;
    var t := Begin(s, p, op);
    forall q | q in t.procs ensures Open(t, q) { assert q in s.procs ==> Open(s, q); }
  }

  lemma InitOpen(s: State)
    requires Init(s)
    ensures AllOpen(s)
  {
  }

  lemma {:induction false} RunOpen(run: seq<State>, who: seq<nat>, n: nat)
    requires IsRun(run, who) && n < |run|
    ensures AllOpen(run[n])
  {
    hide AllOpen, Inv, Exec, Init, Enabled;
    if n == 0 {
      InitOpen(run[0]);
    } else {
      RunOpen(run, who, n - 1);
      RunInv(run, who, n - 1);
      var s, t, p := run[n - 1], run[n], who[n - 1];
      assert Step(s, t, p);
      if p in s.procs && Enabled(s, p) && t == Exec(s, p) {
        EnabledBusy(s, p);
        ExecOpen(s, p);
      } else {
        BeginOpen(s, p, t.procs[p].op);
      }
    }
  }

  lemma EnabledBusy(s: State, p: nat)
    requires p in s.procs && Enabled(s, p)
    ensures !s.procs[p].pc.Idle?
  {
  }
}

/** Every step of mutex2.c keeps the invariant, program point by program point. */
module Mutex2Keeps {
  import opened Foo
  import opened Mutex2
  import opened Mutex2Inv
  import opened Mutex2Steps

  ghost predicate Ready(s: State, t: nat) { Inv(s) && t in s.threads && Enabled(s, t) }

  lemma SameLinked(s: State, s': State)
    requires SameCore(s, s')
    ensures forall o :: Linked(s', o) == Linked(s, o)
    ensures forall id :: ChainOf(s', id) == ChainOf(s, id)
  {
  }

  // -- foo_alloc -------------------------------------------------------------------------

  lemma StepMalloc(s: State, t: nat, o: nat)
    requires Inv(s) && t in s.threads && s.threads[t].pc.AMalloc? && s.threads[t].op.OpAlloc? && o != 0 && o !in s.objs
    ensures Inv(DoMalloc(s, t, o))
  {
    var s' := DoMalloc(s, t, o);
    LocksKept(s, s', t);
    NotOnChain(s, o, s.threads[t].op.id);
    forall u | u in s.threads && u != t ensures !HasF(s.threads[u], o) { NotLocked(s, t, u, o); }
    hide TableOk, RefsOk, LocksOk, Inv, Owned, PairOk;
    assert s'.objs - {o} == s.objs - {o};
    PrivateStep(s, s', t, o);
  }

  lemma NotOnChain(s: State, o: nat, id: int)
    requires TableOk(s) && !Linked(s, o) && (o in s.objs ==> s.objs[o].id == id)
    ensures o !in ChainOf(s, id)
  {
    var h := HashId(id);
    assert ChainOk(s, h);
    if j :| 0 <= j < |s.chains[h]| && s.chains[h][j] == o { assert NodeOk(s, h, j); }
  }

  /** No other thread holds the f_lock of an object that is private to `t`, or not there. */
  lemma NotLocked(s: State, t: nat, u: nat, o: nat)
    requires Inv(s) && t in s.threads && u in s.threads && u != t && (o in s.objs ==> PrivOf(s, t, o))
    ensures !HasF(s.threads[u], o)
  {
    hide TableOk, RefsOk, LocksOk, Linked, Priv, Holds, PcOk;
    assert ThreadOk(s, u) && ThreadOk(s, t) && PairOk(s, t, u);
    if HasF(s.threads[u], o) {
      LockedLinked(s, u, o);
      if PrivOf(s, t, o) { PrivLoner(s, t, o); }
      if PrivOf(s, u, o) { PrivLoner(s, u, o); }
      if Linked(s, o) { LinkedIn(s, o); }
    }
  }

  lemma LinkedIn(s: State, o: nat)
    requires Linked(s, o)
    ensures o in s.objs
  {
  }

  lemma StepALockH(s: State, t: nat)
    requires Ready(s, t) && s.threads[t].pc.ALockH?
    ensures Inv(Exec(s, t))
  {
    var s' := Exec(s, t);
    assert ThreadOk(s, t);
    hide TableOk, RefsOk, LocksOk, Inv, Owned, PairOk;
    LocksKept(s, s', t);
    LocalStep(s, s', t);
  }

  lemma StepASetNext(s: State, t: nat)
    requires Ready(s, t) && s.threads[t].pc.ASetNext?
    ensures Inv(Exec(s, t))
  {
    var s', o := Exec(s, t), s.threads[t].pc.o;
    assert ThreadOk(s, t);
    LocksKept(s, s', t);
    NotOnChain(s, o, s.objs[o].id);
    forall u | u in s.threads && u != t ensures !HasF(s.threads[u], o) { NotLocked(s, t, u, o); }
    hide TableOk, RefsOk, LocksOk, Inv, Owned, PairOk;
    assert s'.objs - {o} == s.objs - {o};
    PrivateStep(s, s', t, o);
  }

  lemma StepALink(s: State, t: nat)
    requires Ready(s, t) && s.threads[t].pc.ALink?
    ensures Inv(Exec(s, t))
  {
    assert ThreadOk(s, t);
    var s', o := Exec(s, t), s.threads[t].pc.o;
    var h := HashId(s.threads[t].op.id);
    assert ChainOk(s, h);
    LocksKept(s, s', t);
    PushTable(s, s', h, o);
    forall u | u in s.threads && u != t ensures !HasF(s.threads[u], o) { NotLocked(s, t, u, o); }
    hide TableOk, RefsOk, LocksOk, Inv, Owned, PairOk;
    RefFresh(s);
    RefsJoin(s, s', t, h, o);
    LinkStep(s, s', t, h, o);
  }

  lemma StepALockF(s: State, t: nat)
    requires Ready(s, t) && s.threads[t].pc.ALockF?
    ensures Inv(Exec(s, t))
  {
    var s' := Exec(s, t);
    assert ThreadOk(s, t);
    hide TableOk, RefsOk, LocksOk, Inv, Owned, PairOk;
    LocksKept(s, s', t);
    LocalStep(s, s', t);
  }

  lemma StepAUnlock(s: State, t: nat)
    requires Ready(s, t) && (s.threads[t].pc.AUnlockH? || s.threads[t].pc.AUnlockF?)
    ensures Inv(Exec(s, t))
  {
    var s' := Exec(s, t);
    assert ThreadOk(s, t);
    hide TableOk, RefsOk, LocksOk, Inv, Owned, PairOk;
    LocksKept(s, s', t);
    LocalStep(s, s', t);
  }

  // -- foo_hold --------------------------------------------------------------------------

  lemma StepHLock(s: State, t: nat)
    requires Ready(s, t) && s.threads[t].pc.HLock?
    ensures Inv(Exec(s, t))
  {
    var s' := Exec(s, t);
    assert ThreadOk(s, t);
    hide TableOk, RefsOk, LocksOk, Inv, Owned, PairOk;
    LocksKept(s, s', t);
    LocalStep(s, s', t);
  }

  lemma StepHUnlock(s: State, t: nat)
    requires Ready(s, t) && s.threads[t].pc.HUnlock?
    ensures Inv(Exec(s, t))
  {
    var s' := Exec(s, t);
    assert ThreadOk(s, t);
    hide TableOk, RefsOk, LocksOk, Inv, Owned, PairOk;
    LocksKept(s, s', t);
    LocalStep(s, s', t);
  }

  lemma StepHInc(s: State, t: nat)
    requires Ready(s, t) && s.threads[t].pc.HInc?
    ensures Inv(Exec(s, t))
  {
    assert ThreadOk(s, t);
    var s', o := Exec(s, t), s.threads[t].op.o;
    assert RefOk(s, s.threads[t].op.k);
    RefFresh(s);
    CountedTable(s, s', o);
    hide TableOk, RefsOk, LocksOk, Inv, Owned, PairOk, Linked;
    LocksKept(s, s', t);
    RefUp(s, s', t, o);
    CountStep(s, s', t, o);
  }

  lemma RefFresh(s: State)
    requires RefsOk(s)
    ensures s.nextKey !in s.refs
  {
    assert s.nextKey in s.refs ==> RefOk(s, s.nextKey);
  }

  // -- foo_find --------------------------------------------------------------------------

  lemma StepFLockH(s: State, t: nat)
    requires Ready(s, t) && s.threads[t].pc.FLockH?
    ensures Inv(Exec(s, t))
  {
    var s' := Exec(s, t);
    assert ThreadOk(s, t);
    hide TableOk, RefsOk, LocksOk, Inv, Owned, PairOk;
    LocksKept(s, s', t);
    LocalStep(s, s', t);
  }

  lemma StepFHead(s: State, t: nat)
    requires Ready(s, t) && s.threads[t].pc.FHead?
    ensures Inv(Exec(s, t))
  {
    var s' := Exec(s, t);
    assert ThreadOk(s, t) && ChainOk(s, HashId(s.threads[t].op.id));
    hide TableOk, RefsOk, LocksOk, Inv, Owned, PairOk;
    LocksKept(s, s', t);
    LocalStep(s, s', t);
  }

  lemma FindOn(s: State, t: nat)
    requires Ready(s, t) && s.threads[t].op.OpFind? && s.threads[t].pc.FWalk?
    ensures ThreadOk(Exec(s, t), t)
  {
    assert ThreadOk(s, t);
    var Thread(op, pc) := s.threads[t];
    var h := HashId(op.id);
    assert ChainOk(s, h);
    assert pc.j < |s.chains[h]| ==> NodeOk(s, h, pc.j);
    hide TableOk, RefsOk, LocksOk, Inv, Owned, PairOk;
  }

  lemma StepFWalk(s: State, t: nat)
    requires Ready(s, t) && s.threads[t].pc.FWalk?
    ensures Inv(Exec(s, t))
  {
    var s' := Exec(s, t);
    assert ThreadOk(s, t);
    hide TableOk, RefsOk, LocksOk, Inv, Owned, PairOk, HashId;
    FindOn(s, t);
    LocksKept(s, s', t);
    LocalStep(s, s', t);
  }

  lemma StepFLockF(s: State, t: nat)
    requires Ready(s, t) && s.threads[t].pc.FLockF?
    ensures Inv(Exec(s, t))
  {
    var s' := Exec(s, t);
    assert ThreadOk(s, t);
    hide TableOk, RefsOk, LocksOk, Inv, Owned, PairOk;
    LocksKept(s, s', t);
    LocalStep(s, s', t);
  }

  lemma StepFInc(s: State, t: nat)
    requires Ready(s, t) && s.threads[t].pc.FInc?
    ensures Inv(Exec(s, t))
  {
    var s', o := Exec(s, t), s.threads[t].pc.fp;
    assert ThreadOk(s, t);
    RefFresh(s);
    CountedTable(s, s', o);
    hide TableOk, RefsOk, LocksOk, Inv, Owned, PairOk, Linked;
    LocksKept(s, s', t);
    RefUp(s, s', t, o);
    CountStep(s, s', t, o);
  }

  lemma StepFUnlock(s: State, t: nat)
    requires Ready(s, t) && (s.threads[t].pc.FUnlockF? || s.threads[t].pc.FUnlockH?)
    ensures Inv(Exec(s, t))
  {
    var s' := Exec(s, t);
    assert ThreadOk(s, t);
    hide TableOk, RefsOk, LocksOk, Inv, Owned, PairOk;
    LocksKept(s, s', t);
    LocalStep(s, s', t);
  }

  // -- foo_rele --------------------------------------------------------------------------

  lemma StepRLock1(s: State, t: nat)
    requires Ready(s, t) && s.threads[t].pc.RLock1?
    ensures Inv(Exec(s, t))
  {
    var s' := Exec(s, t);
    assert ThreadOk(s, t);
    hide TableOk, RefsOk, LocksOk, Inv, Owned, PairOk, Linked;
    LocksKept(s, s', t);
    LocalStep(s, s', t);
  }

  lemma StepRCheck1(s: State, t: nat)
    requires Ready(s, t) && s.threads[t].pc.RCheck1?
    ensures Inv(Exec(s, t))
  {
    var s' := Exec(s, t);
    assert ThreadOk(s, t);
    hide TableOk, RefsOk, LocksOk, Inv, Owned, PairOk, Linked;
    LocksKept(s, s', t);
    LocalStep(s, s', t);
  }

  lemma StepRDec1(s: State, t: nat)
    requires Ready(s, t) && s.threads[t].pc.RDec1?
    ensures Inv(Exec(s, t))
  {
    var s', op := Exec(s, t), s.threads[t].op;
    assert ThreadOk(s, t) && RefOk(s, op.k);
    LocksKept(s, s', t);
    Decrement(s, s', t);
  }

  lemma StepRDec2(s: State, t: nat)
    requires Ready(s, t) && s.threads[t].pc.RDec2?
    ensures Inv(Exec(s, t))
  {
    var s', op := Exec(s, t), s.threads[t].op;
    assert ThreadOk(s, t) && RefOk(s, op.k);
    LocksKept(s, s', t);
    Decrement(s, s', t);
  }

  lemma Decrement(s: State, s': State, t: nat)
    requires Inv(s) && Moved(s, s', t) && LocksOk(s')
    requires s.threads[t].op.OpRele? && HasRef(s, t, s.threads[t].op) && HasF(s.threads[t], s.threads[t].op.o)
    requires Counted(s, s', s.threads[t].op.o)
        && s'.objs[s.threads[t].op.o].count == s.objs[s.threads[t].op.o].count - 1
    requires s'.threads[t].op == s.threads[t].op && (s'.threads[t].pc.RUnlockF1? || s'.threads[t].pc.RUnlockF2?)
    requires Priv(s'.threads[t].op, s'.threads[t].pc) == Priv(s.threads[t].op, s.threads[t].pc)
    requires s'.refs == s.refs - {s.threads[t].op.k} && s'.nextKey == s.nextKey
    ensures Inv(s')
  {
    var op := s.threads[t].op;
    assert RefOk(s, op.k);
    CountedTable(s, s', op.o);
    hide TableOk, RefsOk, LocksOk, Inv, Owned, PairOk, Linked, Holds, Priv;
    RefDown(s, s', op.k, op.o);
    CountStep(s, s', t, op.o);
  }

  lemma StepRUnlockF1(s: State, t: nat)
    requires Ready(s, t) && s.threads[t].pc.RUnlockF1?
    ensures Inv(Exec(s, t))
  {
    var s' := Exec(s, t);
    assert ThreadOk(s, t);
    hide TableOk, RefsOk, LocksOk, Inv, Owned, PairOk, Linked;
    LocksKept(s, s', t);
    LocalStep(s, s', t);
  }

  lemma StepRUnlock1(s: State, t: nat)
    requires Ready(s, t) && s.threads[t].pc.RUnlock1?
    ensures Inv(Exec(s, t))
  {
    var s' := Exec(s, t);
    assert ThreadOk(s, t);
    hide TableOk, RefsOk, LocksOk, Inv, Owned, PairOk, Linked;
    LocksKept(s, s', t);
    LocalStep(s, s', t);
  }

  lemma StepRLockH(s: State, t: nat)
    requires Ready(s, t) && s.threads[t].pc.RLockH?
    ensures Inv(Exec(s, t))
  {
    var s' := Exec(s, t);
    assert ThreadOk(s, t);
    hide TableOk, RefsOk, LocksOk, Inv, Owned, PairOk, Linked;
    LocksKept(s, s', t);
    LocalStep(s, s', t);
  }

  lemma StepRLock2(s: State, t: nat)
    requires Ready(s, t) && s.threads[t].pc.RLock2?
    ensures Inv(Exec(s, t))
  {
    var s' := Exec(s, t);
    assert ThreadOk(s, t);
    hide TableOk, RefsOk, LocksOk, Inv, Owned, PairOk, Linked;
    LocksKept(s, s', t);
    LocalStep(s, s', t);
  }

  lemma StepRCheck2(s: State, t: nat)
    requires Ready(s, t) && s.threads[t].pc.RCheck2?
    ensures Inv(Exec(s, t))
  {
    var s' := Exec(s, t);
    assert ThreadOk(s, t);
    hide TableOk, RefsOk, LocksOk, Inv, Owned, PairOk, Linked;
    LocksKept(s, s', t);
    LocalStep(s, s', t);
  }

  lemma StepRUnlockF2(s: State, t: nat)
    requires Ready(s, t) && s.threads[t].pc.RUnlockF2?
    ensures Inv(Exec(s, t))
  {
    var s' := Exec(s, t);
    assert ThreadOk(s, t);
    hide TableOk, RefsOk, LocksOk, Inv, Owned, PairOk, Linked;
    LocksKept(s, s', t);
    LocalStep(s, s', t);
  }

  lemma StepRUnlockH2(s: State, t: nat)
    requires Ready(s, t) && s.threads[t].pc.RUnlockH2?
    ensures Inv(Exec(s, t))
  {
    var s' := Exec(s, t);
    assert ThreadOk(s, t);
    hide TableOk, RefsOk, LocksOk, Inv, Owned, PairOk, Linked;
    LocksKept(s, s', t);
    LocalStep(s, s', t);
  }

  /** The object about to be unlinked is on its chain. */
  lemma ToUnlink(s: State, t: nat)
    requires Inv(s) && t in s.threads && s.threads[t].op.OpRele? && HasRef(s, t, s.threads[t].op)
    ensures var o := s.threads[t].op.o;
            && o in s.objs && HashId(s.objs[o].id) < |s.chains| && HashId(s.objs[o].id) < |s.fh|
            && ChainOk(s, HashId(s.objs[o].id)) && Linked(s, o)
            && IndexOf(s.chains[HashId(s.objs[o].id)], o) < |s.chains[HashId(s.objs[o].id)]|
  {
    assert RefOk(s, s.threads[t].op.k);
    assert ChainOk(s, HashId(s.objs[s.threads[t].op.o].id));
  }

  lemma FirstOn(s: State, t: nat)
    requires Ready(s, t) && s.threads[t].op.OpRele? && s.threads[t].pc.RFirst?
    ensures ThreadOk(Exec(s, t), t)
  {
    assert ThreadOk(s, t);
    ToUnlink(s, t);
    hide TableOk, RefsOk, LocksOk, Inv, Owned, PairOk, Linked;
  }

  lemma StepRFirst(s: State, t: nat)
    requires Ready(s, t) && s.threads[t].pc.RFirst?
    ensures Inv(Exec(s, t))
  {
    var s' := Exec(s, t);
    assert ThreadOk(s, t);
    hide TableOk, RefsOk, LocksOk, Inv, Owned, PairOk, Linked, IndexOf, HashId;
    FirstOn(s, t);
    LocksKept(s, s', t);
    LocalStep(s, s', t);
  }

  lemma WalkOn(s: State, t: nat)
    requires Ready(s, t) && s.threads[t].op.OpRele? && s.threads[t].pc.RWalk?
    ensures ThreadOk(Exec(s, t), t)
  {
    var s', op, pc := Exec(s, t), s.threads[t].op, s.threads[t].pc;
    assert ThreadOk(s, t);
    ToUnlink(s, t);
    var h := HashId(s.objs[op.o].id);
    assert NodeOk(s, h, pc.j);
    IndexNext(s.chains[h], op.o, pc.j);
    hide TableOk, RefsOk, LocksOk, Inv, Owned, PairOk, Linked, IndexOf;
  }

  lemma StepRWalk(s: State, t: nat)
    requires Ready(s, t) && s.threads[t].pc.RWalk?
    ensures Inv(Exec(s, t))
  {
    var s' := Exec(s, t);
    assert ThreadOk(s, t);
    hide TableOk, RefsOk, LocksOk, Inv, Owned, PairOk, Linked, IndexOf, HashId;
    WalkOn(s, t);
    LocksKept(s, s', t);
    LocalStep(s, s', t);
  }

  lemma IndexNext(c: seq<nat>, o: nat, j: nat)
    requires j < IndexOf(c, o) < |c|
    ensures c[j + 1] == o || j + 1 < IndexOf(c, o)
  {
  }

  lemma StepRSetHead(s: State, t: nat)
    requires Ready(s, t) && s.threads[t].pc.RSetHead?
    ensures Inv(Exec(s, t))
  {
    var s', op, pc := Exec(s, t), s.threads[t].op, s.threads[t].pc;
    assert ThreadOk(s, t);
    ToUnlink(s, t);
    var h := HashId(s.objs[op.o].id);
    LocksKept(s, s', t);
    CutOut(s, s', t, h, 0);
  }

  lemma StepRSetNext(s: State, t: nat)
    requires Ready(s, t) && s.threads[t].pc.RSetNext?
    ensures Inv(Exec(s, t))
  {
    var s', op, pc := Exec(s, t), s.threads[t].op, s.threads[t].pc;
    assert ThreadOk(s, t);
    ToUnlink(s, t);
    var h := HashId(s.objs[op.o].id);
    assert NodeOk(s, h, pc.j);
    LocksKept(s, s', t);
    CutOut(s, s', t, h, pc.j + 1);
  }

  lemma CutOut(s: State, s': State, t: nat, h: nat, j: nat)
    requires Inv(s) && Moved(s, s', t) && LocksOk(s') && Rechained(s, s', h) && j < |s.chains[h]| && Cut(s, s', h, j)
    requires s.threads[t].op.OpRele? && s.chains[h][j] == s.threads[t].op.o
        && (s.threads[t].pc.RSetHead? || s.threads[t].pc.RSetNext?)
    requires s'.threads[t] == Thread(s.threads[t].op, RUnlockH3)
    requires s'.refs == s.refs - {s.threads[t].op.k} && s'.nextKey == s.nextKey
    ensures Inv(s')
  {
    var op := s.threads[t].op;
    var o := op.o;
    assert ThreadOk(s, t);
    CutFacts(s, s', t);
    hide LocksOk, Inv, Owned, PairOk, PrivOf, HasF, HoldsHash, PcOk;
    assert RefOk(s, op.k);
    CutTable(s, s', h, j);
    CutRelinks(s, s', h, j);
    CutThread(s, s', t, h);
    hide TableOk, Linked, Cut, Rechained, RefsOk, Relinked;
    RefsLeave(s, s', h, op.k, o);
    LinkStep(s, s', t, h, o);
  }

  lemma CutFacts(s: State, s': State, t: nat)
    requires Moved(s, s', t) && ThreadOk(s, t)
    requires s.threads[t].op.OpRele? && (s.threads[t].pc.RSetHead? || s.threads[t].pc.RSetNext?)
    requires s'.threads[t] == Thread(s.threads[t].op, RUnlockH3)
    ensures HasF(s.threads[t], s.threads[t].op.o) && PrivOf(s', t, s.threads[t].op.o) && HoldsHash(s.threads[t].pc)
    ensures Last(s, t, s.threads[t].op)
    ensures forall p :: p != s.threads[t].op.o ==> !PrivOf(s, t, p) && !PrivOf(s', t, p)
  {
  }

  lemma CutThread(s: State, s': State, t: nat, h: nat)
    requires Moved(s, s', t) && s'.threads[t] == Thread(s.threads[t].op, RUnlockH3) && s.threads[t].op.OpRele?
    requires Rechained(s, s', h) && s.threads[t].op.o in s.objs && !Linked(s', s.threads[t].op.o)
    ensures ThreadOk(s', t)
  {
    hide Linked;
  }

  lemma CutRelinks(s: State, s': State, h: nat, j: nat)
    requires TableOk(s) && Rechained(s, s', h) && j < |s.chains[h]| && Cut(s, s', h, j)
    ensures Relinked(s, s', s.chains[h][j]) && !Linked(s', s.chains[h][j])
  {
    forall p ensures Linked(s', p) <==> Linked(s, p) && p != s.chains[h][j] { CutLinked(s, s', h, j, p); }
    assert ChainOk(s, h);
    assert j > 0 ==> NodeOk(s, h, j - 1);
  }

  lemma StepRUnlockH3(s: State, t: nat)
    requires Ready(s, t) && s.threads[t].pc.RUnlockH3?
    ensures Inv(Exec(s, t))
  {
    var s' := Exec(s, t);
    assert ThreadOk(s, t);
    hide TableOk, RefsOk, LocksOk, Inv, Owned, PairOk;
    LocksKept(s, s', t);
    LocalStep(s, s', t);
  }

  lemma StepRUnlockF3(s: State, t: nat)
    requires Ready(s, t) && s.threads[t].pc.RUnlockF3?
    ensures Inv(Exec(s, t))
  {
    var s' := Exec(s, t);
    assert ThreadOk(s, t);
    hide TableOk, RefsOk, LocksOk, Inv, Owned, PairOk;
    LocksKept(s, s', t);
    LocalStep(s, s', t);
  }

  lemma StepRFree(s: State, t: nat)
    requires Ready(s, t) && s.threads[t].pc.RFree?
    ensures Inv(Exec(s, t))
  {
    assert ThreadOk(s, t);
    var s', o := Exec(s, t), s.threads[t].op.o;
    LocksKept(s, s', t);
    NotOnChain(s, o, s.objs[o].id);
    forall u | u in s.threads && u != t ensures !HasF(s.threads[u], o) { NotLocked(s, t, u, o); }
    hide TableOk, RefsOk, LocksOk, Inv, Owned, PairOk;
    assert s'.objs - {o} == s.objs - {o};
    PrivateStep(s, s', t, o);
  }
}

/** Whole runs of mutex2.c: safety of every reachable state, and every run is a run of the
    atomic operations of mutex3.c. */
module Mutex2Runs {
  import opened Lists
  import opened Foo
  import opened Mutex2
  import opened Mutex2Inv
  import opened Mutex2Steps
  import opened Mutex2Keeps

  // -- Every step keeps the invariant ----------------------------------------------------

  lemma AllocKeeps(s: State, t: nat)
    requires Ready(s, t) && s.threads[t].op.OpAlloc?
    ensures Inv(Exec(s, t))
  {
    assert ThreadOk(s, t);
    hide Inv, Exec;
    match s.threads[t].pc
    case ALockH(_) => StepALockH(s, t);
    case ASetNext(_) => StepASetNext(s, t);
    case ALink(_) => StepALink(s, t);
    case ALockF(_) => StepALockF(s, t);
    case AUnlockH(_) => StepAUnlock(s, t);
    case AUnlockF(_) => StepAUnlock(s, t);
  }

  lemma HoldKeeps(s: State, t: nat)
    requires Ready(s, t) && s.threads[t].op.OpHold?
    ensures Inv(Exec(s, t))
  {
    assert ThreadOk(s, t);
    hide Inv, Exec;
    match s.threads[t].pc
    case HLock => StepHLock(s, t);
    case HInc => StepHInc(s, t);
    case HUnlock => StepHUnlock(s, t);
  }

  lemma FindKeeps(s: State, t: nat)
    requires Ready(s, t) && s.threads[t].op.OpFind?
    ensures Inv(Exec(s, t))
  {
    assert ThreadOk(s, t);
    hide Inv, Exec;
    match s.threads[t].pc
    case FLockH => StepFLockH(s, t);
    case FHead => StepFHead(s, t);
    case FWalk(_, _) => StepFWalk(s, t);
    case FLockF(_, _) => StepFLockF(s, t);
    case FInc(_, _) => StepFInc(s, t);
    case FUnlockF(_) => StepFUnlock(s, t);
    case FUnlockH(_) => StepFUnlock(s, t);
  }

  lemma ReleKeeps(s: State, t: nat)
    requires Ready(s, t) && s.threads[t].op.OpRele?
    ensures Inv(Exec(s, t))
  {
    assert ThreadOk(s, t);
    hide Inv, Exec, IndexOf, Last, HasRef, Linked, Loner;
    match s.threads[t].pc
    case RLock1 => StepRLock1(s, t);
    case RCheck1 => StepRCheck1(s, t);
    case RDec1 => StepRDec1(s, t);
    case RUnlockF1 => StepRUnlockF1(s, t);
    case RUnlock1 => StepRUnlock1(s, t);
    case RLockH => StepRLockH(s, t);
    case RLock2 => StepRLock2(s, t);
    case RCheck2 => StepRCheck2(s, t);
    case RDec2 => StepRDec2(s, t);
    case RUnlockF2 => StepRUnlockF2(s, t);
    case RUnlockH2 => StepRUnlockH2(s, t);
    case RFirst => StepRFirst(s, t);
    case RSetHead => StepRSetHead(s, t);
    case RWalk(_, _) => StepRWalk(s, t);
    case RSetNext(_, _) => StepRSetNext(s, t);
    case RUnlockH3 => StepRUnlockH3(s, t);
    case RUnlockF3 => StepRUnlockF3(s, t);
    case RFree => StepRFree(s, t);
  }

  lemma ExecKeeps(s: State, t: nat)
    requires Ready(s, t)
    ensures Inv(Exec(s, t))
  {
    hide Inv, Exec, Enabled;
    match s.threads[t].op
    case OpAlloc(_) => AllocKeeps(s, t);
    case OpHold(_, _) => HoldKeeps(s, t);
    case OpFind(_) => FindKeeps(s, t);
    case OpRele(_, _) => ReleKeeps(s, t);
  }

  lemma NoMemoryKeeps(s: State, t: nat)
    requires Inv(s) && t in s.threads && s.threads[t].pc.AMalloc?
    ensures Inv(Goto(s, t, s.threads[t].op, Idle))
  {
    var s' := Goto(s, t, s.threads[t].op, Idle);
    assert ThreadOk(s, t);
    hide TableOk, RefsOk, LocksOk, Inv, Owned, PairOk;
    LocksKept(s, s', t);
    LocalStep(s, s', t);
  }

  /** A thread that is about to make its first call. */
  lemma NewThread(s: State, t: nat, op: Op)
    requires Inv(s) && t !in s.threads
    ensures Inv(Goto(s, t, op, Idle))
  {
    var s' := Goto(s, t, op, Idle);
    SameTable(s, s');
    forall o | o in s'.fl ensures FlOk(s', o) { assert FlOk(s, o); }
    forall u | u in s'.threads ensures HoldOk(s', u) { assert u != t ==> HoldOk(s, u); }
    hide TableOk, RefsOk, LocksOk;
    forall u | u in s'.threads ensures ThreadOk(s', u) {
      if u != t {
        assert ThreadOk(s, u);
        SameLinked(s, s');
        hide Linked;
        RelyOk(s, s', u);
      }
    }
    forall a, b: nat | a in s'.threads && b != a ensures PairOk(s', a, b) { assert a in s.threads ==> PairOk(s, a, b); }
    forall o | o in s'.objs ensures Owned(s', o) {
      assert Owned(s, o);
      if u :| PrivOf(s, u, o) { assert PrivOf(s', u, o); }
    }
  }

  lemma CallKeeps(s: State, t: nat, op: Op)
    requires Inv(s) && t in s.threads && s.threads[t].pc.Idle? && Allowed(s, t, op)
    ensures Inv(Goto(s, t, op, Start(op)))
  {
    var s' := Goto(s, t, op, Start(op));
    LocksKept(s, s', t);
    hide TableOk, RefsOk, LocksOk, Inv, Owned, PairOk;
    LocalStep(s, s', t);
  }

  /** A thread between calls gives a reference away. */
  lemma GiveKeeps(s: State, t: nat, k: nat, to: nat)
    requires Inv(s) && (t in s.threads ==> s.threads[t].pc.Idle?) && k in s.refs && s.refs[k].owner == t
    ensures Inv(s.(refs := s.refs[k := Ref(to, s.refs[k].obj)]))
  {
    var s' := s.(refs := s.refs[k := Ref(to, s.refs[k].obj)]);
    GiveRefs(s, s', k);
    forall u | u in s'.threads ensures ThreadOk(s', u) {
      assert ThreadOk(s, u);
      if u != t {
        hide Linked, PcOk, TableOk, RefsOk;
        SameGive(s, s');
        RelyOk(s, s', u);
      }
    }
    forall a, b: nat | a in s'.threads && b != a ensures PairOk(s', a, b) { assert PairOk(s, a, b); }
    forall o | o in s'.objs ensures Owned(s', o) {
      assert Owned(s, o);
      if u :| PrivOf(s, u, o) { assert PrivOf(s', u, o); }
    }
    GiveLocks(s, s');
  }

  lemma GiveLocks(s: State, s': State)
    requires LocksOk(s) && s' == s.(refs := s'.refs)
    ensures LocksOk(s')
  {
    forall o | o in s'.fl ensures FlOk(s', o) { assert FlOk(s, o); }
    forall u | u in s'.threads ensures HoldOk(s', u) { assert HoldOk(s, u); }
  }

  lemma SameGive(s: State, s': State)
    requires s' == s.(refs := s'.refs)
    ensures forall o :: Linked(s', o) == Linked(s, o)
  {
  }

  lemma GiveRefs(s: State, s': State, k: nat)
    requires TableOk(s) && RefsOk(s) && k in s.refs && s' == s.(refs := s'.refs)
    requires s'.refs.Keys == s.refs.Keys && forall l :: l in s.refs ==> s'.refs[l].obj == s.refs[l].obj
    ensures TableOk(s') && RefsOk(s')
  {
    forall h | 0 <= h < NHASH ensures ChainOk(s', h) {
      assert ChainOk(s, h);
      forall j | 0 <= j < |s.chains[h]| ensures NodeOk(s', h, j) { assert NodeOk(s, h, j); }
    }
    forall l | l in s'.refs ensures RefOk(s', l) { assert RefOk(s, l); }
    forall o | o in s'.objs ensures CountOk(s', o) {
      assert CountOk(s, o);
      assert RefsTo(s'.refs, o) == RefsTo(s.refs, o);
    }
  }

  /** Every step of every thread keeps the invariant. */
  lemma StepKeeps(s: State, e: Event, t: nat, s': State)
    requires Inv(s) && Step(s, e, t, s')
    ensures Inv(s')
  {
    hide Inv, Exec, Enabled;
    match e
    case Run => ExecKeeps(s, t);
    case Malloc(o) => StepMalloc(s, t, o);
    case NoMemory => NoMemoryKeeps(s, t);
    case Call(op) =>
      if t in s.threads {
        CallKeeps(s, t, op);
      } else {
        NewThread(s, t, op);
        CallKeeps(Goto(s, t, op, Idle), t, op);
        assert Goto(Goto(s, t, op, Idle), t, op, Start(op)) == s';
      }
    case Give(k, to) => GiveKeeps(s, t, k, to);
  }

  lemma InitInv(s: State)
    requires Init(s)
    ensures Inv(s)
  {
  }

  lemma {:induction false} RunInv(run: seq<State>, what: seq<Event>, who: seq<nat>, n: nat)
    requires IsRun(run, what, who) && n < |run|
    ensures Inv(run[n])
  {
    hide Inv, Init, Step;
    if n == 0 {
      InitInv(run[0]);
    } else {
      RunInv(run, what, who, n - 1);
      StepKeeps(run[n - 1], what[n - 1], who[n - 1], run[n]);
    }
  }

  // -- Safety of every reachable state ---------------------------------------------------

  /** f_count of an object in the table is the number of references to it, and an object
      that is not in the table has none. */
  lemma CountsReferences(run: seq<State>, what: seq<Event>, who: seq<nat>, n: nat, o: nat)
    requires IsRun(run, what, who) && n < |run| && o in run[n].objs
    ensures if Linked(run[n], o) then run[n].objs[o].count == |RefsTo(run[n].refs, o)|
            else RefsTo(run[n].refs, o) == {}
  {
    RunInv(run, what, who, n);
    hide IsRun, LocksOk, TableOk;
    assert CountOk(run[n], o);
    if !Linked(run[n], o) { NoRefs(run[n], o); }
  }

  /** Whoever has a reference has an object that is allocated, on the chain of its id,
      and reached from the head of that chain. */
  lemma ReferenceIsAlive(run: seq<State>, what: seq<Event>, who: seq<nat>, n: nat, k: nat)
    requires IsRun(run, what, who) && n < |run| && k in run[n].refs
    ensures var s, o := run[n], run[n].refs[k].obj;
            && o in s.objs && s.objs[o].count > 0
            && exists hops :: Hop(s, HeadOf(s, HashId(s.objs[o].id)), hops) == o
  {
    RunInv(run, what, who, n);
    hide IsRun, LocksOk;
    var s, o := run[n], run[n].refs[k].obj;
    assert RefOk(s, k) && CountOk(s, o);
    assert k in RefsTo(s.refs, o);
    var h := HashId(s.objs[o].id);
    assert ChainOk(s, h);
    var j :| 0 <= j < |s.chains[h]| && s.chains[h][j] == o;
    HopChain(s, h, j);
  }

  /** The object `hops` f_next pointers further. */
  function Hop(s: State, o: nat, hops: nat): nat { if hops == 0 then o else Next(s, Hop(s, o, hops - 1)) }

  lemma {:induction false} HopChain(s: State, h: nat, j: nat)
    requires h < |s.chains| && h < |s.fh| && ChainOk(s, h) && j <= |s.chains[h]|
    ensures Hop(s, HeadOf(s, h), j) == At(s.chains[h], j)
  {
    if j > 0 {
      HopChain(s, h, j - 1);
      assert NodeOk(s, h, j - 1);
    }
  }

  /** What a thread is about to touch is in the table, or its own. */
  lemma TouchedOwned(s: State, t: nat, o: nat)
    requires Inv(s) && t in s.threads && Touches(s.threads[t].op, s.threads[t].pc) == Some(o)
    ensures Linked(s, o) || PrivOf(s, t, o)
  {
    var Thread(op, pc) := s.threads[t];
    assert ThreadOk(s, t);
    if HasRef(s, t, op) {
      assert RefOk(s, op.k);
      if pc.RWalk? || pc.RSetNext? { OnChain(s, HashId(IdOf(s, op.o)), pc.j); }
    } else if op.OpFind? && pc.FWalk? {
      OnChain(s, HashId(op.id), pc.j);
    }
  }

  lemma OnChain(s: State, h: nat, j: nat)
    requires TableOk(s) && h < NHASH && j < |s.chains[h]|
    ensures Linked(s, s.chains[h][j])
  {
    assert ChainOk(s, h);
    assert NodeOk(s, h, j);
  }

  /** No thread ever reads, writes, locks or unlocks an object that is not allocated. */
  lemma NoUseAfterFree(run: seq<State>, what: seq<Event>, who: seq<nat>, n: nat, t: nat)
    requires IsRun(run, what, who) && n < |run| && t in run[n].threads
    ensures var r := Touches(run[n].threads[t].op, run[n].threads[t].pc);
            r.Some? ==> r.value in run[n].objs
  {
    RunInv(run, what, who, n);
    hide IsRun, LocksOk, TableOk, RefsOk, Touches, Priv;
    var r := Touches(run[n].threads[t].op, run[n].threads[t].pc);
    if r.Some? {
      TouchedOwned(run[n], t, r.value);
      if PrivOf(run[n], t, r.value) {
        assert ThreadOk(run[n], t);
        PrivLoner(run[n], t, r.value);
      }
    }
  }

  /** From its unlinking to its free, an object has no reference, is on no chain, is not
      locked by and not about to be touched by any other thread. */
  lemma FreedAlone(run: seq<State>, what: seq<Event>, who: seq<nat>, n: nat, t: nat, u: nat)
    requires IsRun(run, what, who) && n < |run| && t in run[n].threads && run[n].threads[t].op.OpRele?
    requires run[n].threads[t].pc.RUnlockH3? || run[n].threads[t].pc.RUnlockF3? || run[n].threads[t].pc.RFree?
    ensures var s, o := run[n], run[n].threads[t].op.o;
            && o in s.objs && RefsTo(s.refs, o) == {}
            && (forall h :: 0 <= h < |s.chains| ==> o !in s.chains[h])
            && (u in s.threads && u != t ==>
                  !HasF(s.threads[u], o) && Touches(s.threads[u].op, s.threads[u].pc) != Some(o))
  {
    RunInv(run, what, who, n);
    var s, o := run[n], run[n].threads[t].op.o;
    assert ThreadOk(s, t) && PrivOf(s, t, o);
    hide IsRun, LocksOk, Touches, Priv, PcOk, HasF;
    NoRefs(s, o);
    forall h | 0 <= h < |s.chains| ensures o !in s.chains[h] {
      if j :| 0 <= j < |s.chains[h]| && s.chains[h][j] == o { OnChain(s, h, j); }
    }
    hide Linked;
    if u in s.threads && u != t {
      assert PairOk(s, t, u);
      NotLocked(s, t, u, o);
      if Touches(s.threads[u].op, s.threads[u].pc) == Some(o) { TouchedOwned(s, u, o); }
    }
  }

  /** The walk of foo_rele to the object before the one to unlink stays before it, so the
      distance left shrinks with each step and f_next never runs off the chain. */
  lemma UnlinkWalkEnds(run: seq<State>, what: seq<Event>, who: seq<nat>, n: nat, t: nat)
    requires IsRun(run, what, who) && n < |who| && who[n] == t && what[n].Run?
    requires t in run[n].threads && run[n].threads[t].pc.RWalk?
    ensures var s, s' := run[n], run[n + 1];
            && t in s'.threads && s'.chains == s.chains && s'.objs == s.objs
            && (s'.threads[t].pc.RWalk? ==>
                  WalkLeft(s', t) < WalkLeft(s, t) && s'.threads[t].pc.tfp != 0)
            && (!s'.threads[t].pc.RWalk? ==> s'.threads[t].pc.RSetNext?)
  {
    RunInv(run, what, who, n);
    var s, s' := run[n], run[n + 1];
    assert Step(s, what[n], t, s') && ThreadOk(s, t);
    hide IsRun, LocksOk;
    var op, pc := s.threads[t].op, s.threads[t].pc;
    ToUnlink(s, t);
    var h := HashId(s.objs[op.o].id);
    assert NodeOk(s, h, pc.j) && NodeOk(s, h, pc.j + 1);
    IndexNext(s.chains[h], op.o, pc.j);
  }

  /** Nobody moved thread `t` or changed an id, nor the chains without hashlock. */
  predicate Undisturbed(s: State, s': State, locked: bool, t: nat, o: nat)
    requires t in s.threads && o in s.objs
  {
    && t in s'.threads && s'.threads[t] == s.threads[t]
    && (o in s'.objs ==> s'.objs[o].id == s.objs[o].id)
    && (!locked ==> s'.chains == s.chains)
  }

  lemma AllocFrame(s: State, u: nat, op: Op, pc: Pc, t: nat, o: nat)
    requires op.OpAlloc? && t in s.threads && t != u && o in s.objs
    ensures Undisturbed(s, ExecAlloc(s, u, op, pc), HoldsHash(pc), t, o)
  {
  }

  lemma HoldFrame(s: State, u: nat, op: Op, pc: Pc, t: nat, o: nat)
    requires op.OpHold? && t in s.threads && t != u && o in s.objs
    ensures Undisturbed(s, ExecHold(s, u, op, pc), HoldsHash(pc), t, o)
  {
  }

  lemma FindFrame(s: State, u: nat, op: Op, pc: Pc, t: nat, o: nat)
    requires op.OpFind? && t in s.threads && t != u && o in s.objs
    ensures Undisturbed(s, ExecFind(s, u, op, pc), HoldsHash(pc), t, o)
  {
  }

  lemma ReleFrame(s: State, u: nat, op: Op, pc: Pc, t: nat, o: nat)
    requires op.OpRele? && t in s.threads && t != u && o in s.objs
    ensures Undisturbed(s, ExecRele(s, u, op, pc), HoldsHash(pc), t, o)
  {
  }

  lemma OthersFrame(s: State, e: Event, u: nat, s': State, t: nat, o: nat)
    requires Step(s, e, u, s') && t in s.threads && t != u && o in s.objs
    ensures Undisturbed(s, s', u in s.threads && HoldsHash(s.threads[u].pc), t, o)
  {
    if e.Run? {
      var Thread(op, pc) := s.threads[u];
      hide Undisturbed, HoldsHash, ExecAlloc, ExecHold, ExecFind, ExecRele, Enabled;
      match op
      case OpAlloc(_) => AllocFrame(s, u, op, pc, t, o);
      case OpHold(_, _) => HoldFrame(s, u, op, pc, t, o);
      case OpFind(_) => FindFrame(s, u, op, pc, t, o);
      case OpRele(_, _) => ReleFrame(s, u, op, pc, t, o);
    }
  }

  /** Meanwhile the other threads leave that distance as it is. */
  lemma UnlinkWalkUndisturbed(run: seq<State>, what: seq<Event>, who: seq<nat>, n: nat, t: nat)
    requires IsRun(run, what, who) && n < |who| && who[n] != t
    requires t in run[n].threads && run[n].threads[t].pc.RWalk?
    ensures var s, s' := run[n], run[n + 1];
            && t in s'.threads && s'.threads[t] == s.threads[t] && WalkLeft(s', t) == WalkLeft(s, t) > 0
  {
    RunInv(run, what, who, n);
    RunInv(run, what, who, n + 1);
    var s, s', u := run[n], run[n + 1], who[n];
    assert Step(s, what[n], u, s');
    hide IsRun, LocksOk, TableOk, RefsOk;
    assert ThreadOk(s, t);
    if u in s.threads { Exclusive(s, t, u); }
    ToUnlink(s, t);
    OthersFrame(s, what[n], u, s', t, s.threads[t].op.o);
    hide Step;
    assert ThreadOk(s', t);
    ToUnlink(s', t);
  }

  /** How far the walk is from the object to unlink. */
  function WalkLeft(s: State, t: nat): int
    requires t in s.threads && s.threads[t].pc.RWalk?
  {
    var Thread(op, pc) := s.threads[t];
    if op.OpRele? then IndexOf(ChainOf(s, IdOf(s, op.o)), op.o) - pc.j else 0
  }

  /** Nothing leaks: an allocated object is in the table or is the private object of
      exactly one thread, which will link it or free it. */
  lemma NothingLeaks(run: seq<State>, what: seq<Event>, who: seq<nat>, n: nat, o: nat)
    requires IsRun(run, what, who) && n < |run| && o in run[n].objs && !Linked(run[n], o)
    ensures exists t :: PrivOf(run[n], t, o) && forall u :: PrivOf(run[n], u, o) ==> u == t
  {
    RunInv(run, what, who, n);
    hide IsRun, LocksOk, TableOk, RefsOk, Priv, Linked;
    assert Owned(run[n], o);
    var t :| PrivOf(run[n], t, o);
    forall u | PrivOf(run[n], u, o) ensures u == t { assert u != t ==> PairOk(run[n], t, u); }
  }

  // -- No deadlock -----------------------------------------------------------------------

  predicate Waiting(pc: Pc) { pc.Idle? || pc.AMalloc? }

  lemma FHolderRuns(s: State, t: nat)
    requires t in s.threads && ThreadOk(s, t) && Holds(s.threads[t].op, s.threads[t].pc).Some?
    ensures Enabled(s, t)
  {
  }

  /** `t` waits, and `u` holds the mutex that it waits for. */
  predicate WaitsFor(s: State, t: nat, u: nat)
    requires t in s.threads
  {
    var Thread(op, pc) := s.threads[t];
    && !Enabled(s, t)
    && match pc
       case ALockH(_) => s.hash == Some(u)
       case FLockH => s.hash == Some(u)
       case RLockH => s.hash == Some(u)
       case ALockF(o) => o in s.fl && s.fl[o] == u
       case FLockF(fp, _) => fp in s.fl && s.fl[fp] == u
       case _ => (op.OpHold? || op.OpRele?) && op.o in s.fl && s.fl[op.o] == u
  }

  /** There is somebody to wait for, and everybody that `t` waits for can take a step. */
  ghost predicate WaitsForRunning(s: State, t: nat)
    requires t in s.threads
  {
    && (exists u :: WaitsFor(s, t, u))
    && (forall u :: WaitsFor(s, t, u) ==> u in s.threads && Enabled(s, u))
  }

  predicate WantsHash(pc: Pc) { pc.ALockH? || pc.FLockH? || pc.RLockH? }

  /** Whoever waits waits for somebody. */
  lemma Somebody(s: State, t: nat)
    requires t in s.threads && ThreadOk(s, t) && !Waiting(s.threads[t].pc) && !Enabled(s, t)
    ensures exists u :: WaitsFor(s, t, u)
  {
    var Thread(op, pc) := s.threads[t];
    if WantsHash(pc) { assert WaitsFor(s, t, s.hash.value); }
    else if pc.ALockF? { assert WaitsFor(s, t, s.fl[pc.o]); }
    else if pc.FLockF? { assert WaitsFor(s, t, s.fl[pc.fp]); }
    else { assert WaitsFor(s, t, s.fl[op.o]); }
  }

  /** A thread that waits for an f_lock waits for a thread that can run. */
  lemma InnerWait(s: State, t: nat)
    requires Inv(s) && t in s.threads && !Waiting(s.threads[t].pc) && !WantsHash(s.threads[t].pc) && !Enabled(s, t)
    ensures WaitsForRunning(s, t)
  {
    hide TableOk, RefsOk, PcOk;
    assert ThreadOk(s, t);
    Somebody(s, t);
    forall u | WaitsFor(s, t, u) ensures u in s.threads && Enabled(s, u) {
      var o :| o in s.fl && s.fl[o] == u;
      assert FlOk(s, o) && ThreadOk(s, u);
      FHolderRuns(s, u);
    }
  }

  /** Waits go from hashlock to an f_lock and no further: a thread inside a call and past malloc
      can take a step, or the thread that it waits for can, or that one waits only for a
      thread that can. */
  lemma NoDeadlock(run: seq<State>, what: seq<Event>, who: seq<nat>, n: nat, t: nat)
    requires IsRun(run, what, who) && n < |run| && t in run[n].threads && !Waiting(run[n].threads[t].pc)
    ensures var s := run[n];
            || Enabled(s, t)
            || ((exists u :: WaitsFor(s, t, u))
                && forall u :: WaitsFor(s, t, u) ==> u in s.threads && (Enabled(s, u) || WaitsForRunning(s, u)))
  {
    RunInv(run, what, who, n);
    var s := run[n];
    hide IsRun, Inv, Enabled, WaitsForRunning;
    if !Enabled(s, t) {
      KnownThread(s, t);
      Somebody(s, t);
      if !WantsHash(s.threads[t].pc) {
        InnerWait(s, t);
        RunningOnly(s, t);
      } else {
        forall u | WaitsFor(s, t, u) ensures u in s.threads && (Enabled(s, u) || WaitsForRunning(s, u)) {
          HashHolder(s, t, u);
          if !Enabled(s, u) { InnerWait(s, u); }
        }
      }
    }
  }

  lemma KnownThread(s: State, t: nat)
    requires Inv(s) && t in s.threads
    ensures ThreadOk(s, t)
  {
  }

  lemma RunningOnly(s: State, t: nat)
    requires t in s.threads && WaitsForRunning(s, t)
    ensures forall u :: WaitsFor(s, t, u) ==> u in s.threads && Enabled(s, u)
  {
  }

  lemma HashHolder(s: State, t: nat, u: nat)
    requires Inv(s) && t in s.threads && WantsHash(s.threads[t].pc) && WaitsFor(s, t, u)
    ensures u in s.threads && !Waiting(s.threads[u].pc) && !WantsHash(s.threads[u].pc)
  {
    hide TableOk, RefsOk;
  }
}

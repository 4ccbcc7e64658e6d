/** What every step keeps, up to the first sem_create that finds BIGCOUNT handles open. */
module SemaphInv {
  import opened Lists
  import opened Semaph

  function SetOf(pc: Pc): Option<nat> {
    match pc
    case Idle => None
    case CGet(_) => None
    case CLock(_, id) => Some(id)
    case CCheck(_, id) => Some(id)
    case CSet0(_, id) => Some(id)
    case CSet1(_, id) => Some(id)
    case CEnd(_, id) => Some(id)
    case XLock(id, _) => Some(id)
    case XCheck(id) => Some(id)
    case XRm(id) => Some(id)
    case XUnlock(id) => Some(id)
  }

  /** Between the lock and the unlock of the set that is there. */
  predicate Critical(live: Option<nat>, pc: Pc) {
    live.Some? && SetOf(pc) == live && !pc.CLock? && !pc.XLock?
  }

  predicate InCritical(s: State, p: nat) { p in s.procs && Critical(s.live, s.procs[p]) }

  /** The kernel will undo exactly the process's open handles and its lock. */
  predicate AdjOk(s: State, p: nat) {
    && AdjOf(s, p).s1 == |HandlesOf(s.handles, p)|
    && AdjOf(s, p).s2 == (if InCritical(s, p) then -1 else 0)
  }

  predicate PcOk(s: State, p: nat, pc: Pc) {
    && (SetOf(pc).Some? ==> SetOf(pc).value < s.nextId)
    && (s.live.Some? && SetOf(pc) == s.live ==>
          match pc
          case CSet0(_, _) => !s.inited
          case CSet1(_, _) => !s.inited
          case CEnd(_, _) => s.inited && s.vals.s1 >= 1
          case XLock(_, h) => Owns(s, p, h)
          case XCheck(_) => s.inited
          case XRm(_) => s.inited && s.handles == map[]
          case XUnlock(_) => s.inited
          case _ => true)
  }

  predicate ProcOk(s: State, p: nat)
    requires p in s.procs
  {
    PcOk(s, p, s.procs[p])
  }

  /** [1] counts down from BIGCOUNT with every open handle; [2] is the lock. */
  predicate ValsOk(s: State) {
    && s.vals.s0 >= 0 && s.vals.s1 >= 0
    && (if s.inited then s.vals.s1 + |s.handles| == BIGCOUNT else s.vals.s1 == 0 && s.handles == map[])
    && s.vals.s2 == (if s.holder.Some? then 1 else 0)
    && (s.live.None? ==> s.vals == ZERO && !s.inited && s.adj == map[])
    && (s.live.Some? ==> s.live.value < s.nextId)
  }

  predicate HandleOk(s: State, h: nat)
    requires h in s.handles
  {
    h < s.nextHandle && s.handles[h] in s.procs
  }

  predicate HolderOk(s: State, p: nat) { InCritical(s, p) <==> s.holder == Some(p) }

  ghost predicate Inv(s: State) {
    && ValsOk(s)
    && (forall p {:trigger AdjOk(s, p)} :: AdjOk(s, p))
    && (forall p {:trigger HolderOk(s, p)} :: HolderOk(s, p))
    && (forall p {:trigger ProcOk(s, p)} :: p in s.procs ==> ProcOk(s, p))
    && (forall h {:trigger HandleOk(s, h)} :: h in s.handles ==> HandleOk(s, h))
  }

  // -- What the operation arrays do ------------------------------------------------------

  /** The first operation of an array, then the rest. */
  lemma First(v: Triple, a: Triple, b: Sembuf, r: seq<Sembuf>)
    requires b.num < 3
    ensures Semop(v, [b] + r) ==
            if (if b.op == 0 then Val(v, b.num) == 0 else Val(v, b.num) + b.op >= 0)
            then Semop(Put(v, b.num, Val(v, b.num) + b.op), r) else None
    ensures Adjust(a, [b] + r) == Adjust(if b.undo then Put(a, b.num, Val(a, b.num) - b.op) else a, r)
  {
    assert ([b] + r)[1..] == r;
  }

  /** An array of one operation. */
  lemma One(v: Triple, a: Triple, i: nat, x: int)
    requires i < 3 && x != 0
    ensures Semop(v, [Sembuf(i, x, true)]) == if Val(v, i) + x >= 0 then Some(Put(v, i, Val(v, i) + x)) else None
    ensures Adjust(a, [Sembuf(i, x, true)]) == Put(a, i, Val(a, i) - x)
  {
    First(v, a, Sembuf(i, x, true), []);
    hide Val, Put;
    assert [Sembuf(i, x, true)] + [] == [Sembuf(i, x, true)];
  }

  /** An array of two operations on different semaphores. */
  lemma Two(v: Triple, a: Triple, i: nat, x: int, j: nat, y: int)
    requires i < 3 && j < 3 && x != 0 && y != 0 && i != j
    ensures Semop(v, [Sembuf(i, x, true)] + [Sembuf(j, y, true)]) ==
            if Val(v, i) + x >= 0 && Val(v, j) + y >= 0
            then Some(Put(Put(v, i, Val(v, i) + x), j, Val(v, j) + y)) else None
    ensures Adjust(a, [Sembuf(i, x, true)] + [Sembuf(j, y, true)]) == Put(Put(a, i, Val(a, i) - x), j, Val(a, j) - y)
  {
    var v', a' := Put(v, i, Val(v, i) + x), Put(a, i, Val(a, i) - x);
    assert Val(v', j) == Val(v, j) && Val(a', j) == Val(a, j);
    hide Semop, Adjust, Val, Put;
    First(v, a, Sembuf(i, x, true), [Sembuf(j, y, true)]);
    One(v', a', j, y);
  }

  lemma Lock(v: Triple, a: Triple)
    ensures Semop(v, OP_LOCK) == if v.s2 == 0 then Some(v.(s2 := 1)) else None
    ensures Adjust(a, OP_LOCK) == a.(s2 := a.s2 - 1)
  {
    hide Semop, Adjust;
    var r := [Sembuf(2, 1, true)];
    assert OP_LOCK == [Sembuf(2, 0, false)] + r;
    First(v, a, Sembuf(2, 0, false), r);
    One(v, a, 2, 1);
  }

  lemma EndCreate(v: Triple, a: Triple)
    ensures Semop(v, OP_ENDCREATE) ==
            if v.s1 >= 1 && v.s2 >= 1 then Some(v.(s1 := v.s1 - 1, s2 := v.s2 - 1)) else None
    ensures Adjust(a, OP_ENDCREATE) == a.(s1 := a.s1 + 1, s2 := a.s2 + 1)
  {
    hide Semop, Adjust;
    EndCreateOps();
    hide OP_ENDCREATE;
    Two(v, a, 1, -1, 2, -1);
    Both(v, v.s1 - 1, v.s2 - 1);
    Both(a, a.s1 + 1, a.s2 + 1);
    hide Put;
  }

  lemma EndCreateOps()
    ensures OP_ENDCREATE == [Sembuf(1, -1, true)] + [Sembuf(2, -1, true)]
  {
  }

  lemma Both(v: Triple, x: int, y: int)
    ensures Put(Put(v, 1, x), 2, y) == Put(Put(v, 2, y), 1, x) == v.(s1 := x, s2 := y)
    ensures Val(v, 1) == v.s1 && Val(v, 2) == v.s2
  {
  }

  lemma CloseOp(v: Triple, a: Triple)
    requires v.s1 >= 0
    ensures Semop(v, OP_CLOSE) == if v.s2 == 0 then Some(v.(s1 := v.s1 + 1, s2 := 1)) else None
    ensures Adjust(a, OP_CLOSE) == a.(s1 := a.s1 - 1, s2 := a.s2 - 1)
  {
    hide Semop, Adjust;
    CloseOps();
    CloseVals(v);
    CloseAdjust(a);
  }

  lemma CloseVals(v: Triple)
    requires v.s1 >= 0
    ensures Semop(v, [Sembuf(2, 0, false)] + ([Sembuf(2, 1, true)] + [Sembuf(1, 1, true)])) ==
            if v.s2 == 0 then Some(v.(s1 := v.s1 + 1, s2 := 1)) else None
  {
    hide Semop, Adjust;
    First(v, v, Sembuf(2, 0, false), [Sembuf(2, 1, true)] + [Sembuf(1, 1, true)]);
    Two(v, v, 2, 1, 1, 1);
  }

  lemma CloseAdjust(a: Triple)
    ensures Adjust(a, [Sembuf(2, 0, false)] + ([Sembuf(2, 1, true)] + [Sembuf(1, 1, true)])) ==
            a.(s1 := a.s1 - 1, s2 := a.s2 - 1)
  {
    hide Semop, Adjust;
    First(a, a, Sembuf(2, 0, false), [Sembuf(2, 1, true)] + [Sembuf(1, 1, true)]);
    Two(a, a, 2, 1, 1, 1);
    Both(a, a.s1 - 1, a.s2 - 1);
    hide Put, Val;
  }

  lemma CloseOps()
    ensures OP_CLOSE == [Sembuf(2, 0, false)] + ([Sembuf(2, 1, true)] + [Sembuf(1, 1, true)])
  {
  }

  // -- Handles ---------------------------------------------------------------------------

  lemma HandleAdded(hs: map<nat, nat>, h: nat, p: nat, q: nat)
    requires h !in hs
    ensures |hs[h := p]| == |hs| + 1
    ensures |HandlesOf(hs[h := p], q)| == |HandlesOf(hs, q)| + if p == q then 1 else 0
  {
    var hs' := hs[h := p];
    assert hs'.Keys == hs.Keys + {h};
    assert |hs'.Keys| == |hs.Keys| + 1;
    var a, b := HandlesOf(hs, q), HandlesOf(hs', q);
    assert h !in a;
    forall k ensures k in b <==> k in a || (k == h && p == q) {}
    hide HandlesOf;
    Added(a, b, h, p == q);
  }

  lemma Added(a: set<nat>, b: set<nat>, h: nat, more: bool)
    requires h !in a && forall k :: k in b <==> k in a || (k == h && more)
    ensures |b| == |a| + if more then 1 else 0
  {
    assert b == if more then a + {h} else a;
  }

  lemma HandleDropped(hs: map<nat, nat>, h: nat, q: nat)
    requires h in hs
    ensures |hs - {h}| == |hs| - 1
    ensures |HandlesOf(hs - {h}, q)| == |HandlesOf(hs, q)| - if hs[h] == q then 1 else 0
  {
    var hs' := hs - {h};
    assert hs'.Keys == hs.Keys - {h};
    if hs[h] == q {
      assert HandlesOf(hs', q) == HandlesOf(hs, q) - {h};
    } else {
      assert HandlesOf(hs', q) == HandlesOf(hs, q);
    }
  }

  lemma HandlesLost(hs: map<nat, nat>, p: nat, q: nat)
    ensures |hs - HandlesOf(hs, p)| == |hs| - |HandlesOf(hs, p)|
    ensures HandlesOf(hs - HandlesOf(hs, p), q) == if p == q then {} else HandlesOf(hs, q)
  {
    var hs' := hs - HandlesOf(hs, p);
    assert hs'.Keys == hs.Keys - HandlesOf(hs, p);
    assert |hs.Keys - HandlesOf(hs, p)| == |hs.Keys| - |HandlesOf(hs, p)|;
  }

  // -- Steps -----------------------------------------------------------------------------

  lemma DieVals(s: State, p: nat)
    requires Inv(s) && p in s.procs
    ensures ValsOk(Die(s, p)) && Die(s, p).vals.s1 == s.vals.s1 + |HandlesOf(s.handles, p)|
  {
    assert AdjOk(s, p) && HolderOk(s, p);
    HandlesLost(s.handles, p, p);
    assert s.handles == map[] ==> HandlesOf(s.handles, p) == {};
    assert s.live.None? ==> Undo(s.vals, AdjOf(s, p)) == ZERO;
  }

  /** The death of a process gives back its handles and its lock, and nothing else. */
  lemma DieKeeps(s: State, p: nat)
    requires Inv(s) && p in s.procs
    ensures Inv(Die(s, p))
    ensures Die(s, p).vals.s1 == s.vals.s1 + |HandlesOf(s.handles, p)|
  {
    hide ValsOk, Die, AdjOk, HolderOk, HandleOk, ProcOk, HandlesOf;
    var s' := Die(s, p);
    DieVals(s, p);
    DieProcs(s, p);
    GivesBack(s, p);
    forall q ensures AdjOk(s', q) { assert AdjOk(s, q); DieAdj(s, p, q); }
    forall q ensures HolderOk(s', q) { assert HolderOk(s, q); DieHolder(s, p, q); }
    forall h | h in s'.handles ensures HandleOk(s', h) { DieHandle(s, p, h); }
    forall q | q in s'.procs ensures ProcOk(s', q) { assert ProcOk(s, q); DieProc(s, p, q); }
  }

  lemma DieProcs(s: State, p: nat)
    ensures Die(s, p).procs == s.procs - {p}
  {
  }

  lemma GivesBack(s: State, p: nat)
    requires Inv(s)
    ensures AdjOf(s, p).s1 >= 0
  {
    assert AdjOk(s, p);
  }

  lemma DieAdj(s: State, p: nat, q: nat)
    requires AdjOk(s, q)
    ensures AdjOk(Die(s, p), q)
  {
    HandlesLost(s.handles, p, q);
    hide HandlesOf, Undo;
  }

  lemma DieHolder(s: State, p: nat, q: nat)
    requires HolderOk(s, q)
    ensures HolderOk(Die(s, p), q)
  {
    hide HandlesOf, Undo, AdjOf, Critical;
  }

  lemma DieHandle(s: State, p: nat, h: nat)
    requires Inv(s) && h in Die(s, p).handles
    ensures HandleOk(Die(s, p), h)
  {
    assert HandleOk(s, h);
    hide AdjOf, Undo, ValsOk;
  }

  lemma DieProc(s: State, p: nat, q: nat)
    requires q in s.procs && q != p && ProcOk(s, q) && AdjOf(s, p).s1 >= 0
    ensures ProcOk(Die(s, p), q)
  {
    hide AdjOf, SetOf;
    assert s.handles == map[] ==> s.handles - HandlesOf(s.handles, p) == map[];
  }

  /** A step that changes no more than the process's own place. */
  lemma MoveKeeps(s: State, p: nat, pc: Pc)
    requires Inv(s) && PcOk(s, p, pc) && (p in s.procs ==> Critical(s.live, s.procs[p]) == Critical(s.live, pc))
    requires p !in s.procs ==> pc.Idle?
    ensures Inv(Goto(s, p, pc))
  {
    var s' := Goto(s, p, pc);
    forall q ensures AdjOk(s', q) { assert AdjOk(s, q); }
    forall q ensures HolderOk(s', q) { assert HolderOk(s, q); }
    forall q | q in s'.procs ensures ProcOk(s', q) { assert q != p ==> ProcOk(s, q); }
    forall h | h in s'.handles ensures HandleOk(s', h) { assert HandleOk(s, h); }
  }

  lemma GetKeeps(s: State)
    requires Inv(s)
    ensures Inv(Get(s))
  {
    var s' := Get(s);
    forall q ensures AdjOk(s', q) { assert AdjOk(s, q); assert q in s.procs ==> ProcOk(s, q); }
    forall q ensures HolderOk(s', q) { assert HolderOk(s, q); assert q in s.procs ==> ProcOk(s, q); }
    forall q | q in s'.procs ensures ProcOk(s', q) { assert ProcOk(s, q); }
    forall h | h in s'.handles ensures HandleOk(s', h) { assert HandleOk(s, h); }
  }

  lemma RemoveKeeps(s: State)
    requires Inv(s)
    ensures Inv(Remove(s))
  {
    var s' := Remove(s);
    assert forall q :: HandlesOf(s'.handles, q) == {};
    forall q | q in s'.procs ensures ProcOk(s', q) { assert ProcOk(s, q); }
  }

  /** `p` enters or leaves the critical section. */
  predicate Turn(s: State, s': State, p: nat) {
    && p in s.procs && p in s'.procs && s'.procs == s.procs[p := s'.procs[p]]
    && s'.live == s.live && s'.nextId == s.nextId && s'.inited == s.inited
    && s'.adj == s.adj[p := AdjOf(s', p)]
    && s'.holder == (if InCritical(s', p) then Some(p) else None)
    && InCritical(s', p) != InCritical(s, p)
    && s'.vals.s2 == s.vals.s2 + (if InCritical(s', p) then 1 else -1)
    && AdjOf(s', p).s2 == AdjOf(s, p).s2 - (if InCritical(s', p) then 1 else -1)
  }

  lemma TurnKeeps(s: State, s': State, p: nat)
    requires Inv(s) && Turn(s, s', p) && (InCritical(s', p) ==> s.vals.s2 == 0)
    requires ValsOk(s') && PcOk(s', p, s'.procs[p])
    requires forall q :: |HandlesOf(s'.handles, q)| == |HandlesOf(s.handles, q)| + AdjOf(s', q).s1 - AdjOf(s, q).s1
    requires forall h :: h in s'.handles ==> h < s'.nextHandle && s'.handles[h] in s.procs
    requires forall h :: h in s.handles && s.handles[h] != p ==> h in s'.handles && s'.handles[h] == s.handles[h]
    ensures Inv(s')
  {
    assert HolderOk(s, p) && AdjOk(s, p);
    forall q ensures HolderOk(s', q) { assert HolderOk(s, q); }
    forall q ensures AdjOk(s', q) { assert AdjOk(s, q); }
    forall q | q in s'.procs ensures ProcOk(s', q) {
      assert q != p ==> ProcOk(s, q);
      assert HolderOk(s, q) && HolderOk(s', q);
    }
    forall h | h in s'.handles ensures HandleOk(s', h) {}
  }

  lemma LockKeeps(s: State, p: nat)
    requires Inv(s) && p in s.procs && s.procs[p].CLock? && Enabled(s, p) && s.live == Some(s.procs[p].id)
    ensures Inv(Exec(s, p))
  {
    var s' := Exec(s, p);
    Lock(s.vals, AdjOf(s, p));
    assert ProcOk(s, p) && HolderOk(s, p);
    forall h | h in s'.handles ensures h < s'.nextHandle && s'.handles[h] in s.procs { assert HandleOk(s, h); }
    TurnKeeps(s, s', p);
  }

  lemma UnlockKeeps(s: State, p: nat)
    requires Inv(s) && p in s.procs && s.procs[p].XUnlock? && Enabled(s, p) && s.live == Some(s.procs[p].id)
    ensures Inv(Exec(s, p))
  {
    var s' := Exec(s, p);
    One(s.vals, AdjOf(s, p), 2, -1);
    assert ProcOk(s, p) && HolderOk(s, p);
    forall h | h in s'.handles ensures h < s'.nextHandle && s'.handles[h] in s.procs { assert HandleOk(s, h); }
    TurnKeeps(s, s', p);
  }

  lemma EndCreateKeeps(s: State, p: nat)
    requires Inv(s) && p in s.procs && s.procs[p].CEnd? && Enabled(s, p) && s.live == Some(s.procs[p].id)
    ensures Inv(Exec(s, p))
  {
    var s' := Exec(s, p);
    EndCreate(s.vals, AdjOf(s, p));
    assert ProcOk(s, p) && HolderOk(s, p);
    assert s.nextHandle in s.handles ==> HandleOk(s, s.nextHandle);
    forall h | h in s'.handles ensures h < s'.nextHandle
        && s'.handles[h] in s.procs { assert h in s.handles ==> HandleOk(s, h); }
    forall q ensures |HandlesOf(s'.handles, q)| == |HandlesOf(s.handles, q)| + AdjOf(s', q).s1 - AdjOf(s, q).s1 {
      HandleAdded(s.handles, s.nextHandle, p, q);
    }
    HandleAdded(s.handles, s.nextHandle, p, p);
    TurnKeeps(s, s', p);
  }

  lemma CloseKeeps(s: State, p: nat)
    requires Inv(s) && p in s.procs && s.procs[p].XLock? && Enabled(s, p) && s.live == Some(s.procs[p].id)
        && s.vals.s1 >= 0
    ensures Inv(Exec(s, p))
  {
    var s', h := Exec(s, p), s.procs[p].h;
    CloseOp(s.vals, AdjOf(s, p));
    assert ProcOk(s, p) && HolderOk(s, p);
    forall k | k in s'.handles ensures k < s'.nextHandle && s'.handles[k] in s.procs { assert HandleOk(s, k); }
    forall q ensures |HandlesOf(s'.handles, q)| == |HandlesOf(s.handles, q)| + AdjOf(s', q).s1 - AdjOf(s, q).s1 {
      HandleDropped(s.handles, h, q);
    }
    HandleDropped(s.handles, h, p);
    assert s.handles != map[];
    TurnKeeps(s, s', p);
  }

  lemma SetKeeps(s: State, p: nat)
    requires Inv(s) && p in s.procs && (s.procs[p].CSet0? || s.procs[p].CSet1?) && s.live == Some(s.procs[p].id)
    ensures Inv(Exec(s, p))
  {
    var s' := Exec(s, p);
    assert ProcOk(s, p);
    forall q ensures AdjOk(s', q) {
      assert AdjOk(s, q);
      assert HandlesOf(s.handles, q) == {};
    }
    forall q ensures HolderOk(s', q) { assert HolderOk(s, q); }
    forall q | q in s'.procs ensures ProcOk(s', q) {
      assert ProcOk(s, q) && HolderOk(s, q) && HolderOk(s, p);
    }
  }

  lemma OpKeeps(s: State, p: nat, value: int)
    requires Inv(s) && s.live.Some? && value != 0
    ensures Inv(After(s, p, OpOp(value)))
  {
    var s' := After(s, p, OpOp(value));
    One(s.vals, AdjOf(s, p), 0, value);
    forall q ensures AdjOk(s', q) { assert AdjOk(s, q); }
    forall q ensures HolderOk(s', q) { assert HolderOk(s, q); }
    forall q | q in s'.procs ensures ProcOk(s', q) { assert ProcOk(s, q); }
    forall h | h in s'.handles ensures HandleOk(s', h) { assert HandleOk(s, h); }
  }

  /** sem_create reads 0 from the counter of a set that is initialised. */
  predicate FullCheck(s: State, p: nat) {
    p in s.procs && s.procs[p].CCheck? && s.live == Some(s.procs[p].id) && s.inited && s.vals.s1 == 0
  }

  lemma CreateKeeps(s: State, p: nat)
    requires Inv(s) && p in s.procs && Enabled(s, p) && !FullCheck(s, p)
    requires s.procs[p].CLock? || s.procs[p].CCheck? || s.procs[p].CSet0? || s.procs[p].CSet1? || s.procs[p].CEnd?
    requires s.live == Some(s.procs[p].id)
    ensures Inv(Exec(s, p))
  {
    hide Inv, Exec, Enabled;
    match s.procs[p]
    case CLock(_, _) => LockKeeps(s, p);
    case CCheck(_, _) => Counted(s); CheckKeeps(s, p);
    case CSet0(_, _) => SetKeeps(s, p);
    case CSet1(_, _) => SetKeeps(s, p);
    case CEnd(_, _) => EndCreateKeeps(s, p);
  }

  lemma Counted(s: State)
    requires Inv(s)
    ensures s.vals.s1 <= BIGCOUNT
  {
  }

  lemma GetStepKeeps(s: State, p: nat)
    requires Inv(s) && p in s.procs && s.procs[p].CGet?
    ensures Inv(Exec(s, p))
  {
    assert ProcOk(s, p);
    hide Inv, Get;
    GetKeeps(s);
    GotId(s, p);
    MoveKeeps(Get(s), p, CLock(s.procs[p].init, Get(s).live.value));
  }

  lemma CloserKeeps(s: State, p: nat)
    requires Inv(s) && p in s.procs && Enabled(s, p)
    requires s.procs[p].XLock? || s.procs[p].XCheck? || s.procs[p].XRm? || s.procs[p].XUnlock?
    requires s.live == Some(s.procs[p].id)
    ensures Inv(Exec(s, p))
  {
    Counted(s);
    Positive(s);
    hide Inv, Exec, Enabled;
    match s.procs[p]
    case XLock(_, _) => CloseKeeps(s, p);
    case XCheck(_) => CheckKeeps(s, p);
    case XRm(_) => RmKeeps(s, p);
    case XUnlock(_) => UnlockKeeps(s, p);
  }

  lemma RmKeeps(s: State, p: nat)
    requires Inv(s) && p in s.procs && s.procs[p].XRm? && s.live == Some(s.procs[p].id)
    ensures Inv(Exec(s, p))
  {
    hide Inv;
    RemoveKeeps(s);
    MoveKeeps(Remove(s), p, Idle);
  }

  /** A call on a set that is gone starts again or ends the process. */
  lemma GoneKeeps(s: State, p: nat)
    requires Inv(s) && p in s.procs && SetOf(s.procs[p]).Some? && SetOf(s.procs[p]) != s.live
    ensures Inv(Exec(s, p))
  {
    GoneExec(s, p);
    hide Inv, Die, Exec, SetOf;
    if s.procs[p].CLock? { AgainKeeps(s, p); } else { DieKeeps(s, p); }
  }

  lemma AgainKeeps(s: State, p: nat)
    requires Inv(s) && p in s.procs && s.procs[p].CLock?
    ensures Inv(Goto(s, p, CGet(s.procs[p].init)))
  {
    hide Inv;
    MoveKeeps(s, p, CGet(s.procs[p].init));
  }

  lemma GoneExec(s: State, p: nat)
    requires p in s.procs && SetOf(s.procs[p]).Some? && SetOf(s.procs[p]) != s.live
    ensures Exec(s, p) == if s.procs[p].CLock? then Goto(s, p, CGet(s.procs[p].init)) else Die(s, p)
  {
    hide Die, Goto, After, Remove, SetVal, Get;
  }

  lemma ExecKeeps(s: State, p: nat)
    requires Inv(s) && p in s.procs && Enabled(s, p) && !FullCheck(s, p)
    ensures Inv(Exec(s, p))
  {
    hide Inv, Exec, Enabled, FullCheck;
    var pc := s.procs[p];
    NotIdle(s, p);
    if pc.CGet? { GetStepKeeps(s, p); }
    else if SetOf(pc) != s.live { GoneKeeps(s, p); }
    else if pc.XLock? || pc.XCheck? || pc.XRm? || pc.XUnlock? { CloserKeeps(s, p); }
    else { CreateKeeps(s, p); }
  }

  lemma NotIdle(s: State, p: nat)
    requires p in s.procs && Enabled(s, p)
    ensures !s.procs[p].Idle?
  {
  }

  lemma Positive(s: State)
    requires Inv(s)
    ensures s.vals.s1 >= 0 && (s.vals.s1 > 0 ==> s.inited)
  {
  }

  lemma GotId(s: State, p: nat)
    requires Inv(s) && p in s.procs && s.procs[p].CGet?
    ensures Get(s).live.Some? && Get(s).live.value < Get(s).nextId && Get(s).procs == s.procs
  {
  }

  lemma CheckKeeps(s: State, p: nat)
    requires Inv(s) && !FullCheck(s, p) && p in s.procs && (s.procs[p].CCheck? || s.procs[p].XCheck?)
    requires s.live == Some(s.procs[p].id) && s.vals.s1 <= BIGCOUNT
    ensures Inv(Exec(s, p))
  {
    Positive(s);
    assert ProcOk(s, p);
    MoveKeeps(s, p, Exec(s, p).procs[p]);
  }

  /** Every step keeps the invariant. */
  lemma StepKeeps(s: State, e: Event, p: nat, s': State)
    requires Inv(s) && Step(s, e, p, s') && !(e.Run? && FullCheck(s, p))
    ensures Inv(s')
  {
    hide Inv, Exec, Die, After, Enabled;
    match e
    case Start => MoveKeeps(s, p, Idle);
    case Death => DieKeeps(s, p);
    case Run => ExecKeeps(s, p);
    case Create(init) => MoveKeeps(s, p, CGet(init));
    case Op(_, value) => if value == 0 { DieKeeps(s, p); } else { OpKeeps(s, p, value); }
    case Close(h) => LiveId(s); MoveKeeps(s, p, XLock(s.live.value, h));
    case Rm => RemoveKeeps(s);
  }

  lemma LiveId(s: State)
    requires Inv(s) && s.live.Some?
    ensures s.live.value < s.nextId
  {
  }

  lemma InitInv(s: State)
    requires Init(s)
    ensures Inv(s)
  {
    assert forall q :: HandlesOf(s.handles, q) == {};
  }
}

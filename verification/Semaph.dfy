/** lib/semaph.c: one semaphore set shared by processes that create, use and close it and
    that can die at any moment. Every system call is one step. `handles`, `inited` and
    `holder` are history that no step reads. */
module Semaph {
  import opened Lists

  const BIGCOUNT := 10000

  // -- The kernel's part -----------------------------------------------------------------

  datatype Sembuf = Sembuf(num: nat, op: int, undo: bool)

  /** Three semaphore values, or three adjustments to make when a process exits. */
  datatype Triple = Triple(s0: int, s1: int, s2: int)

  const ZERO := Triple(0, 0, 0)

  function Val(v: Triple, i: nat): int { if i == 0 then v.s0 else if i == 1 then v.s1 else v.s2 }

  function Put(v: Triple, i: nat, x: int): Triple {
    if i == 0 then v.(s0 := x) else if i == 1 then v.(s1 := x) else v.(s2 := x)
  }

  /** The values after a semop array, or None where the caller has to wait. */
  function Semop(v: Triple, ops: seq<Sembuf>): Option<Triple>
    decreases |ops|
  {
    if ops == [] || ops[0].num >= 3 then Some(v)
    else
      var x := Val(v, ops[0].num);
      if (if ops[0].op == 0 then x == 0 else x + ops[0].op >= 0)
      then Semop(Put(v, ops[0].num, x + ops[0].op), ops[1..])
      else None
  }

  /** What the array adds to the caller's adjustments. */
  function Adjust(a: Triple, ops: seq<Sembuf>): Triple
    decreases |ops|
  {
    if ops == [] || ops[0].num >= 3 then a
    else Adjust(if ops[0].undo then Put(a, ops[0].num, Val(a, ops[0].num) - ops[0].op) else a, ops[1..])
  }

  /** The adjustments of an exiting process are made; no value goes below 0. */
  function Undo(v: Triple, a: Triple): Triple {
    Triple(NotBelow0(v.s0 + a.s0), NotBelow0(v.s1 + a.s1), NotBelow0(v.s2 + a.s2))
  }

  function NotBelow0(x: int): int { if x < 0 then 0 else x }

  // -- The operation arrays --------------------------------------------------------------

  const OP_LOCK := [Sembuf(2, 0, false), Sembuf(2, 1, true)]
  const OP_ENDCREATE := [Sembuf(1, -1, true), Sembuf(2, -1, true)]
  const OP_CLOSE := [Sembuf(2, 0, false), Sembuf(2, 1, true), Sembuf(1, 1, true)]
  const OP_UNLOCK := [Sembuf(2, -1, true)]
  function OpOp(value: int): seq<Sembuf> { [Sembuf(0, value, true)] }

  // -- Processes -------------------------------------------------------------------------

  datatype Pc =
    | Idle
    // sem_create
    | CGet(init: nat) | CLock(init: nat, id: nat) | CCheck(init: nat, id: nat)
    | CSet0(init: nat, id: nat) | CSet1(init: nat, id: nat) | CEnd(init: nat, id: nat)
    // sem_close of handle h
    | XLock(id: nat, h: nat) | XCheck(id: nat) | XRm(id: nat) | XUnlock(id: nat)

  /** The set behind the key, if there is one; ids are never used again. `handles` maps
      each open handle of that set to the process that opened it. */
  datatype State = State(
    live: Option<nat>, vals: Triple, adj: map<nat, Triple>, nextId: nat, procs: map<nat, Pc>,
    handles: map<nat, nat>, nextHandle: nat, inited: bool, holder: Option<nat>)

  function AdjOf(s: State, p: nat): Triple { if p in s.adj then s.adj[p] else ZERO }

  function Goto(s: State, p: nat, pc: Pc): State { s.(procs := s.procs[p := pc]) }

  /** A semop that does not have to wait. */
  function After(s: State, p: nat, ops: seq<Sembuf>): State {
    var r := Semop(s.vals, ops);
    if r.Some? then s.(vals := r.value, adj := s.adj[p := Adjust(AdjOf(s, p), ops)]) else s
  }

  /** SETVAL: also clears that semaphore's adjustment in every process. */
  function SetVal(s: State, i: nat, x: int): State
    requires i < 3
  {
    s.(vals := Put(s.vals, i, x), adj := map q | q in s.adj :: Put(s.adj[q], i, 0))
  }

  function HandlesOf(handles: map<nat, nat>, p: nat): set<nat> { set h | h in handles && handles[h] == p }

  /** A process exits, by itself or by err_sys, and the kernel undoes its operations. */
  function Die(s: State, p: nat): State {
    s.(vals := Undo(s.vals, AdjOf(s, p)), adj := s.adj - {p}, procs := s.procs - {p},
       handles := s.handles - HandlesOf(s.handles, p), holder := if s.holder == Some(p) then None else s.holder)
  }

  /** IPC_RMID: the set and every adjustment to it are gone. */
  function Remove(s: State): State {
    s.(live := None, vals := ZERO, adj := map[], handles := map[], inited := false, holder := None)
  }

  /** semget with IPC_CREAT: a new set has all three values 0. */
  function Get(s: State): State {
    if s.live.Some? then s else s.(live := Some(s.nextId), vals := ZERO, adj := map[], nextId := s.nextId + 1)
  }

  // -- One step --------------------------------------------------------------------------

  predicate Enabled(s: State, p: nat)
    requires p in s.procs
  {
    match s.procs[p]
    case Idle => false
    case CGet(_) => true
    case CLock(_, id) => s.live == Some(id) ==> Semop(s.vals, OP_LOCK).Some?
    case CEnd(_, id) => s.live == Some(id) ==> Semop(s.vals, OP_ENDCREATE).Some?
    case XLock(id, _) => s.live == Some(id) ==> Semop(s.vals, OP_CLOSE).Some?
    case XUnlock(id) => s.live == Some(id) ==> Semop(s.vals, OP_UNLOCK).Some?
    case _ => true
  }

  /** A system call on a set that is gone fails; only op_lock then starts again. */
  function Exec(s: State, p: nat): State
    requires p in s.procs
  {
    match s.procs[p]
    case Idle => s
    case CGet(init) => Goto(Get(s), p, CLock(init, Get(s).live.value))
    case CLock(init, id) =>
      if s.live != Some(id) then Goto(s, p, CGet(init))
      else Goto(After(s, p, OP_LOCK).(holder := Some(p)), p, CCheck(init, id))
    case CCheck(init, id) =>
      if s.live != Some(id) then Die(s, p)
      else Goto(s, p, if s.vals.s1 == 0 then CSet0(init, id) else CEnd(init, id))
    case CSet0(init, id) =>
      if s.live != Some(id) then Die(s, p) else Goto(SetVal(s, 0, init), p, CSet1(init, id))
    case CSet1(init, id) =>
      if s.live != Some(id) then Die(s, p)
      else Goto(SetVal(s, 1, BIGCOUNT).(inited := true), p, CEnd(init, id))
    case CEnd(init, id) =>
      if s.live != Some(id) then Die(s, p)
      else Goto(After(s, p, OP_ENDCREATE).(handles := s.handles[s.nextHandle := p], nextHandle := s.nextHandle + 1,
          holder := None), p, Idle)
    case XLock(id, h) =>
      if s.live != Some(id) then Die(s, p)
      else Goto(After(s, p, OP_CLOSE).(handles := s.handles - {h}, holder := Some(p)), p, XCheck(id))
    case XCheck(id) =>
      if s.live != Some(id) || s.vals.s1 > BIGCOUNT then Die(s, p)
      else Goto(s, p, if s.vals.s1 == BIGCOUNT then XRm(id) else XUnlock(id))
    case XRm(id) => if s.live != Some(id) then Die(s, p) else Goto(Remove(s), p, Idle)
    case XUnlock(id) =>
      if s.live != Some(id) then Die(s, p) else Goto(After(s, p, OP_UNLOCK).(holder := None), p, Idle)
  }

  predicate IsIdle(s: State, p: nat) { p in s.procs && s.procs[p].Idle? }

  predicate Owns(s: State, p: nat, h: nat) { s.live.Some? && h in s.handles && s.handles[h] == p }

  /** A process starts, dies, runs on in a call, calls sem_create, or, with a handle of
      its own, sem_op or sem_close; or anyone between calls removes the set outright. */
  datatype Event =
    | Start | Death | Run | Create(init: nat) | Op(h: nat, value: int) | Close(h: nat) | Rm

  predicate Step(s: State, e: Event, p: nat, s': State) {
    match e
    case Start => p !in s.procs && s' == Goto(s, p, Idle)
    case Death => p in s.procs && s' == Die(s, p)
    case Run => p in s.procs && Enabled(s, p) && s' == Exec(s, p)
    case Create(init) => IsIdle(s, p) && s' == Goto(s, p, CGet(init))
    case Op(h, value) =>
      && IsIdle(s, p) && Owns(s, p, h)
      && s' == if value == 0 then Die(s, p) else After(s, p, OpOp(value))
    case Close(h) => IsIdle(s, p) && Owns(s, p, h) && s' == Goto(s, p, XLock(s.live.value, h))
    case Rm => IsIdle(s, p) && s.live.Some? && s' == Remove(s)
  }

  predicate Init(s: State) {
    s == State(None, ZERO, map[], 0, map[], map[], 0, false, None)
  }

  predicate IsRun(run: seq<State>, what: seq<Event>, who: seq<nat>) {
    && |run| == |who| + 1 && |what| == |who| && Init(run[0])
    && forall i :: 0 <= i < |who| ==> Step(run[i], what[i], who[i], run[i + 1])
  }
}

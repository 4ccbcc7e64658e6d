/** threads/mutex2.c run by any number of threads: every lock, unlock and access to a
    shared field is one step. `chains` and `refs` are history that no step reads. */
module Mutex2 {
  import opened Lists
  import opened Foo

  datatype Obj = Obj(count: int, id: int, next: nat)

  /** One outstanding reference, and the thread that holds it. */
  datatype Ref = Ref(owner: nat, obj: nat)

  /** A call; `k` names the caller's own reference that makes the call legitimate, and
      for foo_rele the one that it gives up. */
  datatype Op = OpAlloc(id: int) | OpHold(o: nat, k: nat) | OpFind(id: int) | OpRele(o: nat, k: nat)

  datatype Pc =
    | Idle
    // foo_alloc
    | AMalloc | ALockH(o: nat) | ASetNext(o: nat) | ALink(o: nat) | ALockF(o: nat) | AUnlockH(o: nat) | AUnlockF(o: nat)
    // foo_hold
    | HLock | HInc | HUnlock
    // foo_find
    | FLockH | FHead | FWalk(fp: nat, j: nat) | FLockF(fp: nat, j: nat) | FInc(fp: nat,
        j: nat) | FUnlockF(fp: nat) | FUnlockH(fp: nat)
    // foo_rele
    | RLock1 | RCheck1 | RDec1 | RUnlockF1
    | RUnlock1 | RLockH | RLock2 | RCheck2 | RDec2 | RUnlockF2 | RUnlockH2
    | RFirst | RSetHead | RWalk(tfp: nat, j: nat) | RSetNext(tfp: nat, j: nat) | RUnlockH3 | RUnlockF3 | RFree

  datatype Thread = Thread(op: Op, pc: Pc)

  datatype State = State(
    fh: seq<nat>, objs: map<nat, Obj>, hash: Option<nat>, fl: map<nat, nat>,
    threads: map<nat, Thread>, chains: seq<seq<nat>>, refs: map<nat, Ref>, nextKey: nat)

  // -- Actions ---------------------------------------------------------------------------

  function Goto(s: State, t: nat, op: Op, pc: Pc): State { s.(threads := s.threads[t := Thread(op, pc)]) }

  function Next(s: State, o: nat): nat { if o in s.objs then s.objs[o].next else 0 }

  function Count(s: State, o: nat): int { if o in s.objs then s.objs[o].count else 0 }

  function IdOf(s: State, o: nat): int { if o in s.objs then s.objs[o].id else 0 }

  function HeadOf(s: State, h: nat): nat { if h < |s.fh| then s.fh[h] else 0 }

  function SetHead(s: State, h: nat, o: nat): State { if h < |s.fh| then s.(fh := s.fh[h := o]) else s }

  function SetNext(s: State, o: nat, v: nat): State {
    if o in s.objs then s.(objs := s.objs[o := s.objs[o].(next := v)]) else s
  }

  function Add(s: State, o: nat, d: int): State {
    if o in s.objs then s.(objs := s.objs[o := s.objs[o].(count := s.objs[o].count + d)]) else s
  }

  function LockF(s: State, t: nat, o: nat): State { s.(fl := s.fl[o := t]) }

  function UnlockF(s: State, o: nat): State { s.(fl := s.fl - {o}) }

  /** History: a reference comes into being, or goes. */
  function NewRef(s: State, t: nat, o: nat): State {
    s.(refs := s.refs[s.nextKey := Ref(t, o)], nextKey := s.nextKey + 1)
  }

  function DropRef(s: State, k: nat): State { s.(refs := s.refs - {k}) }

  /** History: an object joins its chain at the front, or leaves position `j`. */
  function Joined(s: State, h: nat, o: nat): State {
    if h < |s.chains| then s.(chains := s.chains[h := [o] + s.chains[h]]) else s
  }

  function Left(s: State, h: nat, j: nat): State {
    if h < |s.chains| && j < |s.chains[h]| then s.(chains := s.chains[h := Without(s.chains[h], j)]) else s
  }

  // -- One step --------------------------------------------------------------------------

  /** Only mutexes make a thread wait; malloc is an event of its own. */
  predicate Enabled(s: State, t: nat)
    requires t in s.threads
  {
    var Thread(op, pc) := s.threads[t];
    match pc
    case Idle => false
    case AMalloc => false
    case ALockH(_) => s.hash.None?
    case FLockH => s.hash.None?
    case RLockH => s.hash.None?
    case ALockF(o) => o !in s.fl
    case FLockF(fp, _) => fp !in s.fl
    case HLock => op.OpHold? && op.o !in s.fl
    case RLock1 => op.OpRele? && op.o !in s.fl
    case RLock2 => op.OpRele? && op.o !in s.fl
    case _ => true
  }

  function ExecAlloc(s: State, t: nat, op: Op, pc: Pc): State
    requires op.OpAlloc?
  {
    var h := HashId(op.id);
    match pc
    case ALockH(o) => Goto(s.(hash := Some(t)), t, op, ASetNext(o))
    case ASetNext(o) => Goto(SetNext(s, o, HeadOf(s, h)), t, op, ALink(o))
    case ALink(o) => Goto(NewRef(Joined(SetHead(s, h, o), h, o), t, o), t, op, ALockF(o))
    case ALockF(o) => Goto(LockF(s, t, o), t, op, AUnlockH(o))
    case AUnlockH(o) => Goto(s.(hash := None), t, op, AUnlockF(o))
    case AUnlockF(o) => Goto(UnlockF(s, o), t, op, Idle)
    case _ => s
  }

  function ExecHold(s: State, t: nat, op: Op, pc: Pc): State
    requires op.OpHold?
  {
    match pc
    case HLock => Goto(LockF(s, t, op.o), t, op, HInc)
    case HInc => Goto(NewRef(Add(s, op.o, 1), t, op.o), t, op, HUnlock)
    case HUnlock => Goto(UnlockF(s, op.o), t, op, Idle)
    case _ => s
  }

  function ExecFind(s: State, t: nat, op: Op, pc: Pc): State
    requires op.OpFind?
  {
    match pc
    case FLockH => Goto(s.(hash := Some(t)), t, op, FHead)
    case FHead => Goto(s, t, op, FWalk(HeadOf(s, HashId(op.id)), 0))
    case FWalk(fp, j) =>
      if fp == 0 then Goto(s, t, op, FUnlockH(0))
      else if IdOf(s, fp) == op.id then Goto(s, t, op, FLockF(fp, j))
      else Goto(s, t, op, FWalk(Next(s, fp), j + 1))
    case FLockF(fp, j) => Goto(LockF(s, t, fp), t, op, FInc(fp, j))
    case FInc(fp, _) => Goto(NewRef(Add(s, fp, 1), t, fp), t, op, FUnlockF(fp))
    case FUnlockF(fp) => Goto(UnlockF(s, fp), t, op, FUnlockH(fp))
    case FUnlockH(_) => Goto(s.(hash := None), t, op, Idle)
    case _ => s
  }

  function ExecRele(s: State, t: nat, op: Op, pc: Pc): State
    requires op.OpRele?
  {
    var o, h := op.o, HashId(IdOf(s, op.o));
    match pc
    case RLock1 => Goto(LockF(s, t, o), t, op, RCheck1)
    case RCheck1 => Goto(s, t, op, if Count(s, o) == 1 then RUnlock1 else RDec1)
    case RDec1 => Goto(DropRef(Add(s, o, -1), op.k), t, op, RUnlockF1)
    case RUnlockF1 => Goto(UnlockF(s, o), t, op, Idle)
    case RUnlock1 => Goto(UnlockF(s, o), t, op, RLockH)
    case RLockH => Goto(s.(hash := Some(t)), t, op, RLock2)
    case RLock2 => Goto(LockF(s, t, o), t, op, RCheck2)
    case RCheck2 => Goto(s, t, op, if Count(s, o) != 1 then RDec2 else RFirst)
    case RDec2 => Goto(DropRef(Add(s, o, -1), op.k), t, op, RUnlockF2)
    case RUnlockF2 => Goto(UnlockF(s, o), t, op, RUnlockH2)
    case RUnlockH2 => Goto(s.(hash := None), t, op, Idle)
    case RFirst => Goto(s, t, op, if HeadOf(s, h) == o then RSetHead else RWalk(HeadOf(s, h), 0))
    case RSetHead => Goto(DropRef(Left(SetHead(s, h, Next(s, o)), h, 0), op.k), t, op, RUnlockH3)
    case RWalk(tfp, j) => Goto(s, t, op, if Next(s, tfp) == o then RSetNext(tfp, j) else RWalk(Next(s, tfp), j + 1))
    case RSetNext(tfp, j) => Goto(DropRef(Left(SetNext(s, tfp, Next(s, o)), h, j + 1), op.k), t, op, RUnlockH3)
    case RUnlockH3 => Goto(s.(hash := None), t, op, RUnlockF3)
    case RUnlockF3 => Goto(UnlockF(s, o), t, op, RFree)
    case RFree => Goto(s.(objs := s.objs - {o}), t, op, Idle)
    case _ => s
  }

  function Exec(s: State, t: nat): State
    requires t in s.threads
  {
    var Thread(op, pc) := s.threads[t];
    match op
    case OpAlloc(_) => ExecAlloc(s, t, op, pc)
    case OpHold(_, _) => ExecHold(s, t, op, pc)
    case OpFind(_) => ExecFind(s, t, op, pc)
    case OpRele(_, _) => ExecRele(s, t, op, pc)
  }

  /** The object that the next step of a thread reads, writes, locks or unlocks. */
  function Touches(op: Op, pc: Pc): Option<nat> {
    match pc
    case Idle => None
    case AMalloc => None
    case ALockH(_) => None
    case ASetNext(o) => Some(o)
    case ALink(_) => None
    case ALockF(o) => Some(o)
    case AUnlockH(_) => None
    case AUnlockF(o) => Some(o)
    case FLockH => None
    case FHead => None
    case FWalk(fp, _) => if fp == 0 then None else Some(fp)
    case FLockF(fp, _) => Some(fp)
    case FInc(fp, _) => Some(fp)
    case FUnlockF(fp) => Some(fp)
    case FUnlockH(_) => None
    case RLockH => None
    case RUnlockH2 => None
    case RUnlockH3 => None
    case RWalk(tfp, _) => Some(tfp)
    case RSetNext(tfp, _) => Some(tfp)
    case _ => if op.OpHold? || op.OpRele? then Some(op.o) else None
  }

  // -- Runs ------------------------------------------------------------------------------

  /** Besides running on, a thread can have malloc succeed or foo_alloc fail, call an
      operation, or, between calls, hand a reference of its own to another thread. */
  datatype Event = Run | Malloc(o: nat) | NoMemory | Call(op: Op) | Give(k: nat, to: nat)

  /** malloc gives a thread some address that is not in use. */
  function DoMalloc(s: State, t: nat, o: nat): State
    requires t in s.threads && s.threads[t].op.OpAlloc?
  {
    Goto(s.(objs := s.objs[o := Obj(1, s.threads[t].op.id, 0)]), t, s.threads[t].op, ALockH(o))
  }

  /** A thread calls foo_hold and foo_rele only on objects it holds a reference to. */
  predicate Allowed(s: State, t: nat, op: Op) {
    op.OpHold? || op.OpRele? ==> op.k in s.refs && s.refs[op.k] == Ref(t, op.o)
  }

  function Start(op: Op): Pc {
    match op
    case OpAlloc(_) => AMalloc
    case OpHold(_, _) => HLock
    case OpFind(_) => FLockH
    case OpRele(_, _) => RLock1
  }

  predicate Step(s: State, e: Event, t: nat, s': State) {
    match e
    case Run => t in s.threads && Enabled(s, t) && s' == Exec(s, t)
    case Malloc(o) =>
      && t in s.threads && s.threads[t].pc.AMalloc? && s.threads[t].op.OpAlloc? && o != 0 && o !in s.objs
      && s' == DoMalloc(s, t, o)
    case NoMemory => t in s.threads && s.threads[t].pc.AMalloc? && s' == Goto(s, t, s.threads[t].op, Idle)
    case Call(op) =>
      (t in s.threads ==> s.threads[t].pc.Idle?) && Allowed(s, t, op) && s' == Goto(s, t, op, Start(op))
    case Give(k, to) =>
      && (t in s.threads ==> s.threads[t].pc.Idle?) && k in s.refs && s.refs[k].owner == t
      && s' == s.(refs := s.refs[k := Ref(to, s.refs[k].obj)])
  }

  predicate Init(s: State) {
    && s.fh == seq(NHASH, _ => 0) && s.objs == map[] && s.hash.None? && s.fl == map[] && s.threads == map[]
    && s.chains == Empty().chains && s.refs == map[] && s.nextKey == 0
  }

  /** An interleaving: thread `who[i]` takes the step from `run[i]` to `run[i + 1]`. */
  predicate IsRun(run: seq<State>, what: seq<Event>, who: seq<nat>) {
    && |run| == |who| + 1 && |what| == |who| && Init(run[0])
    && forall i :: 0 <= i < |who| ==> Step(run[i], what[i], who[i], run[i + 1])
  }
}

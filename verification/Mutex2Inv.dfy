/** What every step of every thread keeps. */
module Mutex2Inv {
  import opened Lists
  import opened Foo
  import opened Mutex2

  // -- Locks follow from program points --------------------------------------------------

  predicate HoldsHash(pc: Pc) {
    || pc.ASetNext? || pc.ALink? || pc.ALockF? || pc.AUnlockH?
    || pc.FHead? || pc.FWalk? || pc.FLockF? || pc.FInc? || pc.FUnlockF? || pc.FUnlockH?
    || pc.RLock2? || pc.RCheck2? || pc.RDec2? || pc.RUnlockF2? || pc.RUnlockH2?
    || pc.RFirst? || pc.RSetHead? || pc.RWalk? || pc.RSetNext? || pc.RUnlockH3?
  }

  /** The object whose f_lock a thread holds; no thread ever holds two. */
  function Holds(op: Op, pc: Pc): Option<nat> {
    match pc
    case AUnlockH(o) => Some(o)
    case AUnlockF(o) => Some(o)
    case FInc(fp, _) => Some(fp)
    case FUnlockF(fp) => Some(fp)
    case _ =>
      if || (op.OpHold? && (pc.HInc? || pc.HUnlock?))
         || (op.OpRele? && (|| pc.RCheck1? || pc.RDec1? || pc.RUnlockF1? || pc.RUnlock1?
                            || pc.RCheck2? || pc.RDec2? || pc.RUnlockF2? || pc.RFirst? || pc.RSetHead?
                            || pc.RWalk? || pc.RSetNext? || pc.RUnlockH3? || pc.RUnlockF3?))
      then Some(op.o) else None
  }

  predicate HasF(th: Thread, o: nat) { Holds(th.op, th.pc) == Some(o) }

  predicate FlOk(s: State, o: nat)
    requires o in s.fl
  {
    s.fl[o] in s.threads && HasF(s.threads[s.fl[o]], o)
  }

  predicate HoldOk(s: State, t: nat)
    requires t in s.threads
  {
    && (HoldsHash(s.threads[t].pc) ==> s.hash == Some(t))
    && (Holds(s.threads[t].op, s.threads[t].pc).Some? ==>
          var o := Holds(s.threads[t].op, s.threads[t].pc).value;
          o in s.fl && s.fl[o] == t)
  }

  /** The mutexes say exactly what the program points say. */
  ghost predicate LocksOk(s: State) {
    && (s.hash.Some? ==> s.hash.value in s.threads && HoldsHash(s.threads[s.hash.value].pc))
    && (forall o {:trigger FlOk(s, o)} :: o in s.fl ==> FlOk(s, o))
    && (forall t {:trigger HoldOk(s, t)} :: t in s.threads ==> HoldOk(s, t))
  }

  // -- The table -------------------------------------------------------------------------

  predicate NodeOk(s: State, h: nat, j: nat)
    requires h < |s.chains| && j < |s.chains[h]|
  {
    var o := s.chains[h][j];
    o != 0 && o in s.objs && HashId(s.objs[o].id) == h && s.objs[o].next == At(s.chains[h], j + 1)
  }

  predicate ChainOk(s: State, h: nat)
    requires h < |s.chains| && h < |s.fh|
  {
    && NoDup(s.chains[h]) && s.fh[h] == At(s.chains[h], 0)
    && forall j {:trigger NodeOk(s, h, j)} :: 0 <= j < |s.chains[h]| ==> NodeOk(s, h, j)
  }

  /** The pointers lead along the chains, each object on the chain of its id. */
  predicate TableOk(s: State) {
    && |s.fh| == NHASH && |s.chains| == NHASH
    && forall h {:trigger ChainOk(s, h)} :: 0 <= h < NHASH ==> ChainOk(s, h)
  }

  function ChainOf(s: State, id: int): seq<nat> {
    if HashId(id) < |s.chains| then s.chains[HashId(id)] else []
  }

  predicate Linked(s: State, o: nat) { o in s.objs && o in ChainOf(s, s.objs[o].id) }

  // -- References ------------------------------------------------------------------------

  function RefsTo(refs: map<nat, Ref>, o: nat): set<nat> { set k | k in refs && refs[k].obj == o }

  predicate RefOk(s: State, k: nat)
    requires k in s.refs
  {
    k < s.nextKey && Linked(s, s.refs[k].obj)
  }

  predicate CountOk(s: State, o: nat) { Linked(s, o) ==> s.objs[o].count == |RefsTo(s.refs, o)| }

  /** Only objects on chains are referred to, and f_count counts the references. */
  predicate RefsOk(s: State) {
    && (forall k {:trigger RefOk(s, k)} :: k in s.refs ==> RefOk(s, k))
    && (forall o {:trigger CountOk(s, o)} :: o in s.objs ==> CountOk(s, o))
  }

  predicate HasRef(s: State, t: nat, op: Op) {
    (op.OpHold? || op.OpRele?) && op.k in s.refs && s.refs[op.k] == Ref(t, op.o)
  }

  // -- Threads ---------------------------------------------------------------------------

  /** The object only this thread knows: not yet, or no longer, in the table. */
  function Priv(op: Op, pc: Pc): Option<nat> {
    match pc
    case ALockH(o) => Some(o)
    case ASetNext(o) => Some(o)
    case ALink(o) => Some(o)
    case _ => if op.OpRele? && (pc.RUnlockH3? || pc.RUnlockF3? || pc.RFree?) then Some(op.o) else None
  }

  predicate Loner(s: State, o: nat) { o in s.objs && !Linked(s, o) }

  predicate Newborn(s: State, o: nat, id: int) {
    o != 0 && Loner(s, o) && s.objs[o].id == id && s.objs[o].count == 1
  }

  predicate Skipped(s: State, c: seq<nat>, id: int, j: nat) {
    j <= |c| && forall n :: 0 <= n < j ==> c[n] in s.objs && s.objs[c[n]].id != id
  }

  predicate AllocOk(s: State, op: Op, pc: Pc)
    requires op.OpAlloc?
  {
    match pc
    case Idle => true
    case AMalloc => true
    case ALockH(o) => Newborn(s, o, op.id)
    case ASetNext(o) => Newborn(s, o, op.id)
    case ALink(o) => Newborn(s, o, op.id) && s.objs[o].next == HeadOf(s, HashId(op.id))
    case ALockF(o) => Linked(s, o)
    case AUnlockH(o) => Linked(s, o)
    case AUnlockF(o) => Linked(s, o)
    case _ => false
  }

  predicate HoldPcOk(s: State, t: nat, op: Op, pc: Pc)
    requires op.OpHold?
  {
    match pc
    case Idle => true
    case HLock => HasRef(s, t, op)
    case HInc => HasRef(s, t, op)
    case HUnlock => Linked(s, op.o)
    case _ => false
  }

  predicate FindOk(s: State, op: Op, pc: Pc)
    requires op.OpFind?
  {
    var c := ChainOf(s, op.id);
    match pc
    case Idle => true
    case FLockH => true
    case FHead => true
    case FWalk(fp, j) => Skipped(s, c, op.id, j) && fp == At(c, j)
    case FLockF(fp, j) => Skipped(s, c, op.id, j) && fp == At(c, j) && Linked(s, fp) && s.objs[fp].id == op.id
    case FInc(fp, j) => Skipped(s, c, op.id, j) && fp == At(c, j) && Linked(s, fp) && s.objs[fp].id == op.id
    case FUnlockF(fp) => Linked(s, fp)
    case FUnlockH(_) => true
    case _ => false
  }

  /** The last reference is the caller's own, and no other can appear. */
  predicate Last(s: State, t: nat, op: Op) { HasRef(s, t, op) && Count(s, op.o) == 1 }

  predicate ReleOk(s: State, t: nat, op: Op, pc: Pc)
    requires op.OpRele?
  {
    var c := ChainOf(s, IdOf(s, op.o));
    match pc
    case Idle => true
    case RLock1 => HasRef(s, t, op)
    case RCheck1 => HasRef(s, t, op)
    case RDec1 => HasRef(s, t, op) && Count(s, op.o) != 1
    case RUnlockF1 => Linked(s, op.o)
    case RUnlock1 => HasRef(s, t, op)
    case RLockH => HasRef(s, t, op)
    case RLock2 => HasRef(s, t, op)
    case RCheck2 => HasRef(s, t, op)
    case RDec2 => HasRef(s, t, op) && Count(s, op.o) != 1
    case RUnlockF2 => Linked(s, op.o)
    case RUnlockH2 => true
    case RFirst => Last(s, t, op)
    case RSetHead => Last(s, t, op) && |c| > 0 && c[0] == op.o
    case RWalk(tfp, j) => Last(s, t, op) && j < IndexOf(c, op.o) && tfp == c[j]
    case RSetNext(tfp, j) => Last(s, t, op) && j + 1 < |c| && tfp == c[j] && c[j + 1] == op.o
    case RUnlockH3 => Loner(s, op.o)
    case RUnlockF3 => Loner(s, op.o)
    case RFree => Loner(s, op.o)
    case _ => false
  }

  predicate PcOk(s: State, t: nat, op: Op, pc: Pc) {
    match op
    case OpAlloc(_) => AllocOk(s, op, pc)
    case OpHold(_, _) => HoldPcOk(s, t, op, pc)
    case OpFind(_) => FindOk(s, op, pc)
    case OpRele(_, _) => ReleOk(s, t, op, pc)
  }

  predicate ThreadOk(s: State, t: nat)
    requires t in s.threads
  {
    PcOk(s, t, s.threads[t].op, s.threads[t].pc)
  }

  predicate PrivOf(s: State, t: nat, o: nat) { t in s.threads && Priv(s.threads[t].op, s.threads[t].pc) == Some(o) }

  /** No object is private to two threads. */
  predicate PairOk(s: State, t: nat, u: nat)
    requires t in s.threads
  {
    Priv(s.threads[t].op, s.threads[t].pc).Some? ==> !PrivOf(s, u, Priv(s.threads[t].op, s.threads[t].pc).value)
  }

  /** Nothing leaks: an object outside the table is some thread's to link or to free. */
  ghost predicate Owned(s: State, o: nat) { Linked(s, o) || exists t :: PrivOf(s, t, o) }

  ghost predicate Inv(s: State) {
    && TableOk(s) && RefsOk(s) && LocksOk(s)
    && (forall t {:trigger ThreadOk(s, t)} :: t in s.threads ==> ThreadOk(s, t))
    && (forall t, u {:trigger PairOk(s, t, u)} :: t in s.threads && u != t ==> PairOk(s, t, u))
    && (forall o {:trigger Owned(s, o)} :: o in s.objs ==> Owned(s, o))
  }

  // -- What a thread relies on -----------------------------------------------------------

  predicate SameObj(s: State, s': State, o: nat) {
    && o in s.objs && o in s'.objs && s'.objs[o].id == s.objs[o].id
    && (Linked(s', o) <==> Linked(s, o))
  }

  /** What the other threads leave alone: a thread's references, the table while it holds
      hashlock, an object while it holds its f_lock, and its private object. */
  ghost predicate Rely(s: State, s': State, u: nat)
    requires u in s.threads
  {
    var Thread(op, pc) := s.threads[u];
    && u in s'.threads && s'.threads[u] == s.threads[u]
    && (forall k :: k in s.refs && s.refs[k].owner == u ==> k in s'.refs && s'.refs[k] == s.refs[k])
    && (HoldsHash(pc) ==>
          && s'.chains == s.chains && s'.fh == s.fh
          && (forall o {:trigger SameObj(s, s', o)} :: Linked(s, o) ==> SameObj(s, s', o)))
    && (forall o :: Holds(op, pc) == Some(o) && o in s.objs ==>
          SameObj(s, s', o) && s'.objs[o].count == s.objs[o].count)
    && (forall o :: Priv(op, pc) == Some(o) && o in s.objs ==>
          SameObj(s, s', o) && s'.objs[o] == s.objs[o])
  }

  lemma RelyAlloc(s: State, s': State, u: nat)
    requires u in s.threads && Rely(s, s', u) && s.threads[u].op.OpAlloc? && ThreadOk(s, u)
    ensures ThreadOk(s', u)
  {
    var Thread(op, pc) := s.threads[u];
    assert pc.ALockF? && Linked(s, pc.o) ==> SameObj(s, s', pc.o);
  }

  lemma RelyFind(s: State, s': State, u: nat)
    requires u in s.threads && Rely(s, s', u) && s.threads[u].op.OpFind? && ThreadOk(s, u) && TableOk(s)
    ensures ThreadOk(s', u)
  {
    var Thread(op, pc) := s.threads[u];
    var h, c := HashId(op.id), ChainOf(s, op.id);
    if pc.FWalk? || pc.FLockF? || pc.FInc? {
      assert ChainOk(s, h);
      forall n | 0 <= n < pc.j ensures c[n] in s'.objs && s'.objs[c[n]].id != op.id {
        assert NodeOk(s, h, n);
        assert SameObj(s, s', c[n]);
      }
      assert Linked(s, pc.fp) ==> SameObj(s, s', pc.fp);
    }
  }

  lemma RelyRele(s: State, s': State, u: nat)
    requires u in s.threads && Rely(s, s', u) && s.threads[u].op.OpRele? && ThreadOk(s, u) && RefsOk(s)
    ensures ThreadOk(s', u)
  {
    var Thread(op, pc) := s.threads[u];
    assert op.k in s.refs ==> RefOk(s, op.k);
  }

  lemma RelyOk(s: State, s': State, u: nat)
    requires u in s.threads && Rely(s, s', u) && ThreadOk(s, u) && TableOk(s) && RefsOk(s)
    ensures ThreadOk(s', u)
  {
    match s.threads[u].op
    case OpAlloc(_) => RelyAlloc(s, s', u);
    case OpHold(_, _) =>
    case OpFind(_) => RelyFind(s, s', u);
    case OpRele(_, _) => RelyRele(s, s', u);
  }

  // -- Mutual exclusion ------------------------------------------------------------------

  lemma Exclusive(s: State, t: nat, u: nat)
    requires LocksOk(s) && t in s.threads && u in s.threads && t != u
    ensures !(HoldsHash(s.threads[t].pc) && HoldsHash(s.threads[u].pc))
    ensures forall o :: !(HasF(s.threads[t], o) && HasF(s.threads[u], o))
  {
    assert HoldOk(s, t) && HoldOk(s, u);
  }

  // -- Putting a step together -----------------------------------------------------------

  /** Thread `t` moved on from `s` and nobody else did. */
  predicate Moved(s: State, s': State, t: nat) {
    t in s.threads && t in s'.threads && s'.threads == s.threads[t := s'.threads[t]]
  }

  /** Objects come and go only as private objects of `t`. */
  ghost predicate Homes(s: State, s': State, t: nat) {
    && (forall o {:trigger Linked(s', o)} :: o in s'.objs ==>
        Linked(s', o) || PrivOf(s', t, o) || (o in s.objs && !Linked(s, o) && !PrivOf(s, t, o)))
    && (forall o :: PrivOf(s', t, o) ==> PrivOf(s, t, o) || Linked(s, o) || o !in s.objs)
  }

  lemma Assemble(s: State, s': State, t: nat)
    requires Inv(s) && Moved(s, s', t)
    requires TableOk(s') && RefsOk(s') && LocksOk(s') && ThreadOk(s', t) && Homes(s, s', t)
    requires forall u {:trigger Rely(s, s', u)} :: u in s.threads && u != t ==> Rely(s, s', u)
    ensures Inv(s')
  {
    hide TableOk, RefsOk, LocksOk, PcOk, Linked, Priv;
    forall u | u in s'.threads ensures ThreadOk(s', u) {
      if u != t {
        assert ThreadOk(s, u) && Rely(s, s', u);
        RelyOk(s, s', u);
      }
    }
    forall a, b: nat | a in s'.threads && b != a ensures PairOk(s', a, b) {
      if a != t && b != t { assert PairOk(s, a, b); } else { MinePair(s, s', t, if a == t then b else a); }
    }
    forall o | o in s'.objs ensures Owned(s', o) {
      if !Linked(s', o) && !PrivOf(s', t, o) {
        assert Owned(s, o);
        var u :| PrivOf(s, u, o);
        assert PrivOf(s', u, o);
      }
    }
  }

  lemma PrivLoner(s: State, u: nat, o: nat)
    requires u in s.threads && ThreadOk(s, u) && PrivOf(s, u, o)
    ensures Loner(s, o)
  {
    hide Linked, ChainOf;
  }

  lemma MinePair(s: State, s': State, t: nat, u: nat)
    requires Inv(s) && Moved(s, s', t) && Homes(s, s', t) && u != t
    ensures u in s'.threads ==> PairOk(s', u, t)
    ensures PairOk(s', t, u)
  {
    hide TableOk, RefsOk, LocksOk, PcOk, Linked, Priv;
    if u in s.threads {
      assert PairOk(s, u, t) && PairOk(s, t, u) && ThreadOk(s, u);
      if o :| PrivOf(s', t, o) && PrivOf(s', u, o) {
        PrivLoner(s, u, o);
      }
    }
  }
}

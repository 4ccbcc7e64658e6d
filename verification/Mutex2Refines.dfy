/** Every run of mutex2.c is a run of the atomic operations that mutex3.c performs under
    its one lock: each call takes effect in exactly one of its own steps. */
module Mutex2Refines {
  import opened Lists
  import opened Foo
  import opened Mutex2
  import opened Mutex2Inv
  import opened Mutex2Steps
  import opened Mutex2Keeps
  import opened Mutex2Runs

  /** The table as a value: its chains, and f_count and f_id of the objects on them. */
  function Abs(s: State): Table {
    Table(s.chains, map o | o in s.objs && Linked(s, o) :: s.objs[o].count, map o | o in s.objs
        && Linked(s, o) :: s.objs[o].id)
  }

  /** What a call is going to return (0 for NULL and for no value), once it has taken
      effect. */
  function Done(op: Op, pc: Pc): Option<nat> {
    match pc
    case ALockF(o) => Some(o)
    case AUnlockH(o) => Some(o)
    case AUnlockF(o) => Some(o)
    case HUnlock => Some(0)
    case FUnlockF(fp) => Some(fp)
    case FUnlockH(fp) => Some(fp)
    case _ =>
      if || pc.RUnlockF1? || pc.RUnlockF2? || pc.RUnlockH2? || pc.RUnlockH3? || pc.RUnlockF3? || pc.RFree?
      then Some(0) else None
  }

  function DoneBy(s: State, t: nat): Option<nat> {
    if t in s.threads then Done(s.threads[t].op, s.threads[t].pc) else None
  }

  /** A call returning `r` as one change of the table; None when the call cannot be made
      or cannot return that. */
  function Apply(x: Table, op: Op, r: nat): Option<Table>
    requires |x.chains| == NHASH
  {
    match op
    case OpAlloc(id) => if r != 0 && r !in x.ids && r !in x.cnt then Some(Alloc(x, id, r)) else None
    case OpHold(o, _) => if o in x.cnt && r == 0 then Some(Hold(x, o)) else None
    case OpFind(id) => if r == (if Find(x, id).1.Some? then Find(x, id).1.value else 0) then Some(Find(x, id).0)
        else None
    case OpRele(o, _) => if o in x.cnt && o in x.ids && r == 0 then Some(Rele(x, o)) else None
  }

  // -- Steps that change the table -------------------------------------------------------

  lemma AllocEffect(s: State, t: nat)
    requires Ready(s, t) && s.threads[t].pc.ALink?
    ensures |s.chains| == NHASH && Apply(Abs(s), s.threads[t].op, s.threads[t].pc.o) == Some(Abs(Exec(s, t)))
  {
    assert ThreadOk(s, t);
    var s', op, o := Exec(s, t), s.threads[t].op, s.threads[t].pc.o;
    var h := HashId(op.id);
    assert ChainOk(s, h);
    assert s'.objs == s.objs && s'.chains == s.chains[h := [o] + s.chains[h]];
    hide Exec, Inv, TableOk, RefsOk;
    forall p ensures Linked(s', p) <==> Linked(s, p) || p == o {}
    JoinMaps(s, s', o);
    hide Linked;
  }

  lemma JoinMaps(s: State, s': State, o: nat)
    requires s'.objs == s.objs && o in s.objs && !Linked(s, o) && forall p :: Linked(s', p) <==> Linked(s, p) || p == o
    ensures Abs(s').cnt == Abs(s).cnt[o := s.objs[o].count] && Abs(s').ids == Abs(s).ids[o := s.objs[o].id]
  {
    hide Linked;
  }

  lemma UpEffect(s: State, s': State, o: nat)
    requires Counted(s, s', o) && TableOk(s) && Linked(s, o) && s'.objs[o].count == s.objs[o].count + 1
    ensures o in Abs(s).cnt && Abs(s') == Hold(Abs(s), o)
  {
    CountMaps(s, s', o);
    hide Linked, TableOk;
  }

  lemma CountMaps(s: State, s': State, o: nat)
    requires Counted(s, s', o) && TableOk(s) && Linked(s, o)
    ensures o in Abs(s).cnt && o in Abs(s).ids && Abs(s).cnt[o] == s.objs[o].count
    ensures Abs(s') == Abs(s).(cnt := Abs(s).cnt[o := s'.objs[o].count])
  {
    CountedTable(s, s', o);
    hide Linked, TableOk;
    assert s'.objs.Keys == s.objs.Keys;
    assert forall p :: p in s.objs && p != o ==> s'.objs[p] == s.objs[p];
    hide Counted;
    SameIds(s, s', o);
    assert Abs(s').cnt == Abs(s).cnt[o := s'.objs[o].count];
  }

  lemma SameIds(s: State, s': State, o: nat)
    requires s'.objs.Keys == s.objs.Keys && o in s.objs && s'.objs[o].id == s.objs[o].id
    requires forall p :: p in s.objs && p != o ==> s'.objs[p] == s.objs[p]
    requires forall p :: Linked(s', p) == Linked(s, p)
    ensures Abs(s').ids == Abs(s).ids
  {
    hide Linked;
  }

  lemma HoldEffect(s: State, t: nat)
    requires Ready(s, t) && s.threads[t].pc.HInc?
    ensures |s.chains| == NHASH && Apply(Abs(s), s.threads[t].op, 0) == Some(Abs(Exec(s, t)))
  {
    assert ThreadOk(s, t);
    assert RefOk(s, s.threads[t].op.k);
    UpEffect(s, Exec(s, t), s.threads[t].op.o);
  }

  /** The walk of foo_find finds what the first-match search finds. */
  lemma FirstAt(s: State, id: int, j: nat)
    requires TableOk(s) && Skipped(s, ChainOf(s, id), id, j)
    requires j == |ChainOf(s, id)| || (ChainOf(s, id)[j] in s.objs && s.objs[ChainOf(s, id)[j]].id == id)
    ensures FirstWith(ChainOf(s, id), Abs(s).ids, id) == j
  {
    var c := ChainOf(s, id);
    forall k | 0 <= k < |c| ensures c[k] in Abs(s).ids && c[k] in s.objs && Abs(s).ids[c[k]] == s.objs[c[k]].id {
      OnChain(s, HashId(id), k);
    }
  }

  lemma FindEffect(s: State, t: nat)
    requires Ready(s, t) && s.threads[t].pc.FInc?
    ensures |s.chains| == NHASH && Apply(Abs(s), s.threads[t].op, s.threads[t].pc.fp) == Some(Abs(Exec(s, t)))
  {
    assert ThreadOk(s, t);
    var s', op, pc := Exec(s, t), s.threads[t].op, s.threads[t].pc;
    assert Counted(s, s', pc.fp) && s'.objs[pc.fp].count == s.objs[pc.fp].count + 1;
    hide Inv, Exec, RefsOk, LocksOk;
    InTable(s, t);
    UpEffect(s, s', pc.fp);
    NotNull(s, op.id, pc.fp);
    FirstAt(s, op.id, pc.j);
    hide Abs, Linked, TableOk, FirstWith, Counted;
  }

  lemma InTable(s: State, t: nat)
    requires Inv(s)
    ensures TableOk(s) && |s.chains| == NHASH
  {
  }

  lemma NotNull(s: State, id: int, o: nat)
    requires TableOk(s) && Linked(s, o) && s.objs[o].id == id
    ensures o != 0
  {
    var h := HashId(id);
    assert ChainOk(s, h);
    var k :| 0 <= k < |s.chains[h]| && s.chains[h][k] == o;
    assert NodeOk(s, h, k);
  }

  lemma MissEffect(s: State, t: nat)
    requires Ready(s, t) && s.threads[t].pc.FWalk? && s.threads[t].pc.fp == 0
    ensures |s.chains| == NHASH && Apply(Abs(s), s.threads[t].op, 0) == Some(Abs(Exec(s, t)))
  {
    assert ThreadOk(s, t);
    var s', op, pc := Exec(s, t), s.threads[t].op, s.threads[t].pc;
    var h := HashId(op.id);
    assert ChainOk(s, h);
    assert pc.j < |s.chains[h]| ==> NodeOk(s, h, pc.j);
    FirstAt(s, op.id, pc.j);
    SameAbs(s, s');
  }

  lemma SameAbs(s: State, s': State)
    requires SameCore(s, s')
    ensures Abs(s') == Abs(s)
  {
    SameLinked(s, s');
    hide Linked;
  }

  lemma OutsideAbs(s: State, s': State, o: nat)
    requires Outside(s, s', o)
    ensures Abs(s') == Abs(s)
  {
    forall p
      ensures Linked(s', p) == Linked(s, p)
      ensures Linked(s, p) ==> p in s'.objs && p in s.objs && s'.objs[p] == s.objs[p]
    {
      if p != o { OutsideObj(s, s', o, p); }
    }
    SameMaps(s, s');
  }

  lemma SameMaps(s: State, s': State)
    requires s'.chains == s.chains && forall p :: Linked(s', p) == Linked(s, p)
    requires forall p :: Linked(s, p) ==> p in s'.objs && p in s.objs && s'.objs[p] == s.objs[p]
    ensures Abs(s') == Abs(s)
  {
    hide Linked;
    assert Abs(s').cnt == Abs(s).cnt;
    assert Abs(s').ids == Abs(s).ids;
  }

  lemma ExecDec(s: State, t: nat, op: Op, pc: Pc)
    requires op.OpRele? && (pc.RDec1? || pc.RDec2?) && op.o in s.objs
    ensures var s' := ExecRele(s, t, op, pc);
            Counted(s, s', op.o) && s'.objs[op.o].count == s.objs[op.o].count - 1
  {
  }

  lemma DownEffect(s: State, s': State, o: nat)
    requires Counted(s, s', o) && TableOk(s) && Linked(s, o) && s'.objs[o].count == s.objs[o].count - 1
        && s.objs[o].count != 1
    ensures o in Abs(s).cnt && o in Abs(s).ids && Abs(s') == Rele(Abs(s), o)
  {
    CountMaps(s, s', o);
    hide Linked, TableOk, IndexOf, Abs;
  }

  lemma DecEffect(s: State, t: nat)
    requires Ready(s, t) && (s.threads[t].pc.RDec1? || s.threads[t].pc.RDec2?)
    ensures |s.chains| == NHASH && Apply(Abs(s), s.threads[t].op, 0) == Some(Abs(Exec(s, t)))
  {
    assert ThreadOk(s, t);
    var s', op, pc := Exec(s, t), s.threads[t].op, s.threads[t].pc;
    assert RefOk(s, op.k);
    ExecDec(s, t, op, pc);
    hide Exec, Inv, RefsOk;
    DownEffect(s, s', op.o);
  }

  lemma IndexUnique(c: seq<nat>, o: nat, j: nat)
    requires NoDup(c) && j < |c| && c[j] == o
    ensures IndexOf(c, o) == j
  {
  }

  lemma CutMaps(s: State, s': State, h: nat, o: nat)
    requires Rechained(s, s', h) && forall p :: Linked(s', p) <==> Linked(s, p) && p != o
    ensures Abs(s').cnt == Abs(s).cnt - {o} && Abs(s').ids == Abs(s).ids - {o}
  {
    hide Linked;
  }

  lemma CutEffect(s: State, s': State, h: nat, j: nat, o: nat)
    requires TableOk(s) && Rechained(s, s', h) && j < |s.chains[h]| && Cut(s, s', h, j) && s.chains[h][j] == o
    requires o in s.objs && s.objs[o].count == 1
    ensures o in Abs(s).cnt && o in Abs(s).ids && Abs(s') == Rele(Abs(s), o)
  {
    assert ChainOk(s, h);
    assert NodeOk(s, h, j);
    IndexUnique(s.chains[h], o, j);
    assert Linked(s, o);
    forall p ensures Linked(s', p) <==> Linked(s, p) && p != o { CutLinked(s, s', h, j, p); }
    CutMaps(s, s', h, o);
    hide Linked, TableOk, ChainOk, NodeOk, NoDup;
  }

  lemma UnlinkHead(s: State, t: nat)
    requires Ready(s, t) && s.threads[t].pc.RSetHead?
    ensures |s.chains| == NHASH && Apply(Abs(s), s.threads[t].op, 0) == Some(Abs(Exec(s, t)))
  {
    assert ThreadOk(s, t);
    var s', op := Exec(s, t), s.threads[t].op;
    ToUnlink(s, t);
    var h := HashId(s.objs[op.o].id);
    assert Rechained(s, s', h) && Cut(s, s', h, 0);
    hide Exec, Inv, Rechained, Cut, RefsOk, TableOk;
    CutEffect(s, s', h, 0, op.o);
  }

  lemma UnlinkLater(s: State, t: nat)
    requires Ready(s, t) && s.threads[t].pc.RSetNext?
    ensures |s.chains| == NHASH && Apply(Abs(s), s.threads[t].op, 0) == Some(Abs(Exec(s, t)))
  {
    assert ThreadOk(s, t);
    var s', op, j := Exec(s, t), s.threads[t].op, s.threads[t].pc.j;
    ToUnlink(s, t);
    var h := HashId(s.objs[op.o].id);
    assert NodeOk(s, h, j);
    assert Rechained(s, s', h) && Cut(s, s', h, j + 1);
    hide Exec, Inv, Rechained, Cut, RefsOk, TableOk;
    CutEffect(s, s', h, j + 1, op.o);
  }

  // -- Steps that do not -----------------------------------------------------------------

  predicate TakesEffect(pc: Pc) {
    || pc.ALink? || pc.HInc? || (pc.FWalk? && pc.fp == 0) || pc.FInc?
    || pc.RDec1? || pc.RDec2? || pc.RSetHead? || pc.RSetNext?
  }

  lemma AllocQuiet(s: State, t: nat)
    requires t in s.threads && ThreadOk(s, t) && !TakesEffect(s.threads[t].pc) && s.threads[t].op.OpAlloc?
    requires !s.threads[t].pc.ASetNext? && !s.threads[t].pc.RFree?
    ensures SameCore(s, Exec(s, t))
  {
    hide Linked, HasRef, Last, ChainOf, IndexOf, Loner, HashId, Newborn, Skipped, Add, NewRef, DropRef, Joined, Left,
         SetHead, SetNext, Next, IdOf, HeadOf, Count;
  }

  lemma HoldQuiet(s: State, t: nat)
    requires t in s.threads && ThreadOk(s, t) && !TakesEffect(s.threads[t].pc) && s.threads[t].op.OpHold?
    requires !s.threads[t].pc.ASetNext? && !s.threads[t].pc.RFree?
    ensures SameCore(s, Exec(s, t))
  {
    hide Linked, HasRef, Last, ChainOf, IndexOf, Loner, HashId, Newborn, Skipped, Add, NewRef, DropRef, Joined, Left,
         SetHead, SetNext, Next, IdOf, HeadOf, Count;
  }

  lemma FindQuiet(s: State, t: nat)
    requires t in s.threads && ThreadOk(s, t) && !TakesEffect(s.threads[t].pc) && s.threads[t].op.OpFind?
    requires !s.threads[t].pc.ASetNext? && !s.threads[t].pc.RFree?
    ensures SameCore(s, Exec(s, t))
  {
    hide Linked, HasRef, Last, ChainOf, IndexOf, Loner, HashId, Newborn, Skipped, Add, NewRef, DropRef, Joined, Left,
         SetHead, SetNext, Next, IdOf, HeadOf, Count;
  }

  lemma ReleQuiet(s: State, t: nat)
    requires t in s.threads && ThreadOk(s, t) && !TakesEffect(s.threads[t].pc) && s.threads[t].op.OpRele?
    requires !s.threads[t].pc.ASetNext? && !s.threads[t].pc.RFree?
    ensures SameCore(s, Exec(s, t))
  {
    hide Linked, HasRef, Last, ChainOf, IndexOf, Loner, HashId, Newborn, Skipped, Add, NewRef, DropRef, Joined, Left,
         SetHead, SetNext, Next, IdOf, HeadOf, Count;
  }

  lemma QuietCore(s: State, t: nat)
    requires t in s.threads && ThreadOk(s, t) && !TakesEffect(s.threads[t].pc)
    requires !s.threads[t].pc.ASetNext? && !s.threads[t].pc.RFree?
    ensures SameCore(s, Exec(s, t))
  {
    hide ThreadOk, TakesEffect, SameCore, Exec;
    match s.threads[t].op
    case OpAlloc(_) => AllocQuiet(s, t);
    case OpHold(_, _) => HoldQuiet(s, t);
    case OpFind(_) => FindQuiet(s, t);
    case OpRele(_, _) => ReleQuiet(s, t);
  }

  lemma QuietStep(s: State, t: nat)
    requires Ready(s, t) && !TakesEffect(s.threads[t].pc)
    ensures Abs(Exec(s, t)) == Abs(s)
  {
    assert ThreadOk(s, t);
    var s', op, pc := Exec(s, t), s.threads[t].op, s.threads[t].pc;
    if pc.ASetNext? {
      NotOnChain(s, pc.o, s.objs[pc.o].id);
      assert s'.objs - {pc.o} == s.objs - {pc.o};
      OutsideAbs(s, s', pc.o);
    } else if pc.RFree? {
      assert s'.objs - {op.o} == s.objs - {op.o};
      OutsideAbs(s, s', op.o);
    } else {
      QuietCore(s, t);
      SameAbs(s, s');
    }
  }

  lemma EffectStep(s: State, t: nat)
    requires Ready(s, t) && TakesEffect(s.threads[t].pc)
    requires DoneBy(Exec(s, t), t).Some?
    ensures |s.chains| == NHASH
    ensures Apply(Abs(s), s.threads[t].op, DoneBy(Exec(s, t), t).value) == Some(Abs(Exec(s, t)))
  {
    assert ThreadOk(s, t);
    var pc := s.threads[t].pc;
    assert pc.ALink? ==> DoneBy(Exec(s, t), t).value == pc.o;
    assert pc.FInc? ==> DoneBy(Exec(s, t), t).value == pc.fp;
    assert !pc.ALink? && !pc.FInc? ==> DoneBy(Exec(s, t), t).value == 0;
    hide Apply, Abs, Exec, DoneBy, Inv;
    match pc
    case ALink(_) => AllocEffect(s, t);
    case HInc => HoldEffect(s, t);
    case FWalk(_, _) => MissEffect(s, t);
    case FInc(_, _) => FindEffect(s, t);
    case RDec1 => DecEffect(s, t);
    case RDec2 => DecEffect(s, t);
    case RSetHead => UnlinkHead(s, t);
    case RSetNext(_, _) => UnlinkLater(s, t);
  }

  /** One step in the life of a call: undecided, then its one effect, then decided until
      it returns. */
  predicate Life(s: State, s': State, t: nat)
    requires t in s.threads
  {
    && t in s'.threads && s'.threads[t].op == s.threads[t].op
    && (TakesEffect(s.threads[t].pc) <==> DoneBy(s, t).None? && DoneBy(s', t).Some?)
    && (DoneBy(s, t).Some? ==> s'.threads[t].pc.Idle? || DoneBy(s', t) == DoneBy(s, t))
    && (DoneBy(s, t).None? ==> !s'.threads[t].pc.Idle?)
  }

  lemma AllocLife(s: State, t: nat)
    requires t in s.threads && ThreadOk(s, t) && Enabled(s, t) && s.threads[t].op.OpAlloc?
    ensures Life(s, Exec(s, t), t)
  {
    hide Linked, HasRef, Last, ChainOf, IndexOf, Loner, HashId, Newborn, Skipped, LockF, UnlockF, Add, NewRef,
         DropRef, Joined, Left, SetHead, SetNext, Next, IdOf, HeadOf, Count;
  }

  lemma HoldLife(s: State, t: nat)
    requires t in s.threads && ThreadOk(s, t) && Enabled(s, t) && s.threads[t].op.OpHold?
    ensures Life(s, Exec(s, t), t)
  {
    hide Linked, HasRef, Last, ChainOf, IndexOf, Loner, HashId, Newborn, Skipped, LockF, UnlockF, Add, NewRef,
         DropRef, Joined, Left, SetHead, SetNext, Next, IdOf, HeadOf, Count;
  }

  lemma FindLife(s: State, t: nat)
    requires t in s.threads && ThreadOk(s, t) && Enabled(s, t) && s.threads[t].op.OpFind?
    ensures Life(s, Exec(s, t), t)
  {
    hide Linked, HasRef, Last, ChainOf, IndexOf, Loner, HashId, Newborn, Skipped, LockF, UnlockF, Add, NewRef,
         DropRef, Joined, Left, SetHead, SetNext, Next, IdOf, HeadOf, Count;
  }

  lemma ReleLife(s: State, t: nat)
    requires t in s.threads && ThreadOk(s, t) && Enabled(s, t) && s.threads[t].op.OpRele? && !Unlinking(s.threads[t].pc)
    ensures Life(s, Exec(s, t), t)
  {
    hide Linked, HasRef, Last, ChainOf, IndexOf, Loner, HashId, Newborn, Skipped, LockF, UnlockF, Add, NewRef,
         DropRef, Joined, Left, SetHead, SetNext, Next, IdOf, HeadOf, Count;
  }

  predicate Unlinking(pc: Pc) {
    pc.RFirst? || pc.RSetHead? || pc.RWalk? || pc.RSetNext? || pc.RUnlockH3? || pc.RUnlockF3? || pc.RFree?
  }

  lemma UnlinkLife(s: State, t: nat)
    requires t in s.threads && ThreadOk(s, t) && s.threads[t].op.OpRele? && Unlinking(s.threads[t].pc)
    ensures Life(s, Exec(s, t), t)
  {
    hide Linked, HasRef, Last, ChainOf, IndexOf, Loner, HashId, Newborn, Skipped, LockF, UnlockF, Add, NewRef,
         DropRef, Joined, Left, SetHead, SetNext, Next, IdOf, HeadOf, Count;
  }

  lemma OneEffect(s: State, t: nat)
    requires Ready(s, t)
    ensures Life(s, Exec(s, t), t)
  {
    assert ThreadOk(s, t);
    hide Inv, Exec, Enabled, Life, ThreadOk;
    match s.threads[t].op
    case OpAlloc(_) => AllocLife(s, t);
    case OpHold(_, _) => HoldLife(s, t);
    case OpFind(_) => FindLife(s, t);
    case OpRele(_, _) => if Unlinking(s.threads[t].pc) { UnlinkLife(s, t); } else { ReleLife(s, t); }
  }

  // -- Runs ------------------------------------------------------------------------------

  /** A call that took effect: who made it, what it was, and what it is to return. */
  datatype Effect = Effect(t: nat, op: Op, r: nat)

  predicate Effective(s: State, e: Event, t: nat) { e.Run? && t in s.threads && TakesEffect(s.threads[t].pc) }

  /** The effects of the first `n` steps, in order. */
  function Effects(run: seq<State>, what: seq<Event>, who: seq<nat>, n: nat): seq<Effect>
    requires IsRun(run, what, who) && n <= |who|
  {
    if n == 0 then []
    else
      var es := Effects(run, what, who, n - 1);
      var s, t := run[n - 1], who[n - 1];
      if Effective(s, what[n - 1], t) && DoneBy(run[n], t).Some?
      then es + [Effect(t, s.threads[t].op, DoneBy(run[n], t).value)] else es
  }

  /** The table after atomic calls made one at a time, if all of them can be made. */
  function AtomicRun(es: seq<Effect>): Option<Table> {
    if es == [] then Some(Empty())
    else
      var x := AtomicRun(es[..|es| - 1]);
      if x.Some? && |x.value.chains| == NHASH then Apply(x.value, es[|es| - 1].op, es[|es| - 1].r) else None
  }

  lemma InitAbs(s: State)
    requires Init(s)
    ensures Some(Abs(s)) == AtomicRun([])
  {
    assert Abs(s).cnt == map[] && Abs(s).ids == map[];
  }

  lemma OtherStep(s: State, e: Event, t: nat, s': State)
    requires Inv(s) && Step(s, e, t, s') && !e.Run?
    ensures Abs(s') == Abs(s)
  {
    match e
    case Malloc(o) =>
      NotOnChain(s, o, s.threads[t].op.id);
      assert s'.objs - {o} == s.objs - {o};
      OutsideAbs(s, s', o);
    case NoMemory => SameAbs(s, s');
    case Call(_) => SameAbs(s, s');
    case Give(_, _) => SameGive(s, s');
  }

  /** Every run of mutex2.c is a run of atomic calls: done one at a time, in the order in
      which they take effect and returning what they return, they leave the same table. */
  lemma {:induction false} Linearizable(run: seq<State>, what: seq<Event>, who: seq<nat>, n: nat)
    requires IsRun(run, what, who) && n <= |who|
    ensures AtomicRun(Effects(run, what, who, n)) == Some(Abs(run[n]))
  {
    hide Inv, Init, Exec, Enabled, Abs, Apply, Step, DoneBy, TakesEffect;
    if n == 0 {
      InitAbs(run[0]);
    } else {
      Linearizable(run, what, who, n - 1);
      RunInv(run, what, who, n - 1);
      Extend(run, what, who, n);
    }
  }

  lemma Extend(run: seq<State>, what: seq<Event>, who: seq<nat>, n: nat)
    requires IsRun(run, what, who) && 0 < n <= |who| && Inv(run[n - 1])
    requires AtomicRun(Effects(run, what, who, n - 1)) == Some(Abs(run[n - 1]))
    ensures AtomicRun(Effects(run, what, who, n)) == Some(Abs(run[n]))
  {
    var s, e, t, s' := run[n - 1], what[n - 1], who[n - 1], run[n];
    var es := Effects(run, what, who, n - 1);
    assert Step(s, e, t, s');
    assert e.Run? ==> Ready(s, t) && s' == Exec(s, t);
    hide Inv, Init, Exec, Enabled, Apply, Step, IsRun, TakesEffect, DoneBy, Ready;
    if !e.Run? {
      OtherStep(s, e, t, s');
    } else {
      OneEffect(s, t);
      if TakesEffect(s.threads[t].pc) {
        EffectStep(s, t);
        var x := Effect(t, s.threads[t].op, DoneBy(s', t).value);
        assert (es + [x])[..|es|] == es;
      } else {
        QuietStep(s, t);
      }
    }
  }
}

/** One lemma for each kind of step of mutex2.c. */
module Mutex2Steps {
  import opened Lists
  import opened Foo
  import opened Mutex2
  import opened Mutex2Inv

  // -- Mutexes ---------------------------------------------------------------------------

  /** How a step of `t` changes the mutexes: by what the step takes and what it gives back. */
  predicate LocksMove(s: State, s': State, t: nat)
    requires t in s.threads && t in s'.threads
  {
    var a, b := s.threads[t], s'.threads[t];
    && (HoldsHash(b.pc) == HoldsHash(a.pc) ==> s'.hash == s.hash)
    && (HoldsHash(b.pc) && !HoldsHash(a.pc) ==> s.hash.None? && s'.hash == Some(t))
    && (!HoldsHash(b.pc) && HoldsHash(a.pc) ==> s'.hash.None?)
    && (Holds(b.op, b.pc) == Holds(a.op, a.pc) ==> s'.fl == s.fl)
    && (Holds(b.op, b.pc) != Holds(a.op, a.pc) ==>
          if Holds(b.op, b.pc).Some? then
            Holds(a.op, a.pc).None? && Holds(b.op, b.pc).value !in s.fl && s'.fl == s.fl[Holds(b.op, b.pc).value := t]
          else s'.fl == s.fl - {Holds(a.op, a.pc).value})
  }

  lemma LocksKept(s: State, s': State, t: nat)
    requires LocksOk(s) && Moved(s, s', t) && LocksMove(s, s', t)
    ensures LocksOk(s')
  {
    hide HoldsHash, Holds;
    assert HoldOk(s, t);
    forall o | o in s'.fl ensures FlOk(s', o) {
      assert o in s.fl ==> FlOk(s, o);
    }
    forall u | u in s'.threads ensures HoldOk(s', u) {
      assert u in s.threads ==> HoldOk(s, u);
    }
  }

  // -- Steps that leave the table alone --------------------------------------------------

  predicate SameCore(s: State, s': State) {
    s'.fh == s.fh && s'.objs == s.objs && s'.chains == s.chains && s'.refs == s.refs && s'.nextKey == s.nextKey
  }

  lemma SameTable(s: State, s': State)
    requires SameCore(s, s') && TableOk(s) && RefsOk(s)
    ensures TableOk(s') && RefsOk(s')
  {
    forall h | 0 <= h < NHASH ensures ChainOk(s', h) {
      assert ChainOk(s, h);
      forall j | 0 <= j < |s.chains[h]| ensures NodeOk(s', h, j) { assert NodeOk(s, h, j); }
    }
    forall k | k in s'.refs ensures RefOk(s', k) { assert RefOk(s, k); }
    forall o | o in s'.objs ensures CountOk(s', o) { assert CountOk(s, o); }
  }

  /** A step that changes mutexes and the thread's own variables only. */
  lemma LocalStep(s: State, s': State, t: nat)
    requires Inv(s) && Moved(s, s', t) && SameCore(s, s') && LocksOk(s') && ThreadOk(s', t)
    requires Priv(s'.threads[t].op, s'.threads[t].pc) == Priv(s.threads[t].op, s.threads[t].pc)
    ensures Inv(s')
  {
    hide Priv, Holds, HoldsHash, PcOk, LocksOk, TableOk, RefsOk;
    SameTable(s, s');
    forall u | u in s.threads && u != t ensures Rely(s, s', u) {}
    Assemble(s, s', t);
  }

  // -- Steps that count a reference ------------------------------------------------------

  /** f_count of `o` and the references to it changed together. */
  predicate Counted(s: State, s': State, o: nat) {
    && o in s.objs && o in s'.objs && s'.objs == s.objs[o := s'.objs[o]]
    && s'.objs[o].id == s.objs[o].id && s'.objs[o].next == s.objs[o].next
    && s'.fh == s.fh && s'.chains == s.chains
  }

  lemma CountedTable(s: State, s': State, o: nat)
    requires Counted(s, s', o) && TableOk(s)
    ensures TableOk(s') && forall p :: Linked(s', p) == Linked(s, p)
  {
    forall h | 0 <= h < NHASH ensures ChainOk(s', h) {
      assert ChainOk(s, h);
      forall j | 0 <= j < |s.chains[h]| ensures NodeOk(s', h, j) { assert NodeOk(s, h, j); }
    }
  }

  lemma RefAdded(refs: map<nat, Ref>, k: nat, r: Ref, p: nat)
    requires k !in refs
    ensures |RefsTo(refs[k := r], p)| == |RefsTo(refs, p)| + if p == r.obj then 1 else 0
  {
    assert RefsTo(refs[k := r], p) == RefsTo(refs, p) + (if p == r.obj then {k} else {});
  }

  lemma RefUp(s: State, s': State, t: nat, o: nat)
    requires Counted(s, s', o) && TableOk(s) && RefsOk(s) && Linked(s, o)
    requires s'.objs[o].count == s.objs[o].count + 1
    requires s'.refs == s.refs[s.nextKey := Ref(t, o)] && s'.nextKey == s.nextKey + 1
    ensures RefsOk(s')
  {
    CountedTable(s, s', o);
    hide Linked, TableOk;
    assert s.nextKey in s.refs ==> RefOk(s, s.nextKey);
    forall k | k in s'.refs ensures RefOk(s', k) { assert k in s.refs ==> RefOk(s, k); }
    forall p | p in s'.objs ensures CountOk(s', p) {
      assert CountOk(s, p);
      RefAdded(s.refs, s.nextKey, Ref(t, o), p);
    }
  }

  lemma RefDown(s: State, s': State, k: nat, o: nat)
    requires Counted(s, s', o) && TableOk(s) && RefsOk(s)
    requires s'.objs[o].count == s.objs[o].count - 1 && k in s.refs && s.refs[k].obj == o
    requires s'.refs == s.refs - {k} && s'.nextKey == s.nextKey
    ensures RefsOk(s')
  {
    CountedTable(s, s', o);
    hide Linked, TableOk;
    forall l | l in s'.refs ensures RefOk(s', l) { assert RefOk(s, l); }
    forall p | p in s'.objs ensures CountOk(s', p) {
      assert CountOk(s, p);
      assert RefsTo(s'.refs, p) == RefsTo(s.refs, p) - (if p == o then {k} else {});
    }
  }

  lemma CountStep(s: State, s': State, t: nat, o: nat)
    requires Inv(s) && Moved(s, s', t) && Counted(s, s', o) && HasF(s.threads[t], o) && Linked(s, o)
    requires RefsOk(s') && LocksOk(s') && ThreadOk(s', t)
    requires Priv(s'.threads[t].op, s'.threads[t].pc) == Priv(s.threads[t].op, s.threads[t].pc)
    requires forall k :: k in s.refs && s.refs[k].owner != t ==> k in s'.refs && s'.refs[k] == s.refs[k]
    ensures Inv(s')
  {
    CountedTable(s, s', o);
    hide Linked, TableOk, RefsOk, PcOk, LocksOk, Priv, HoldsHash, Holds;
    forall u | u in s.threads && u != t ensures Rely(s, s', u) { CountRely(s, s', t, o, u); }
    Assemble(s, s', t);
  }

  lemma CountRely(s: State, s': State, t: nat, o: nat, u: nat)
    requires Inv(s) && Moved(s, s', t) && Counted(s, s', o) && HasF(s.threads[t], o) && Linked(s, o)
    requires forall p :: Linked(s', p) == Linked(s, p)
    requires forall k :: k in s.refs && s.refs[k].owner != t ==> k in s'.refs && s'.refs[k] == s.refs[k]
    requires u in s.threads && u != t
    ensures Rely(s, s', u)
  {
    Exclusive(s, t, u);
    assert ThreadOk(s, u);
    hide Linked, TableOk, RefsOk, PcOk, LocksOk, Priv, HoldsHash, Holds, Owned;
    forall p | PrivOf(s, u, p) ensures p != o { PrivLoner(s, u, p); }
    assert forall p :: p in s.objs ==> SameObj(s, s', p);
  }

  // -- Steps on a private object ---------------------------------------------------------

  /** Nothing but the unlinked object `o` changed, came or went. */
  predicate Outside(s: State, s': State, o: nat) {
    && s'.fh == s.fh && s'.chains == s.chains && s'.refs == s.refs && s'.nextKey == s.nextKey
    && !Linked(s, o) && !Linked(s', o)
    && s'.objs - {o} == s.objs - {o}
  }

  lemma OutsideObj(s: State, s': State, o: nat, p: nat)
    requires Outside(s, s', o) && p != o
    ensures p in s'.objs <==> p in s.objs
    ensures p in s.objs ==> s'.objs[p] == s.objs[p]
    ensures Linked(s', p) == Linked(s, p)
  {
    assert p in s.objs ==> p in s.objs - {o};
    assert p in s'.objs ==> p in s'.objs - {o};
    assert p in s.objs ==> (s.objs - {o})[p] == s.objs[p];
    assert p in s'.objs ==> (s'.objs - {o})[p] == s'.objs[p];
  }

  lemma OutsideTable(s: State, s': State, o: nat)
    requires Outside(s, s', o) && TableOk(s) && RefsOk(s)
    ensures TableOk(s') && RefsOk(s')
  {
    forall h | 0 <= h < NHASH ensures ChainOk(s', h) {
      assert ChainOk(s, h);
      forall j | 0 <= j < |s.chains[h]| ensures NodeOk(s', h, j) {
        assert NodeOk(s, h, j);
        OutsideObj(s, s', o, s.chains[h][j]);
      }
    }
    forall k | k in s'.refs ensures RefOk(s', k) {
      assert RefOk(s, k);
      OutsideObj(s, s', o, s.refs[k].obj);
    }
    forall p | p in s'.objs ensures CountOk(s', p) {
      if p != o { OutsideObj(s, s', o, p); assert CountOk(s, p); }
    }
  }

  lemma PrivateStep(s: State, s': State, t: nat, o: nat)
    requires Inv(s) && Moved(s, s', t) && Outside(s, s', o) && LocksOk(s') && ThreadOk(s', t)
    requires o in s.objs ==> PrivOf(s, t, o)
    requires if o in s'.objs then PrivOf(s', t, o) else Priv(s'.threads[t].op, s'.threads[t].pc).None?
    requires forall u :: u in s.threads && u != t ==> !HasF(s.threads[u], o)
    requires forall p :: PrivOf(s, t, p) ==> p == o
    ensures Inv(s')
  {
    OutsideTable(s, s', o);
    forall p | p != o
      ensures (p in s'.objs <==> p in s.objs) && (p in s.objs ==> s'.objs[p] == s.objs[p])
          && Linked(s', p) == Linked(s, p)
    {
      OutsideObj(s, s', o, p);
    }
    assert !Linked(s', o);
    hide Linked, TableOk, RefsOk, PcOk, LocksOk, Priv, HoldsHash, Holds;
    forall u | u in s.threads && u != t ensures Rely(s, s', u) { PrivateRely(s, s', t, o, u); }
    Assemble(s, s', t);
  }

  lemma PrivateRely(s: State, s': State, t: nat, o: nat, u: nat)
    requires Inv(s) && Moved(s, s', t) && Outside(s, s', o) && (o in s.objs ==> PrivOf(s, t, o))
    requires u in s.threads && u != t && !HasF(s.threads[u], o)
    ensures Rely(s, s', u)
  {
    assert ThreadOk(s, u) && PairOk(s, t, u);
    forall p | p in s.objs && p != o ensures SameObj(s, s', p) && s'.objs[p] == s.objs[p] { OutsideObj(s, s', o, p); }
    hide Linked, TableOk, RefsOk, PcOk, LocksOk, Priv, HoldsHash, Holds, Owned;
    forall p | PrivOf(s, u, p) ensures p != o { PrivLoner(s, u, p); }
  }

  // -- Linking and unlinking -------------------------------------------------------------

  /** Chain `h` changed; the objects kept their ids and counts. */
  predicate Rechained(s: State, s': State, h: nat) {
    && |s.chains| == NHASH && |s.fh| == NHASH && h < NHASH
    && |s'.chains| == NHASH && s'.chains == s.chains[h := s'.chains[h]]
    && |s'.fh| == NHASH && s'.fh == s.fh[h := s'.fh[h]]
    && s'.objs.Keys == s.objs.Keys
    && forall p :: p in s.objs ==> s'.objs[p].id == s.objs[p].id && s'.objs[p].count == s.objs[p].count
  }

  lemma OtherChain(s: State, s': State, h: nat, g: nat)
    requires TableOk(s) && Rechained(s, s', h) && g < NHASH && g != h
    requires forall p :: p in s.objs && HashId(s.objs[p].id) != h ==> s'.objs[p] == s.objs[p]
    ensures ChainOk(s', g)
  {
    assert ChainOk(s, g);
    forall j | 0 <= j < |s.chains[g]| ensures NodeOk(s', g, j) { assert NodeOk(s, g, j); }
  }

  lemma PushTable(s: State, s': State, h: nat, o: nat)
    requires TableOk(s) && Rechained(s, s', h) && s'.objs == s.objs
    requires o != 0 && o in s.objs && HashId(s.objs[o].id) == h && !Linked(s, o) && s.objs[o].next == s.fh[h]
    requires s'.chains[h] == [o] + s.chains[h] && s'.fh[h] == o
    ensures TableOk(s')
  {
    forall g | 0 <= g < NHASH ensures ChainOk(s', g) {
      if g != h {
        OtherChain(s, s', h, g);
      } else {
        assert ChainOk(s, h);
        forall j | 0 <= j < |s'.chains[h]| ensures NodeOk(s', h, j) { assert j > 0 ==> NodeOk(s, h, j - 1); }
      }
    }
  }

  /** The write that takes position `j` out of chain `h`: of the head, or of the f_next
      of the object before it. */
  predicate Cut(s: State, s': State, h: nat, j: nat)
    requires h < |s.chains| && h < |s'.chains| && h < |s.fh| && h < |s'.fh| && j < |s.chains[h]|
  {
    var c := s.chains[h];
    && s'.chains[h] == Without(c, j) && c[j] in s.objs
    && (j == 0 ==> s'.fh[h] == s.objs[c[j]].next && s'.objs == s.objs)
    && (j > 0 ==>
          && c[j - 1] in s.objs && s'.fh[h] == s.fh[h]
          && s'.objs == s.objs[c[j - 1] := s.objs[c[j - 1]].(next := s.objs[c[j]].next)])
  }

  lemma CutNode(s: State, s': State, h: nat, j: nat, n: nat)
    requires TableOk(s) && Rechained(s, s', h) && j < |s.chains[h]| && Cut(s, s', h, j) && n < |s'.chains[h]|
    ensures NodeOk(s', h, n)
  {
    var c, d := s.chains[h], s'.chains[h];
    assert ChainOk(s, h);
    assert NodeOk(s, h, if n < j then n else n + 1);
    assert NodeOk(s, h, j);
    assert d[n] == c[if n < j then n else n + 1];
    assert At(d, n + 1) == At(c, if n + 1 < j then n + 1 else n + 2);
  }

  lemma CutTable(s: State, s': State, h: nat, j: nat)
    requires TableOk(s) && Rechained(s, s', h) && j < |s.chains[h]| && Cut(s, s', h, j)
    ensures TableOk(s')
  {
    var c := s.chains[h];
    forall g | 0 <= g < NHASH ensures ChainOk(s', g) {
      if g != h {
        assert ChainOk(s, h);
        assert j > 0 ==> NodeOk(s, h, j - 1);
        OtherChain(s, s', h, g);
      } else {
        assert ChainOk(s, h);
        WithoutMember(c, j, 0);
        assert NodeOk(s, h, j);
        forall n | 0 <= n < |s'.chains[h]| ensures NodeOk(s', h, n) { CutNode(s, s', h, j, n); }
      }
    }
  }

  lemma CutLinked(s: State, s': State, h: nat, j: nat, p: nat)
    requires TableOk(s) && Rechained(s, s', h) && j < |s.chains[h]| && Cut(s, s', h, j)
    ensures Linked(s', p) <==> Linked(s, p) && p != s.chains[h][j]
  {
    assert ChainOk(s, h);
    assert NodeOk(s, h, j);
    WithoutMember(s.chains[h], j, p);
  }

  /** One object joins or leaves the table, together with its only reference. */
  predicate Relinked(s: State, s': State, o: nat) {
    && (forall p {:trigger Linked(s', p)} :: p in s.objs && p != o ==> Linked(s', p) == Linked(s, p))
    && (forall p :: p in s.objs && !Linked(s, p) ==> p in s'.objs && s'.objs[p] == s.objs[p])
  }

  lemma LinkStep(s: State, s': State, t: nat, h: nat, o: nat)
    requires Inv(s) && Moved(s, s', t) && Rechained(s, s', h) && Relinked(s, s', o) && o in s.objs
    requires HoldsHash(s.threads[t].pc) && TableOk(s') && RefsOk(s') && LocksOk(s') && ThreadOk(s', t)
    requires Linked(s, o) ==> HasF(s.threads[t], o) && PrivOf(s', t, o) && !Linked(s', o)
    requires !Linked(s, o) ==> PrivOf(s, t, o) && Linked(s', o)
    requires forall p :: p != o ==> !PrivOf(s, t, p) && !PrivOf(s', t, p)
    requires forall u :: u in s.threads && u != t && Linked(s, o) == false ==> !HasF(s.threads[u], o)
    requires forall k :: k in s.refs && s.refs[k].owner != t ==> k in s'.refs && s'.refs[k] == s.refs[k]
    ensures Inv(s')
  {
    hide Linked, TableOk, RefsOk, PcOk, LocksOk, Priv, HoldsHash, Holds;
    forall u | u in s.threads && u != t ensures Rely(s, s', u) {
      Exclusive(s, t, u);
      assert ThreadOk(s, u) && PairOk(s, u, t) && PairOk(s, t, u);
      forall p | PrivOf(s, u, p) ensures p != o && !Linked(s, p) && p in s.objs { PrivLoner(s, u, p); }
    }
    Assemble(s, s', t);
  }

  // -- References when an object joins or leaves the table -------------------------------

  lemma NoRefs(s: State, o: nat)
    requires RefsOk(s) && !Linked(s, o)
    ensures RefsTo(s.refs, o) == {}
  {
    forall k | k in s.refs ensures s.refs[k].obj != o { assert RefOk(s, k); }
  }

  lemma RefsJoin(s: State, s': State, t: nat, h: nat, o: nat)
    requires RefsOk(s) && Rechained(s, s', h) && Relinked(s, s', o)
    requires o in s.objs && !Linked(s, o) && Linked(s', o) && s.objs[o].count == 1
    requires s'.refs == s.refs[s.nextKey := Ref(t, o)] && s'.nextKey == s.nextKey + 1
    ensures RefsOk(s')
  {
    NoRefs(s, o);
    assert s.nextKey in s.refs ==> RefOk(s, s.nextKey);
    hide Linked;
    forall k | k in s'.refs ensures RefOk(s', k) { assert k in s.refs ==> RefOk(s, k); }
    forall p | p in s'.objs ensures CountOk(s', p) {
      assert CountOk(s, p);
      RefAdded(s.refs, s.nextKey, Ref(t, o), p);
    }
  }

  lemma OnlyRef(s: State, k: nat, o: nat)
    requires RefsOk(s) && k in s.refs && s.refs[k].obj == o && o in s.objs && s.objs[o].count == 1
    ensures RefsTo(s.refs, o) == {k}
  {
    assert RefOk(s, k) && CountOk(s, o);
    assert k in RefsTo(s.refs, o);
    assert |RefsTo(s.refs, o) - {k}| == 0;
  }

  lemma RefsLeave(s: State, s': State, h: nat, k: nat, o: nat)
    requires RefsOk(s) && Rechained(s, s', h) && Relinked(s, s', o)
    requires k in s.refs && s.refs[k].obj == o && o in s.objs && s.objs[o].count == 1 && !Linked(s', o)
    requires s'.refs == s.refs - {k} && s'.nextKey == s.nextKey
    ensures RefsOk(s')
  {
    OnlyRef(s, k, o);
    hide Linked;
    forall l | l in s'.refs ensures RefOk(s', l) {
      assert RefOk(s, l);
      assert l in RefsTo(s.refs, s.refs[l].obj);
    }
    forall p | p in s'.objs ensures CountOk(s', p) {
      assert CountOk(s, p);
      assert p != o ==> RefsTo(s'.refs, p) == RefsTo(s.refs, p);
    }
  }

  /** Whoever holds the f_lock of an object that is nobody's private object finds it in
      the table. */
  lemma LockedLinked(s: State, u: nat, o: nat)
    requires RefsOk(s) && u in s.threads && ThreadOk(s, u) && HasF(s.threads[u], o)
    ensures Linked(s, o) || PrivOf(s, u, o)
  {
    var Thread(op, pc) := s.threads[u];
    hide Linked;
    if HasRef(s, u, op) { assert RefOk(s, op.k); }
  }
}

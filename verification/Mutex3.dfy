/** threads/mutex3.c: the table under one lock. Its methods are the atomic operations of
    Foo, pointer by pointer. */
module Mutex3 {
  import opened Lists
  import opened Foo
  import opened Mutex2
  import opened Mutex2Inv
  import opened Mutex2Steps
  import opened Mutex2Keeps
  import opened Mutex2Runs
  import opened Mutex2Refines

  class FooTable {
    var fh: seq<nat>
    var objs: map<nat, Obj>
    ghost var chains: seq<seq<nat>>

    /** The table with no thread in it. */
    ghost function Memory(): State
      reads this
    {
      State(fh, objs, None, map[], map[], chains, map[], 0)
    }

    /** The pointers encode the chains, and every allocated object is on one. */
    ghost predicate Valid()
      reads this
    {
      TableOk(Memory()) && forall o :: o in objs ==> Linked(Memory(), o)
    }

    ghost function Value(): Table
      reads this
    {
      Abs(Memory())
    }

    constructor ()
      ensures Valid() && Value() == Empty()
    {
      fh := seq(NHASH, _ => 0);
      objs := map[];
      chains := Empty().chains;
    }

    method FooAlloc(id: int, fp: nat)
      requires Valid() && fp != 0 && fp !in objs
      modifies this
      ensures Valid() && Value() == Alloc(old(Value()), id, fp)
    {
      ghost var s := Memory();
      objs := objs[fp := Obj(1, id, 0)];
      var idx := HashId(id);
      objs := objs[fp := objs[fp].(next := fh[idx])];
      ghost var s2 := Memory();
      fh := fh[idx := fp];
      chains := chains[idx := [fp] + chains[idx]];
      NewObject(s, s2, id, fp);
      assert s2.objs == s.objs[fp := Obj(1, id, s.fh[idx])];
      hide Abs, Linked, TableOk;
      Pushed(s2, Memory(), idx, fp);
    }

    method FooHold(fp: nat)
      requires Valid() && fp in objs
      modifies this
      ensures Valid() && objs.Keys == old(objs.Keys) && Value() == Hold(old(Value()), fp)
    {
      ghost var s := Memory();
      objs := objs[fp := objs[fp].(count := objs[fp].count + 1)];
      CountedTable(s, Memory(), fp);
      UpEffect(s, Memory(), fp);
    }

    /** The search of foo_find; 0 stands for NULL. */
    method Search(id: int) returns (fp: nat)
      requires Valid()
      ensures var c := ChainOf(Memory(), id);
              fp == At(c, FirstWith(c, Value().ids, id))
      ensures fp != 0 <==> FirstWith(ChainOf(Memory(), id), Value().ids, id) < |ChainOf(Memory(), id)|
      ensures fp != 0 ==> fp in objs
    {
      ghost var s, h := Memory(), HashId(id);
      ghost var j := 0;
      assert ChainOk(s, h) && (|chains[h]| > 0 ==> NodeOk(s, h, 0));
      hide Abs, HashId;
      fp := fh[HashId(id)];
      while fp != 0 && objs[fp].id != id
        invariant fp == At(chains[h], j) && Skipped(s, chains[h], id, j)
        invariant fp != 0 ==> fp in objs
        decreases |chains[h]| - j
      {
        assert NodeOk(s, h, j);
        fp := objs[fp].next;
        j := j + 1;
        assert j < |chains[h]| ==> NodeOk(s, h, j);
      }
      assert j < |chains[h]| ==> NodeOk(s, h, j);
      FirstAt(s, id, j);
    }

    method FooFind(id: int) returns (fp: nat)
      requires Valid()
      modifies this
      ensures Valid() && objs.Keys == old(objs.Keys)
      ensures Value() == Find(old(Value()), id).0
      ensures fp == if Find(old(Value()), id).1.Some? then Find(old(Value()), id).1.value else 0
    {
      assert |chains| == NHASH;
      ghost var s := Memory();
      fp := Search(id);
      if fp != 0 {
        AllCounted(s, fp);
        hide TableOk, Abs, Linked, FirstWith;
        FooHold(fp);
      }
    }

    method FooRele(fp: nat)
      requires Valid() && fp in objs
      modifies this
      ensures Valid() && Value() == Rele(old(Value()), fp)
      ensures fp in objs <==> old(objs[fp].count) != 1
    {
      ghost var s := Memory();
      if objs[fp].count - 1 == 0 {
        Unlink(fp);
      } else {
        objs := objs[fp := objs[fp].(count := objs[fp].count - 1)];
        CountedTable(s, Memory(), fp);
        DownEffect(s, Memory(), fp);
      }
    }

    /** The last reference is gone: take the object off its chain and free it. */
    method Unlink(fp: nat)
      requires Valid() && fp in objs && objs[fp].count == 1
      modifies this
      ensures Valid() && Value() == Rele(old(Value()), fp) && fp !in objs
    {
      ghost var s := Memory();
      ghost var j := Detach(fp);
      ghost var s1 := Memory();
      hide TableOk, Abs, Linked, Rechained, Cut;
      objs := objs - {fp};
      Removed(s, s1, Memory(), HashId(s.objs[fp].id), j, fp);
    }

    /** One pointer write takes the object off its chain. */
    method Detach(fp: nat) returns (ghost j: nat)
      requires Valid() && fp in objs
      modifies this
      ensures var s, idx := old(Memory()), HashId(old(objs[fp].id));
              && Rechained(s, Memory(), idx) && j < |s.chains[idx]| && s.chains[idx][j] == fp
              && Cut(s, Memory(), idx, j) && Memory().refs == s.refs
    {
      var idx := HashId(objs[fp].id);
      assert ChainOk(Memory(), idx) && Linked(Memory(), fp);
      assert NodeOk(Memory(), idx, 0);
      j := 0;
      if fh[idx] == fp {
        fh := fh[idx := objs[fp].next];
      } else {
        var tfp := Before(fp);
        j := IndexOf(chains[idx], tfp) + 1;
        objs := objs[tfp := objs[tfp].(next := objs[fp].next)];
      }
      chains := chains[idx := Without(chains[idx], j)];
    }

    /** The walk to the object whose f_next is to change. */
    method Before(fp: nat) returns (tfp: nat)
      requires Valid() && fp in objs && fh[HashId(objs[fp].id)] != fp
      ensures tfp in objs && tfp != 0 && objs[tfp].next == fp
      ensures var c := chains[HashId(objs[fp].id)];
              IndexOf(c, tfp) + 1 < |c| && c[IndexOf(c, tfp) + 1] == fp
    {
      ghost var s := Memory();
      hide TableOk, ChainOk, Linked, HashId, NodeOk, IndexOf;
      var idx := HashId(objs[fp].id);
      OnOwnChain(s, fp);
      ghost var c := chains[idx];
      ghost var j := 0;
      NodeAt(s, idx, 0);
      tfp := fh[idx];
      while objs[tfp].next != fp
        invariant j < IndexOf(c, fp) && tfp == c[j] && tfp in objs
        decreases |c| - j
      {
        NodeAt(s, idx, j);
        NodeAt(s, idx, j + 1);
        IndexNext(c, fp, j);
        tfp := objs[tfp].next;
        j := j + 1;
      }
      NodeAt(s, idx, j);
      ChainDistinct(s, idx);
      IndexUnique(c, tfp, j);
    }
  }

  /** An object in the table is on its chain, which has a first object. */
  lemma OnOwnChain(s: State, o: nat)
    requires TableOk(s) && Linked(s, o)
    ensures var h := HashId(s.objs[o].id);
            && h < |s.chains| && h < |s.fh| && IndexOf(s.chains[h], o) < |s.chains[h]|
            && s.fh[h] == s.chains[h][0] && (s.fh[h] != o ==> IndexOf(s.chains[h], o) > 0)
  {
    assert ChainOk(s, HashId(s.objs[o].id));
  }

  lemma NodeAt(s: State, h: nat, j: nat)
    requires TableOk(s) && h < |s.chains| && j < |s.chains[h]|
    ensures var o := s.chains[h][j];
            o != 0 && o in s.objs && s.objs[o].next == At(s.chains[h], j + 1)
  {
    assert ChainOk(s, h);
    assert NodeOk(s, h, j);
  }

  lemma ChainDistinct(s: State, h: nat)
    requires TableOk(s) && h < |s.chains|
    ensures NoDup(s.chains[h])
  {
    assert ChainOk(s, h);
  }

  lemma AllCounted(s: State, o: nat)
    requires o in s.objs && forall p :: p in s.objs ==> Linked(s, p)
    ensures o in Abs(s).cnt
  {
  }

  lemma NewObject(s: State, s': State, id: int, o: nat)
    requires TableOk(s) && o !in s.objs && o != 0
    requires s' == s.(objs := s'.objs) && o in s'.objs && s'.objs == s.objs[o := s'.objs[o]] && s'.objs[o].id == id
    ensures TableOk(s') && !Linked(s', o) && Abs(s') == Abs(s)
    ensures forall p :: p in s.objs ==> Linked(s', p) == Linked(s, p)
  {
    NotOnChain(s, o, id);
    assert s'.objs - {o} == s.objs - {o};
    OutsideAbs(s, s', o);
    forall h | 0 <= h < NHASH ensures ChainOk(s', h) {
      assert ChainOk(s, h);
      forall j | 0 <= j < |s.chains[h]| ensures NodeOk(s', h, j) { assert NodeOk(s, h, j); }
    }
  }

  lemma Pushed(s: State, s': State, h: nat, o: nat)
    requires TableOk(s) && h < NHASH && o != 0 && o in s.objs && HashId(s.objs[o].id) == h && s.objs[o].count == 1
    requires !Linked(s, o) && s.objs[o].next == s.fh[h]
    requires s' == s.(fh := s.fh[h := o], chains := s.chains[h := [o] + s.chains[h]])
    ensures TableOk(s') && Abs(s') == Alloc(Abs(s), s.objs[o].id, o)
    ensures forall p :: Linked(s', p) <==> Linked(s, p) || p == o
  {
    PushTable(s, s', h, o);
    forall p ensures Linked(s', p) <==> Linked(s, p) || p == o {}
    hide Linked;
    JoinMaps(s, s', o);
  }

  lemma Removed(s: State, s1: State, s2: State, h: nat, j: nat, o: nat)
    requires TableOk(s) && Rechained(s, s1, h) && j < |s.chains[h]| && Cut(s, s1, h, j) && s.chains[h][j] == o
    requires o in s.objs && s.objs[o].count == 1 && (forall p :: p in s.objs ==> Linked(s, p))
    requires s2 == s1.(objs := s1.objs - {o})
    ensures TableOk(s2) && Abs(s2) == Rele(Abs(s), o) && forall p :: p in s2.objs ==> Linked(s2, p)
  {
    CutTable(s, s1, h, j);
    CutEffect(s, s1, h, j, o);
    forall p ensures Linked(s1, p) <==> Linked(s, p) && p != o { CutLinked(s, s1, h, j, p); }
    assert forall p :: p in s1.objs ==> p in s.objs;
    hide Rechained, Cut, TableOk, Rele;
    Freed(s1, s2, o);
  }

  lemma Freed(s: State, s': State, o: nat)
    requires TableOk(s) && !Linked(s, o) && s' == s.(objs := s.objs - {o})
    ensures TableOk(s') && Abs(s') == Abs(s) && forall p :: p in s'.objs ==> Linked(s', p) == Linked(s, p)
  {
    assert s'.objs - {o} == s.objs - {o};
    OutsideAbs(s, s', o);
    forall g | 0 <= g < NHASH ensures ChainOk(s', g) {
      assert ChainOk(s, g);
      forall n | 0 <= n < |s.chains[g]| ensures NodeOk(s', g, n) {
        assert NodeOk(s, g, n);
        OnChain(s, g, n);
      }
    }
  }
}

/** What the four calls on the table promise their callers, in terms of ids and counts only. */
module FooLaws {
  import opened Lists
  import opened Foo
  import opened Mutex2
  import opened Mutex2Refines

  predicate OnChain(t: Table, o: nat)
    requires o in t.ids && |t.chains| == NHASH
  {
    o in t.chains[HashId(t.ids[o])]
  }

  predicate ChainKept(t: Table, h: nat)
    requires h < |t.chains|
  {
    NoDup(t.chains[h]) && forall o :: o in t.chains[h] ==> o in t.ids && HashId(t.ids[o]) == h
  }

  /** Every object is on the chain of its id, once, and has a count. */
  ghost predicate Kept(t: Table) {
    && |t.chains| == NHASH && t.cnt.Keys == t.ids.Keys && 0 !in t.ids
    && (forall o {:trigger OnChain(t, o)} :: o in t.ids ==> OnChain(t, o))
    && (forall h {:trigger ChainKept(t, h)} :: 0 <= h < NHASH ==> ChainKept(t, h))
  }

  lemma EmptyKept()
    ensures Kept(Empty())
  {
  }

  lemma AllocKept(t: Table, id: int, o: nat)
    requires Kept(t) && o != 0 && o !in t.ids
    ensures Kept(Alloc(t, id, o))
  {
    hide HashId;
    var u, h := Alloc(t, id, o), HashId(id);
    forall p | p in u.ids ensures OnChain(u, p) { assert p != o ==> OnChain(t, p); }
    forall g | 0 <= g < NHASH ensures ChainKept(u, g) { assert ChainKept(t, g); }
  }

  /** The table with other counts. */
  lemma CountKept(t: Table, o: nat, n: int)
    requires Kept(t) && o in t.cnt
    ensures Kept(t.(cnt := t.cnt[o := n]))
  {
    hide HashId;
    var u := t.(cnt := t.cnt[o := n]);
    forall p | p in u.ids ensures OnChain(u, p) { assert OnChain(t, p); }
    forall g | 0 <= g < NHASH ensures ChainKept(u, g) { assert ChainKept(t, g); }
  }

  lemma FreeKept(t: Table, o: nat)
    requires Kept(t) && o in t.ids && t.cnt[o] == 1
    ensures Kept(Rele(t, o)) && Rele(t, o).ids == t.ids - {o} && Rele(t, o).cnt == t.cnt - {o}
  {
    hide HashId;
    var u, h := Rele(t, o), HashId(t.ids[o]);
    assert OnChain(t, o) && ChainKept(t, h);
    var j := IndexOf(t.chains[h], o);
    forall p ensures p in u.chains[h] <==> p in t.chains[h] && p != o { WithoutMember(t.chains[h], j, p); }
    WithoutMember(t.chains[h], j, o);
    hide Without, IndexOf;
    forall p | p in u.ids ensures OnChain(u, p) { assert OnChain(t, p); }
    forall g | 0 <= g < NHASH ensures ChainKept(u, g) { assert ChainKept(t, g); }
  }

  /** A search finds an object with the id if there is one, and counts a reference to it. */
  lemma FindExact(t: Table, id: int)
    requires Kept(t)
    ensures var (u, r) := Find(t, id);
            && Kept(u) && u.ids == t.ids
            && (r.None? <==> forall o :: o in t.ids ==> t.ids[o] != id)
            && (r.None? ==> u == t)
            && (r.Some? ==> r.value in t.ids && t.ids[r.value] == id && u.cnt == t.cnt[r.value := t.cnt[r.value] + 1])
  {
    hide HashId;
    var s := t.chains[HashId(id)];
    var j := FirstWith(s, t.ids, id);
    assert ChainKept(t, HashId(id));
    if j < |s| {
      assert s[j] in s;
      CountKept(t, s[j], t.cnt[s[j]] + 1);
    } else {
      forall o | o in t.ids ensures t.ids[o] != id { assert OnChain(t, o); }
    }
  }

  /** What one call makes of the table, given what it returns. */
  predicate Promise(x: Table, op: Op, r: nat, y: Table) {
    match op
    case OpAlloc(id) =>
      r != 0 && r !in x.ids && y.ids == x.ids[r := id] && y.cnt == x.cnt[r := 1]
    case OpHold(o, _) =>
      o in x.cnt && y.ids == x.ids && y.cnt == x.cnt[o := x.cnt[o] + 1]
    case OpFind(id) =>
      && y.ids == x.ids
      && (if r == 0 then y == x && forall o :: o in x.ids ==> x.ids[o] != id
          else r in x.ids && r in x.cnt && x.ids[r] == id && y.cnt == x.cnt[r := x.cnt[r] + 1])
    case OpRele(o, _) =>
      && o in x.cnt
      && (if x.cnt[o] == 1 then y.ids == x.ids - {o} && y.cnt == x.cnt - {o}
          else y.ids == x.ids && y.cnt == x.cnt[o := x.cnt[o] - 1])
  }

  lemma ApplyPromise(x: Table, op: Op, r: nat)
    requires Kept(x) && Apply(x, op, r).Some?
    ensures Kept(Apply(x, op, r).value) && Promise(x, op, r, Apply(x, op, r).value)
  {
    match op
    case OpAlloc(id) => AllocKept(x, id, r); hide Kept;
    case OpHold(o, _) => CountKept(x, o, x.cnt[o] + 1); hide Kept;
    case OpFind(id) => FindExact(x, id); assert 0 !in x.ids; hide Kept;
    case OpRele(o, _) =>
      if x.cnt[o] == 1 { FreeKept(x, o); } else { CountKept(x, o, x.cnt[o] - 1); }
      hide Kept;
  }

  lemma {:induction false} AtomicKept(es: seq<Effect>)
    requires AtomicRun(es).Some?
    ensures Kept(AtomicRun(es).value)
  {
    hide Kept, Apply;
    if es == [] {
      EmptyKept();
    } else {
      var n := |es| - 1;
      AtomicKept(es[..n]);
      ApplyPromise(AtomicRun(es[..n]).value, es[n].op, es[n].r);
    }
  }

  /** In every run of mutex2.c each call, at the step where it takes effect, does what it
      promises: foo_alloc adds an object with count 1, foo_hold adds a reference, foo_find
      returns NULL exactly when no object has the id and else adds a reference to one that has
      it, foo_rele drops a reference and, with the last, the object. */
  lemma PromiseKept(run: seq<State>, what: seq<Event>, who: seq<nat>, n: nat, i: nat)
    requires IsRun(run, what, who) && n <= |who| && i < |Effects(run, what, who, n)|
    ensures var es := Effects(run, what, who, n);
            var x, y := AtomicRun(es[..i]), AtomicRun(es[..i + 1]);
            x.Some? && y.Some? && Promise(x.value, es[i].op, es[i].r, y.value)
  {
    Linearizable(run, what, who, n);
    hide IsRun, Abs, Kept, Apply, Promise;
    var es := Effects(run, what, who, n);
    Prefixes(es, i + 1);
    Prefixes(es, i);
    assert es[..i + 1][..i] == es[..i];
    AtomicKept(es[..i]);
    ApplyPromise(AtomicRun(es[..i]).value, es[i].op, es[i].r);
  }

  lemma {:induction false} Prefixes(es: seq<Effect>, k: nat)
    requires AtomicRun(es).Some? && k <= |es|
    ensures AtomicRun(es[..k]).Some?
    decreases |es|
  {
    hide Apply;
    if k == |es| {
      assert es[..k] == es;
    } else {
      var n := |es| - 1;
      Prefixes(es[..n], k);
      assert es[..n][..k] == es[..k];
    }
  }
}

/** The semaphore proper, [0]: what sem_op does to it, and where its value comes from, with
    processes dying at any step. */
module SemaphValue {
  import opened Lists
  import opened Semaph
  import opened SemaphInv

  // -- One sem_op ------------------------------------------------------------------------

  /** sem_op adds its value to [0] and leaves the opposite to be undone, if [0] stays at 0 or
      more; otherwise the caller waits and nothing changes. So sem_wait, with value -1, goes on
      exactly when [0] is above 0. With value 0 the process ends. The other two semaphores, the
      handles and every other process stay as they were. */
  lemma OpEffect(run: seq<State>, what: seq<Event>, who: seq<nat>, n: nat)
    requires IsRun(run, what, who) && n < |who| && what[n].Op? && what[n].value != 0
    ensures var s, t, p, v := run[n], run[n + 1], who[n], what[n].value;
            && t.vals.s1 == s.vals.s1 && t.vals.s2 == s.vals.s2 && t.live == s.live
            && t.procs == s.procs && t.handles == s.handles && t.inited == s.inited && t.holder == s.holder
            && (forall q :: q != p ==> AdjOf(t, q) == AdjOf(s, q))
            && AdjOf(t, p).s1 == AdjOf(s, p).s1 && AdjOf(t, p).s2 == AdjOf(s, p).s2
            && (s.vals.s0 + v >= 0 ==> t.vals.s0 == s.vals.s0 + v && AdjOf(t, p).s0 == AdjOf(s, p).s0 - v)
            && (s.vals.s0 + v < 0 ==> t == s)
  {
    var s, t, p, v := run[n], run[n + 1], who[n], what[n].value;
    assert Step(s, what[n], p, t);
    One(s.vals, AdjOf(s, p), 0, v);
    hide Semop, Adjust;
    forall q | q != p ensures AdjOf(t, q) == AdjOf(s, q) {}
  }

  lemma ZeroOpDies(run: seq<State>, what: seq<Event>, who: seq<nat>, n: nat)
    requires IsRun(run, what, who) && n < |who| && what[n].Op? && what[n].value == 0
    ensures who[n] in run[n].procs && who[n] !in run[n + 1].procs
  {
    assert Step(run[n], what[n], who[n], run[n + 1]);
  }

  /** sem_create on a set that it finds uninitialised puts its own initial value into [0] and
      clears what any process had left to undo there, and puts BIGCOUNT into [1]. */
  lemma CreateSets(run: seq<State>, what: seq<Event>, who: seq<nat>, n: nat)
    requires IsRun(run, what, who) && n < |who| && what[n].Run? && who[n] in run[n].procs
    requires run[n].procs[who[n]].CSet0? || run[n].procs[who[n]].CSet1?
    requires run[n].live == Some(run[n].procs[who[n]].id)
    ensures var s, t, pc := run[n], run[n + 1], run[n].procs[who[n]];
            && t.vals.s2 == s.vals.s2 && t.handles == s.handles && t.live == s.live
            && (pc.CSet0? ==>
                  && t.vals.s0 == pc.init && t.vals.s1 == s.vals.s1
                  && forall q :: AdjOf(t, q) == AdjOf(s, q).(s0 := 0))
            && (pc.CSet1? ==>
                  && t.vals.s0 == s.vals.s0 && t.vals.s1 == 10000
                  && forall q :: AdjOf(t, q) == AdjOf(s, q).(s1 := 0))
  {
    assert Step(run[n], what[n], who[n], run[n + 1]);
    forall q ensures AdjOf(run[n + 1], q) == if run[n].procs[who[n]].CSet0? then AdjOf(run[n], q).(s0 := 0)
                                             else AdjOf(run[n], q).(s1 := 0) {}
  }

  /** semget with IPC_CREAT joins the set that is there and changes nothing, or makes a new one,
      with all values 0, nothing to undo and an id that no process has seen. */
  lemma CreateGets(run: seq<State>, what: seq<Event>, who: seq<nat>, n: nat)
    requires IsRun(run, what, who) && n < |who| && what[n].Run? && who[n] in run[n].procs
    requires run[n].procs[who[n]].CGet?
    ensures var s, t, p, init := run[n], run[n + 1], who[n], run[n].procs[who[n]].init;
            && t.live.Some? && t.procs == s.procs[p := CLock(init, t.live.value)] && t.handles == s.handles
            && (s.live.Some? ==> t.live == s.live && t.vals == s.vals && t.adj == s.adj)
            && (s.live.None? ==>
                  && t.vals == Triple(0, 0, 0) && t.adj == map[] && t.live.value >= s.nextId && t.nextId > t.live.value)
  {
    assert Step(run[n], what[n], who[n], run[n + 1]);
  }

  /** A call on a set that has been removed since: sem_create, if it has not locked the set yet,
      starts again, and nothing else changes; any other call ends the process. */
  lemma SetGone(run: seq<State>, what: seq<Event>, who: seq<nat>, n: nat)
    requires IsRun(run, what, who) && n < |who| && what[n].Run? && who[n] in run[n].procs
    requires SetOf(run[n].procs[who[n]]).Some? && SetOf(run[n].procs[who[n]]) != run[n].live
    ensures var s, t, p, pc := run[n], run[n + 1], who[n], run[n].procs[who[n]];
            && (pc.CLock? ==>
                  && t.procs == s.procs[p := CGet(pc.init)] && t.vals == s.vals && t.adj == s.adj && t.live == s.live
                  && t.handles == s.handles)
            && (!pc.CLock? ==> t.procs == s.procs - {p})
  {
    assert Step(run[n], what[n], who[n], run[n + 1]);
  }

  // -- All that is still to be undone ------------------------------------------------------

  ghost function Total(adj: map<nat, Triple>): int
    decreases |adj|
  {
    if adj == map[] then 0 else var p :| p in adj; adj[p].s0 + Total(adj - {p})
  }

  lemma {:induction false} TotalPick(adj: map<nat, Triple>, p: nat)
    requires p in adj
    ensures Total(adj) == adj[p].s0 + Total(adj - {p})
    decreases |adj|
  {
    var q :| q in adj && Total(adj) == adj[q].s0 + Total(adj - {q});
    if q != p {
      TotalPick(adj - {q}, p);
      TotalPick(adj - {p}, q);
      assert adj - {q} - {p} == adj - {p} - {q};
    }
  }

  function Adj0(adj: map<nat, Triple>, p: nat): int { if p in adj then adj[p].s0 else 0 }

  lemma TotalDrop(adj: map<nat, Triple>, p: nat)
    ensures Total(adj - {p}) == Total(adj) - Adj0(adj, p)
  {
    if p in adj { TotalPick(adj, p); } else { assert adj - {p} == adj; }
  }

  lemma TotalPut(adj: map<nat, Triple>, p: nat, a: Triple)
    ensures Total(adj[p := a]) == Total(adj) - Adj0(adj, p) + a.s0
  {
    TotalPick(adj[p := a], p);
    TotalDrop(adj, p);
    assert adj[p := a] - {p} == adj - {p};
  }

  lemma {:induction false} TotalSame(a: map<nat, Triple>, b: map<nat, Triple>)
    requires a.Keys == b.Keys && forall p :: p in a ==> a[p].s0 == b[p].s0
    ensures Total(a) == Total(b)
    decreases |a|
  {
    if p :| p in a {
      TotalPick(a, p);
      TotalPick(b, p);
      TotalSame(a - {p}, b - {p});
    }
  }

  lemma {:induction false} TotalNone(a: map<nat, Triple>)
    requires forall p :: p in a ==> a[p].s0 == 0
    ensures Total(a) == 0
    decreases |a|
  {
    if p :| p in a {
      TotalPick(a, p);
      TotalNone(a - {p});
    }
  }

  // -- Where the value of [0] comes from ---------------------------------------------------

  /** What [0] was last set to, and by how much the deaths since then fell short: a value that
      an undo would take below 0 becomes 0. */
  datatype Ledger = Ledger(base: int, short: int)

  function Short(x: int): int { if x < 0 then -x else 0 }

  function Entered(l: Ledger, s: State, e: Event, p: nat, s': State): Ledger {
    if s'.live != s.live then Ledger(0, 0)
    else if e.Run? && p in s.procs && s.procs[p].CSet0? && s.live == Some(s.procs[p].id)
    then Ledger(s.procs[p].init, 0)
    else if p in s.procs && p !in s'.procs then l.(short := l.short + Short(s.vals.s0 + AdjOf(s, p).s0))
    else l
  }

  function LedgerOf(run: seq<State>, what: seq<Event>, who: seq<nat>, n: nat): Ledger
    requires |run| == |who| + 1 && |what| == |who| && n <= |who|
  {
    if n == 0 then Ledger(0, 0)
    else Entered(LedgerOf(run, what, who, n - 1), run[n - 1], what[n - 1], who[n - 1], run[n])
  }

  ghost predicate Balanced(s: State, l: Ledger) { s.vals.s0 + Total(s.adj) == l.base + l.short }

  lemma {:induction false} Elsewhere(v: Triple, a: Triple, ops: seq<Sembuf>)
    requires forall i :: 0 <= i < |ops| ==> ops[i].num != 0
    ensures Semop(v, ops).Some? ==> Semop(v, ops).value.s0 == v.s0
    ensures Adjust(a, ops).s0 == a.s0
    decreases |ops|
  {
    if ops != [] && ops[0].num < 3 {
      var b := ops[0];
      var a' := if b.undo then Put(a, b.num, Val(a, b.num) - b.op) else a;
      Elsewhere(Put(v, b.num, Val(v, b.num) + b.op), a', ops[1..]);
    }
  }

  /** A semop on the other two semaphores. */
  lemma AfterElsewhere(s: State, p: nat, ops: seq<Sembuf>)
    requires forall i :: 0 <= i < |ops| ==> ops[i].num != 0
    ensures After(s, p, ops).vals.s0 == s.vals.s0 && Total(After(s, p, ops).adj) == Total(s.adj)
    ensures After(s, p, ops).live == s.live && After(s, p, ops).procs == s.procs
  {
    Elsewhere(s.vals, AdjOf(s, p), ops);
    TotalPut(s.adj, p, Adjust(AdjOf(s, p), ops));
    hide Semop, Adjust;
  }

  lemma DieBalance(s: State, p: nat, l: Ledger)
    requires Balanced(s, l)
    ensures Balanced(Die(s, p), l.(short := l.short + Short(s.vals.s0 + AdjOf(s, p).s0)))
  {
    TotalDrop(s.adj, p);
  }

  /** A step of a live process that leaves [0] and what is to be undone there as they were. */
  lemma QuietBalance(s: State, e: Event, p: nat, s': State, l: Ledger)
    requires Balanced(s, l) && s'.vals.s0 == s.vals.s0 && Total(s'.adj) == Total(s.adj) && s'.live == s.live
    requires p in s'.procs && (p in s.procs ==> !s.procs[p].CSet0?)
    ensures Balanced(s', Entered(l, s, e, p, s'))
  {
  }

  /** A system call on the set that is there. */
  lemma CallBalance(s: State, p: nat, l: Ledger)
    requires Balanced(s, l) && p in s.procs && SetOf(s.procs[p]).Some? && SetOf(s.procs[p]) == s.live
    requires !(s.procs[p].XCheck? && s.vals.s1 > BIGCOUNT)
    ensures Balanced(Exec(s, p), Entered(l, s, Run, p, Exec(s, p)))
  {
    hide After, Total, HandlesOf, SetVal;
    var s' := Exec(s, p);
    match s.procs[p]
    case CLock(_, _) => AfterElsewhere(s, p, OP_LOCK); QuietBalance(s, Run, p, s', l);
    case CCheck(_, _) => QuietBalance(s, Run, p, s', l);
    case CSet0(init, _) => SetBalance(s, init);
    case CSet1(_, _) => SetBalance(s, BIGCOUNT); QuietBalance(s, Run, p, s', l);
    case CEnd(_, _) => AfterElsewhere(s, p, OP_ENDCREATE); QuietBalance(s, Run, p, s', l);
    case XLock(_, _) => AfterElsewhere(s, p, OP_CLOSE); QuietBalance(s, Run, p, s', l);
    case XCheck(_) => QuietBalance(s, Run, p, s', l);
    case XRm(_) => NoTotal();
    case XUnlock(_) => AfterElsewhere(s, p, OP_UNLOCK); QuietBalance(s, Run, p, s', l);
  }

  lemma RunBalance(s: State, p: nat, l: Ledger)
    requires Balanced(s, l) && p in s.procs && !s.procs[p].Idle?
    ensures Balanced(Exec(s, p), Entered(l, s, Run, p, Exec(s, p)))
  {
    var pc := s.procs[p];
    if SetOf(pc).Some? && SetOf(pc) == s.live && !(pc.XCheck? && s.vals.s1 > BIGCOUNT) {
      CallBalance(s, p, l);
    } else {
      ElseBalance(s, p, l);
    }
  }

  /** A call that starts again, or ends the process. */
  lemma ElseBalance(s: State, p: nat, l: Ledger)
    requires Balanced(s, l) && p in s.procs && !s.procs[p].Idle?
    requires SetOf(s.procs[p]) == s.live ==> s.live.None? || (s.procs[p].XCheck? && s.vals.s1 > BIGCOUNT)
    ensures Balanced(Exec(s, p), Entered(l, s, Run, p, Exec(s, p)))
  {
    hide After, Total, HandlesOf, SetVal, Undo;
    var pc := s.procs[p];
    if pc.CGet? { NoTotal(); } else if !pc.CLock? { DieBalance(s, p, l); }
  }

  lemma NoTotal()
    ensures Total(map[]) == 0
  {
  }

  lemma SetBalance(s: State, x: int)
    ensures SetVal(s, 0, x).vals.s0 == x && Total(SetVal(s, 0, x).adj) == 0 && SetVal(s, 0, x).live == s.live
    ensures SetVal(s, 1, x).vals.s0 == s.vals.s0 && Total(SetVal(s, 1, x).adj) == Total(s.adj)
    ensures SetVal(s, 1, x).live == s.live && SetVal(s, 0, x).procs == SetVal(s, 1, x).procs == s.procs
  {
    TotalNone(SetVal(s, 0, x).adj);
    TotalSame(SetVal(s, 1, x).adj, s.adj);
  }

  lemma AfterSame(s: State, p: nat, ops: seq<Sembuf>)
    ensures After(s, p, ops).live == s.live && After(s, p, ops).procs == s.procs
  {
    hide Semop, Adjust;
  }

  lemma OpBalance(s: State, p: nat, value: int, l: Ledger)
    requires Balanced(s, l) && value != 0
    ensures Balanced(After(s, p, OpOp(value)), l)
  {
    One(s.vals, AdjOf(s, p), 0, value);
    TotalPut(s.adj, p, Put(AdjOf(s, p), 0, AdjOf(s, p).s0 - value));
    hide Semop, Adjust;
  }

  lemma StepBalance(s: State, e: Event, p: nat, s': State, l: Ledger)
    requires Balanced(s, l) && Step(s, e, p, s')
    ensures Balanced(s', Entered(l, s, e, p, s'))
  {
    hide Total, After, HandlesOf;
    match e
    case Death => DieBalance(s, p, l);
    case Run => RunBalance(s, p, l);
    case Op(h, value) =>
      if value == 0 { DieBalance(s, p, l); } else { OpBalance(s, p, value, l); AfterSame(s, p, OpOp(value)); }
    case Rm => NoTotal();
    case _ =>
  }

  /** In every run [0] and all that is still to be undone on it add up to the value it was last
      set to and what deaths have fallen short of: sem_op and undo conserve it, and only a death
      that finds [0] too low for what it gives back adds to it. */
  lemma {:induction false} ValueConserved(run: seq<State>, what: seq<Event>, who: seq<nat>, n: nat)
    requires IsRun(run, what, who) && n <= |who|
    ensures Balanced(run[n], LedgerOf(run, what, who, n))
  {
    hide Balanced, Step, Entered;
    if n == 0 {
      InitBalance(run[0]);
    } else {
      ValueConserved(run, what, who, n - 1);
      StepBalance(run[n - 1], what[n - 1], who[n - 1], run[n], LedgerOf(run, what, who, n - 1));
    }
  }

  lemma InitBalance(s: State)
    requires Init(s)
    ensures Balanced(s, Ledger(0, 0))
  {
  }
}

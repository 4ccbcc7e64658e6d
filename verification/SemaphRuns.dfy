/** Whole runs. */
module SemaphRuns {
  import opened Lists
  import opened Semaph
  import opened SemaphInv

  /** In the first `n` steps no sem_create reads 0 from the counter of an initialised set. */
  predicate Calm(run: seq<State>, what: seq<Event>, who: seq<nat>, n: nat)
    requires n <= |run| && |what| == |who| && |run| == |who| + 1
  {
    forall i :: 0 <= i < n && i < |who| ==> !(what[i].Run? && FullCheck(run[i], who[i]))
  }

  lemma {:induction false} RunInv(run: seq<State>, what: seq<Event>, who: seq<nat>, n: nat)
    requires IsRun(run, what, who) && n < |run| && Calm(run, what, who, n)
    ensures Inv(run[n])
  {
    hide Inv, Init, Step;
    if n == 0 {
      InitInv(run[0]);
    } else {
      RunInv(run, what, who, n - 1);
      StepKeeps(run[n - 1], what[n - 1], who[n - 1], run[n]);
    }
  }

  /** However processes come, go and die, [1] and the open handles of an initialised set
      add up to BIGCOUNT, and a set that is not initialised has no handle. */
  lemma CounterExact(run: seq<State>, what: seq<Event>, who: seq<nat>, n: nat)
    requires IsRun(run, what, who) && n < |run| && Calm(run, what, who, n)
    ensures if run[n].inited then run[n].live.Some? && run[n].vals.s1 + |run[n].handles| == BIGCOUNT
            else run[n].vals.s1 == 0 && run[n].handles == map[]
  {
    RunInv(run, what, who, n);
  }

  /** [2] is 1 exactly when one live process is between lock and unlock, and 0 exactly
      when none is. */
  lemma LockExact(run: seq<State>, what: seq<Event>, who: seq<nat>, n: nat)
    requires IsRun(run, what, who) && n < |run| && Calm(run, what, who, n)
    ensures run[n].vals.s2 == 1 || run[n].vals.s2 == 0
    ensures run[n].vals.s2 == 1 <==> exists p :: InCritical(run[n], p) && forall q :: InCritical(run[n], q) ==> q == p
    ensures run[n].vals.s2 == 0 <==> forall p :: !InCritical(run[n], p)
  {
    RunInv(run, what, who, n);
    hide IsRun, InCritical;
    var s := run[n];
    forall q: nat ensures InCritical(s, q) <==> s.holder == Some(q) { assert HolderOk(s, q); }
    if s.holder.Some? { assert InCritical(s, s.holder.value); }
  }

  /** Whoever is about to set [0] or [1] does so on a set without a handle that nobody has
      initialised yet. */
  lemma NeverReinitialised(run: seq<State>, what: seq<Event>, who: seq<nat>, n: nat, p: nat)
    requires IsRun(run, what, who) && n < |run| && Calm(run, what, who, n) && p in run[n].procs
    requires run[n].procs[p].CSet0? || run[n].procs[p].CSet1?
    requires run[n].live == Some(run[n].procs[p].id)
    ensures !run[n].inited && run[n].handles == map[]
  {
    RunInv(run, what, who, n);
    assert ProcOk(run[n], p);
  }

  /** sem_close removes the set only when no handle is open, and the last sem_close that
      gets to read the counter does remove it. */
  lemma RemovedUnused(run: seq<State>, what: seq<Event>, who: seq<nat>, n: nat, p: nat)
    requires IsRun(run, what, who) && n < |run| && Calm(run, what, who, n) && p in run[n].procs
    ensures run[n].procs[p].XRm? && run[n].live == Some(run[n].procs[p].id) ==> run[n].handles == map[]
    ensures run[n].procs[p].XCheck? && run[n].live == Some(run[n].procs[p].id) ==>
              (Exec(run[n], p) == Goto(run[n], p, XRm(run[n].procs[p].id)) <==> run[n].handles == map[])
  {
    RunInv(run, what, who, n);
    var s := run[n];
    assert ProcOk(s, p);
    hide IsRun;
    if s.procs[p].XCheck? && s.live == Some(s.procs[p].id) {
      assert |s.handles| == 0 <==> s.handles == map[];
      assert Exec(s, p).procs[p] == Goto(s, p, XRm(s.procs[p].id)).procs[p] ==> s.vals.s1 == BIGCOUNT;
    }
  }

  /** A death gives the counter back what the process took from it, and the lock if it had
      it; no other process's handle or lock is touched. */
  lemma DeathUndone(run: seq<State>, what: seq<Event>, who: seq<nat>, n: nat)
    requires IsRun(run, what, who) && n < |who| && Calm(run, what, who, n) && what[n].Death?
    ensures var s, s', p := run[n], run[n + 1], who[n];
            && s'.vals.s1 == s.vals.s1 + |HandlesOf(s.handles, p)|
            && (s'.vals.s2 == 0 <==> InCritical(s, p) || s.vals.s2 == 0)
            && forall q :: q != p ==>
                HandlesOf(s'.handles, q) == HandlesOf(s.handles, q) && InCritical(s', q) == InCritical(s, q)
  {
    RunInv(run, what, who, n);
    var s, s', p := run[n], run[n + 1], who[n];
    assert Step(s, what[n], p, s');
    hide IsRun;
    DieKeeps(s, p);
    assert HolderOk(s, p);
    forall q | q != p ensures HandlesOf(s'.handles, q) == HandlesOf(s.handles, q) { HandlesLost(s.handles, p, q); }
  }

  /** Nobody waits for ever on a lock whose holder is stuck: the process in the critical
      section can always take its next step. */
  lemma CriticalRuns(run: seq<State>, what: seq<Event>, who: seq<nat>, n: nat, p: nat)
    requires IsRun(run, what, who) && n < |run| && Calm(run, what, who, n) && InCritical(run[n], p)
    ensures Enabled(run[n], p)
  {
    RunInv(run, what, who, n);
    var s := run[n];
    assert HolderOk(s, p) && ProcOk(s, p);
    Positive(s);
    hide IsRun, Semop;
    EndCreate(s.vals, ZERO);
    One(s.vals, ZERO, 2, -1);
  }

  // -- At BIGCOUNT -----------------------------------------------------------------------

  /** Up to the first time, on an initialised set sem_create goes on to set [0] again exactly
      when BIGCOUNT handles are open. */
  lemma ReinitialisedIff(run: seq<State>, what: seq<Event>, who: seq<nat>, n: nat, p: nat)
    requires IsRun(run, what, who) && n < |run| && Calm(run, what, who, n)
    requires var s := run[n]; s.inited && p in s.procs && s.procs[p].CCheck? && s.live == Some(s.procs[p].id)
    ensures p in Exec(run[n], p).procs
    ensures Exec(run[n], p).procs[p].CSet0? <==> |run[n].handles| == BIGCOUNT
  {
    RunInv(run, what, who, n);
  }

  /** So a run in which fewer than BIGCOUNT handles are open at every step is calm. */
  lemma {:induction false} FewHandlesCalm(run: seq<State>, what: seq<Event>, who: seq<nat>, n: nat)
    requires IsRun(run, what, who) && n < |run|
    requires forall i :: 0 <= i < n ==> |run[i].handles| < BIGCOUNT
    ensures Calm(run, what, who, n)
  {
    if n > 0 {
      FewHandlesCalm(run, what, who, n - 1);
      RunInv(run, what, who, n - 1);
      hide Step;
      assert !FullCheck(run[n - 1], who[n - 1]);
    }
  }

  ghost predicate Reachable(s: State) {
    exists run, what, who :: IsRun(run, what, who) && run[|who|] == s
  }

  lemma Onward(s: State, e: Event, p: nat, s': State)
    requires Reachable(s) && Step(s, e, p, s')
    ensures Reachable(s')
  {
    hide Step, Init;
    var run, what, who :| IsRun(run, what, who) && run[|who|] == s;
    var run', what', who' := run + [s'], what + [e], who + [p];
    forall i | 0 <= i < |who'| ensures Step(run'[i], what'[i], who'[i], run'[i + 1]) {
      assert i < |who| ==> Step(run[i], what[i], who[i], run[i + 1]);
    }
    assert IsRun(run', what', who');
  }

  /** Handles 0 to n - 1, all of process 0. */
  function Mine(n: nat): (m: map<nat, nat>)
    ensures |m| == n && forall h :: h in m ==> h < n
  {
    if n == 0 then map[] else var m := Mine(n - 1); assert m[n - 1 := 0].Keys == m.Keys + {n - 1}; m[n - 1 := 0]
  }

  /** One process with `n` handles, at program point `pc`, `x` in [0]. */
  function Full(n: nat, x: nat, pc: Pc, locked: bool): State {
    State(Some(0), Triple(x, BIGCOUNT - n, if locked then 1 else 0), map[0 := Triple(0, n, if locked then -1 else 0)],
          1, map[0 := pc], Mine(n), n, true, if locked then Some(0) else None)
  }

  /** The process calls sem_create and gets as far as reading the counter. */
  lemma Reopen(n: nat, x: nat, y: nat)
    requires Reachable(Full(n, x, Idle, false))
    ensures Reachable(Full(n, x, CCheck(y, 0), true))
  {
    hide Reachable;
    var s := Full(n, x, Idle, false);
    Onward(s, Create(y), 0, Full(n, x, CGet(y), false));
    Onward(Full(n, x, CGet(y), false), Run, 0, Full(n, x, CLock(y, 0), false));
    Lock(s.vals, s.adj[0]);
    hide Semop, Adjust;
    Onward(Full(n, x, CLock(y, 0), false), Run, 0, Full(n, x, CCheck(y, 0), true));
  }

  lemma OneMore(n: nat, x: nat)
    requires Reachable(Full(n, x, Idle, false)) && n < BIGCOUNT
    ensures Reachable(Full(n + 1, x, Idle, false))
  {
    hide Reachable;
    Reopen(n, x, x);
    var s := Full(n, x, CEnd(x, 0), true);
    Onward(Full(n, x, CCheck(x, 0), true), Run, 0, s);
    EndCreate(s.vals, s.adj[0]);
    hide Semop, Adjust;
    Onward(s, Run, 0, Full(n + 1, x, Idle, false));
  }

  /** The set as its creator finds it, having locked it. */
  function Created(x: nat): State {
    State(Some(0), Triple(0, 0, 1), map[0 := Triple(0, 0, -1)], 1, map[0 := CCheck(x, 0)], map[], 0, false, Some(0))
  }

  lemma FirstLock(x: nat)
    ensures Reachable(Created(x))
  {
    var s0 := State(None, ZERO, map[], 0, map[], map[], 0, false, None);
    var nobody: seq<nat> := [];
    assert IsRun([s0], [], nobody) && [s0][|nobody|] == s0;
    hide Reachable;
    Lock(ZERO, ZERO);
    hide Semop, Adjust;
    Onward(s0, Start, 0, Goto(s0, 0, Idle));
    Onward(Goto(s0, 0, Idle), Create(x), 0, Goto(s0, 0, CGet(x)));
    var s2 := State(Some(0), ZERO, map[], 1, map[0 := CLock(x, 0)], map[], 0, false, None);
    Onward(Goto(s0, 0, CGet(x)), Run, 0, s2);
    Onward(s2, Run, 0, Created(x));
  }

  lemma Opened(x: nat)
    ensures Reachable(Full(0, x, CEnd(x, 0), true))
  {
    FirstLock(x);
    hide Reachable, Semop, Adjust;
    var s3 := Created(x);
    Onward(s3, Run, 0, Goto(s3, 0, CSet0(x, 0)));
    var s4 := Goto(s3, 0, CSet1(x, 0)).(vals := Triple(x, 0, 1));
    Onward(Goto(s3, 0, CSet0(x, 0)), Run, 0, s4);
    Onward(s4, Run, 0, Full(0, x, CEnd(x, 0), true));
  }

  lemma {:induction false} Opens(n: nat, x: nat)
    requires 1 <= n <= BIGCOUNT
    ensures Reachable(Full(n, x, Idle, false))
  {
    hide Reachable;
    if n > 1 {
      Opens(n - 1, x);
      OneMore(n - 1, x);
    } else {
      Opened(x);
      var s := Full(0, x, CEnd(x, 0), true);
      EndCreate(s.vals, s.adj[0]);
      hide Semop, Adjust;
      Onward(s, Run, 0, Full(1, x, Idle, false));
    }
  }

  /** The bound is exact: with BIGCOUNT handles open the next sem_create sets [0] to its
      own initial value under all of them. */
  lemma ReinitialisedAtBigcount(x: nat, y: nat)
    ensures exists s :: Reachable(s) && |s.handles| == BIGCOUNT && s.vals.s0 == x
                        && 0 in s.procs && s.procs[0] == CSet0(y, 0) && s.live == Some(0) && Exec(s, 0).vals.s0 == y
  {
    hide Reachable, Mine;
    Opens(BIGCOUNT, x);
    Reopen(BIGCOUNT, x, y);
    var s := Full(BIGCOUNT, x, CSet0(y, 0), true);
    Onward(Full(BIGCOUNT, x, CCheck(y, 0), true), Run, 0, s);
  }
}

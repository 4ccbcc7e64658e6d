/** Every step of threads/queue.c keeps the invariant, and what follows for whole runs. */
module QueueRuns {
  import opened Lists
  import opened Jobs
  import opened QueueProcs
  import opened QueueInv

  ghost predicate Ready(s: State, t: nat) { Inv(s) && t in s.threads && Enabled(s, t) }

  // -- Steps that change locks and places only -------------------------------------------

  lemma QuietStep(s: State, s': State, t: nat)
    requires Inv(s) && LocksMove(s, s', t) && ThreadOk(s', t) && Removing(s', t) == Removing(s, t)
    requires Owned(s'.threads[t]).Some? ==> Owned(s'.threads[t]) == Owned(s.threads[t])
    requires s'.list == s.list && s'.jobs == s.jobs && s'.sent == s.sent && s'.handled == s.handled
    ensures Inv(s')
  {
    hide LocksOk, PcOk, Owned, HoldsM, HoldsR, HoldsW, NoneBefore, For, SentTo, HandledBy;
    forall u | u in s.threads && u != t ensures Rely(s, s', u) { RelyWalk(s, s', s.threads[u], u); }
    forall i | 0 <= i < NTHREAD ensures Law(s', i) {
      assert Law(s, i);
      assert Removing(s', i) == Removing(s, i);
    }
    Assemble(s, s', t);
  }

  predicate LockPc(pc: Pc) { pc.WLock? || pc.WCheck? || pc.WSleep? }

  lemma StepLocks(s: State, t: nat)
    requires Ready(s, t) && t < NTHREAD && LockPc(s.threads[t])
    ensures Inv(Exec(s, t))
  {
    var s' := Exec(s, t);
    assert ThreadOk(s, t) && HoldOk(s, t);
    hide Inv, LocksOk, ListOk, First;
    QuietStep(s, s', t);
  }

  predicate RelockPc(pc: Pc) { pc.WRelock? || pc.WRdLock? }

  lemma StepRelock(s: State, t: nat)
    requires Ready(s, t) && t < NTHREAD && RelockPc(s.threads[t])
    ensures Inv(Exec(s, t))
  {
    var s' := Exec(s, t);
    assert ThreadOk(s, t) && HoldOk(s, t);
    hide Inv, LocksOk, ListOk, First;
    QuietStep(s, s', t);
  }

  predicate YieldPc(pc: Pc) { pc.WYield? || pc.WYieldLock? || pc.WWait? }

  lemma StepYield(s: State, t: nat)
    requires Ready(s, t) && t < NTHREAD && YieldPc(s.threads[t])
    ensures Inv(Exec(s, t))
  {
    var s' := Exec(s, t);
    assert ThreadOk(s, t) && HoldOk(s, t);
    hide Inv, LocksOk, ListOk, First;
    QuietStep(s, s', t);
  }

  predicate WakePc(pc: Pc) { pc.WDoze? || pc.WWake? || pc.WUnlock? }

  lemma StepWake(s: State, t: nat)
    requires Ready(s, t) && t < NTHREAD && WakePc(s.threads[t])
    ensures Inv(Exec(s, t))
  {
    var s' := Exec(s, t);
    assert ThreadOk(s, t) && HoldOk(s, t);
    hide Inv, LocksOk, ListOk, First;
    QuietStep(s, s', t);
  }

  lemma StepWalk(s: State, t: nat)
    requires Ready(s, t) && t < NTHREAD && s.threads[t].WWalk?
    ensures Inv(Exec(s, t))
  {
    var s', pc := Exec(s, t), s.threads[t];
    assert ThreadOk(s, t);
    assert pc.jp != 0 ==> First(s, t, pc.jp) || !IsFor(s.jobs, pc.jp, t) by {
      if pc.jp != 0 { AtPosition(s.list, pc.k); }
    }
    hide Inv, LocksOk, First, Position;
    RelyWalk(s, s', pc, t);
    QuietStep(s, s', t);
  }

  lemma AtPosition(l: seq<nat>, k: nat)
    requires NoDup(l) && k < |l|
    ensures Position(l, l[k]) == k
  {
  }

  lemma StepFound(s: State, t: nat)
    requires Ready(s, t) && t < NTHREAD && (s.threads[t].WRdUnlock? || s.threads[t].WWrLock? || s.threads[t].WWrUnlock?)
    ensures Inv(Exec(s, t))
  {
    var s', pc := Exec(s, t), s.threads[t];
    assert ThreadOk(s, t) && HoldOk(s, t);
    hide Inv, LocksOk, ListOk, First;
    RelyWalk(s, s', pc, t);
    QuietStep(s, s', t);
  }

  lemma StepAppendLocks(s: State, t: nat)
    requires Ready(s, t) && t >= NTHREAD && !s.threads[t].ALink?
    ensures Inv(Exec(s, t))
  {
    var s', pc := Exec(s, t), s.threads[t];
    assert ThreadOk(s, t) && HoldOk(s, t);
    hide Inv, LocksOk, ListOk, First;
    QuietStep(s, s', t);
  }

  // -- Handling a job --------------------------------------------------------------------

  lemma Shift(a: seq<Task>, m: seq<Task>)
    requires m != []
    ensures a + m == (a + [m[0]]) + m[1..]
  {
  }

  lemma PrintLaw(s: State, s': State, t: nat, jp: nat, i: nat)
    requires ListOk(s) && Law(s, i) && t in s.threads && s.threads[t] == WPrint(jp) && First(s, t, jp) && jp in s.jobs
    requires s' == Goto(s.(handled := s.handled + [Handled(t, s.jobs[jp])]), t, WWrLock(jp))
    ensures Law(s', i)
  {
    HandledNext(s.handled, Handled(t, s.jobs[jp]), i);
    FirstHeads(s, t, jp);
    hide SentTo, HandledBy, For, ListOk, First;
    if i == t {
      Shift(HandledBy(s.handled, t), For(s.list, s.jobs, t));
    } else {
      assert Removing(s', i) == Removing(s, i);
    }
  }

  lemma StepPrint(s: State, t: nat)
    requires Ready(s, t) && t < NTHREAD && s.threads[t].WPrint?
    ensures Inv(Exec(s, t))
  {
    var s', jp := Exec(s, t), s.threads[t].jp;
    assert ThreadOk(s, t);
    forall i | 0 <= i < NTHREAD ensures Law(s', i) { assert Law(s, i); PrintLaw(s, s', t, jp, i); }
    hide Inv, LocksOk, Law, Position;
    RelyWalk(s, s', s.threads[t], t);
    forall u | u in s.threads && u != t ensures Rely(s, s', u) { RelyWalk(s, s', s.threads[u], u); }
    Assemble(s, s', t);
  }

  // -- Removing a job --------------------------------------------------------------------

  lemma RemoveLaw(s: State, s': State, t: nat, jp: nat, i: nat)
    requires ListOk(s) && Law(s, i) && t in s.threads && s.threads[t] == WRemove(jp) && First(s, t, jp)
    requires s' == Goto(Unlink(s, jp), t, WWrUnlock)
    ensures Law(s', i)
  {
    FirstHeads(s, t, jp);
    OthersKeep(s, t, jp, i);
    hide SentTo, HandledBy, For, ListOk, First;
    assert i != t ==> Removing(s', i) == Removing(s, i);
  }

  lemma OthersKeep(s: State, t: nat, jp: nat, i: nat)
    requires ListOk(s) && First(s, t, jp)
    ensures i != t ==> For(Without(s.list, Position(s.list, jp)), s.jobs - {jp}, i) == For(s.list, s.jobs, i)
  {
    var k := Position(s.list, jp);
    assert k < |s.list| && s.list[k] == jp && s.jobs[jp].to == t;
    hide For, First, Position, ListOk, NoDup;
    ForWithout(s, k, i);
    ForOne(jp, s.jobs, i);
    var a := For(s.list[..k], s.jobs, i);
    assert a + [] == a;
  }

  lemma {:induction false} PositionBefore(l: seq<nat>, o: nat, k: nat)
    requires NoDup(l) && k < |l| && o in l && o != l[k]
    ensures o in Without(l, k)
        && Position(Without(l, k), o) == (if Position(l, o) < k then Position(l, o) else Position(l, o) - 1)
  {
    WithoutMember(l, k, o);
    var m := Without(l, k);
    var p := Position(l, o);
    var q := if p < k then p else p - 1;
    assert m[q] == o;
    AtPosition(m, q);
  }

  lemma FirstStays(s: State, s': State, u: nat, o: nat, k: nat)
    requires ListOk(s) && First(s, u, o) && k < |s.list| && s.list[k] != o
    requires s'.list == Without(s.list, k) && s'.jobs == s.jobs - {s.list[k]}
    ensures First(s', u, o)
  {
    PositionBefore(s.list, o, k);
    var p' := Position(s'.list, o);
    forall j | 0 <= j < p' ensures !IsFor(s'.jobs, s'.list[j], u) {
      assert s'.list[j] == s.list[if j < k then j else j + 1];
    }
  }

  lemma RemoveList(s: State, k: nat)
    requires ListOk(s) && k < |s.list|
    ensures ListOk(s.(list := Without(s.list, k), jobs := s.jobs - {s.list[k]}))
  {
    WithoutMember(s.list, k, 0);
    var l := Without(s.list, k);
    forall j | 0 <= j < |l| ensures l[j] in s.list && l[j] != s.list[k] { WithoutMember(s.list, k, l[j]); }
  }

  lemma RemoveRely(s: State, s': State, t: nat, u: nat, jp: nat)
    requires Inv(s) && t in s.threads && u in s.threads && u != t && s.threads[t] == WRemove(jp) && First(s, t, jp)
    requires u in s'.threads && s'.threads[u] == s.threads[u]
    requires s'.list == Without(s.list, Position(s.list, jp)) && s'.jobs == s.jobs - {jp}
    ensures Rely(s, s', u)
  {
    var k := Position(s.list, jp);
    assert HoldOk(s, t) && HoldOk(s, u) && ThreadOk(s, u);
    assert Owned(s.threads[u]).Some? ==> Owned(s.threads[u]).value !in s.list;
    forall o | First(s, u, o) ensures First(s', u, o) { FirstStays(s, s', u, o, k); }
    hide First, LocksOk;
    forall o | o !in s.list ensures o !in s'.list { WithoutMember(s.list, k, o); }
  }

  lemma StepRemove(s: State, t: nat)
    requires Ready(s, t) && t < NTHREAD && s.threads[t].WRemove?
    ensures Inv(Exec(s, t))
  {
    var s', jp := Exec(s, t), s.threads[t].jp;
    assert ThreadOk(s, t);
    forall i | 0 <= i < NTHREAD ensures Law(s', i) { assert Law(s, i); RemoveLaw(s, s', t, jp, i); }
    RemoveList(s, Position(s.list, jp));
    forall u | u in s.threads && u != t ensures Rely(s, s', u) { RemoveRely(s, s', t, u, jp); }
    hide Inv, LocksOk, Law, Position, First, Rely;
    Assemble(s, s', t);
  }

  // -- Appending a job -------------------------------------------------------------------

  lemma LinkLaw(s: State, t: nat, o: nat, i: nat)
    requires Inv(s) && t in s.threads && t >= NTHREAD && o in s.jobs && o !in s.list && i < NTHREAD
    ensures Law(Goto(Link(s, o), t, AWrUnlock(s.jobs[o].to)), i)
  {
    assert Law(s, i);
    LawRemoving(s, i);
    LinkFor(s, o, i);
    hide Inv, SentTo, HandledBy, For;
    var job := s.jobs[o].(tag := |s.sent|);
    var s' := Goto(Link(s, o), t, AWrUnlock(s.jobs[o].to));
    SentNext(s.sent, job, i);
    assert Removing(s', i) == Removing(s, i);
    if job.to == i { Later(HandledBy(s.handled, i), For(s.list, s.jobs, i), job, Removing(s, i)); }
  }

  /** The job joins the end of its worker's jobs. */
  lemma LinkFor(s: State, o: nat, i: nat)
    requires Inv(s) && o in s.jobs && o !in s.list
    ensures var job := s.jobs[o].(tag := |s.sent|);
            For(s.list + [o], s.jobs[o := job], i) == For(s.list, s.jobs, i) + if job.to == i then [job] else []
  {
    var jobs := s.jobs[o := s.jobs[o].(tag := |s.sent|)];
    ForSame(s.list, s.jobs, jobs, i);
    hide Inv, For, ListOk;
    ForJoin(s.list, [o], jobs, i);
    ForOne(o, jobs, i);
  }

  lemma Later(h: seq<Task>, m: seq<Task>, job: Task, drop: bool)
    requires drop ==> m != []
    ensures (m + [job]) != []
    ensures h + (if drop then m[1..] else m) + [job] == h + if drop then (m + [job])[1..] else m + [job]
  {
    assert drop ==> (m + [job])[1..] == m[1..] + [job];
  }

  /** Whoever is removing a job still has it on the list. */
  lemma LawRemoving(s: State, i: nat)
    requires Inv(s)
    ensures Removing(s, i) ==> For(s.list, s.jobs, i) != []
  {
    if Removing(s, i) {
      assert ThreadOk(s, i);
      FirstHeads(s, i, s.threads[i].jp);
    }
  }

  lemma LinkRely(s: State, s': State, t: nat, u: nat, o: nat)
    requires Inv(s) && t in s.threads && u in s.threads && u != t && s.threads[t].ALink? && s.threads[t].o == o
    requires o in s.jobs && o !in s.list
    requires u in s'.threads && s'.threads[u] == s.threads[u]
    requires s'.list == s.list + [o] && s'.jobs == s.jobs[o := s.jobs[o].(tag := |s.sent|)]
    ensures Rely(s, s', u)
  {
    assert HoldOk(s, t) && HoldOk(s, u) && ThreadOk(s, u) && PairOk(s, t, u);
    forall jp | First(s, u, jp) ensures First(s', u, jp) { PositionJoin(s.list, o, jp); }
    hide First, LocksOk, Position;
  }

  lemma PositionJoin(l: seq<nat>, o: nat, jp: nat)
    requires jp in l
    ensures Position(l + [o], jp) == Position(l, jp)
  {
    if l[0] != jp {
      PositionJoin(l[1..], o, jp);
      assert (l + [o])[1..] == l[1..] + [o];
    }
  }

  lemma StepLink(s: State, t: nat)
    requires Ready(s, t) && t >= NTHREAD && s.threads[t].ALink?
    ensures Inv(Exec(s, t))
  {
    var s', o := Exec(s, t), s.threads[t].o;
    assert ThreadOk(s, t);
    forall i | 0 <= i < NTHREAD ensures Law(s', i) { LinkLaw(s, t, o, i); }
    forall u | u in s.threads && u != t ensures Rely(s, s', u) { LinkRely(s, s', t, u, o); }
    assert ListOk(s');
    hide Inv, LocksOk, Law, Position, First, Rely, ListOk;
    Assemble(s, s', t);
  }

  lemma AppendLocks(s: State, s': State, t: nat)
    requires LocksOk(s) && (t in s.threads ==> s.threads[t].Idle?) && t in s'.threads && s'.threads[t].ALock?
    requires s'.threads == s.threads[t := s'.threads[t]] && s'.mutex == s.mutex && s'.w == s.w && s'.r == s.r
    ensures LocksOk(s')
  {
    forall i | i in s'.mutex ensures MutexOk(s', i) { assert MutexOk(s, i); }
    forall u | u in s'.threads ensures HoldOk(s', u) { assert u in s.threads ==> HoldOk(s, u); }
  }

  lemma AppendList(s: State, s': State, t: nat, o: nat)
    requires Inv(s) && o !in s.jobs && o in s'.jobs && t >= NTHREAD && t in s'.threads
    requires s' == s.(threads := s.threads[t := s'.threads[t]], jobs := s.jobs[o := s'.jobs[o]])
    ensures ListOk(s') && forall i :: 0 <= i < NTHREAD ==> Law(s', i)
  {
    forall i | 0 <= i < NTHREAD ensures Law(s', i) {
      assert Law(s, i);
      ForSame(s.list, s.jobs, s'.jobs, i);
      hide SentTo, HandledBy, For, LocksOk;
      assert Removing(s', i) == Removing(s, i);
    }
  }

  lemma StepAppend(s: State, t: nat, to: nat, o: nat)
    requires Inv(s) && t >= NTHREAD && (t in s.threads ==> s.threads[t].Idle?) && to < NTHREAD && o != 0 && o !in s.jobs
    ensures Inv(Goto(s.(jobs := s.jobs[o := Task(to, 0)]), t, ALock(to, o)))
  {
    var s' := Goto(s.(jobs := s.jobs[o := Task(to, 0)]), t, ALock(to, o));
    AppendLocks(s, s', t);
    AppendList(s, s', t, o);
    hide HoldsM, HoldsR, HoldsW, For, LocksOk;
    hide LocksOk, Law, Position, ListOk;
    forall u | u in s'.threads ensures ThreadOk(s', u) { if u != t { assert ThreadOk(s, u); } }
    forall a, b | a in s'.threads && b in s'.threads && a != b ensures PairOk(s', a, b) {
      assert a in s.threads ==> ThreadOk(s, a);
      assert b in s.threads ==> ThreadOk(s, b);
      assert a in s.threads && b in s.threads ==> PairOk(s, a, b);
    }
  }

  // -- Runs ------------------------------------------------------------------------------

  lemma ExecKeeps(s: State, t: nat)
    requires Ready(s, t)
    ensures Inv(Exec(s, t))
  {
    assert ThreadOk(s, t);
    hide Inv, Exec, PcOk;
    var pc := s.threads[t];
    if t >= NTHREAD {
      if pc.ALink? { StepLink(s, t); } else { StepAppendLocks(s, t); }
    } else if LockPc(pc) {
      StepLocks(s, t);
    } else if RelockPc(pc) {
      StepRelock(s, t);
    } else if YieldPc(pc) {
      StepYield(s, t);
    } else if WakePc(pc) {
      StepWake(s, t);
    } else {
      match pc
      case WWalk(_, _) => StepWalk(s, t);
      case WPrint(_) => StepPrint(s, t);
      case WRemove(_) => StepRemove(s, t);
      case WRdUnlock(_) => StepFound(s, t);
      case WWrLock(_) => StepFound(s, t);
      case WWrUnlock => StepFound(s, t);
    }
  }

  lemma StepKeeps(s: State, e: Event, t: nat, s': State)
    requires Inv(s) && Step(s, e, t, s')
    ensures Inv(s')
  {
    hide Inv, Exec, Enabled;
    match e
    case Run => ExecKeeps(s, t);
    case Append(to, o) => StepAppend(s, t, to, o);
  }

  lemma InitInv(s: State)
    requires Init(s)
    ensures Inv(s)
  {
  }

  lemma {:induction false} RunInv(run: seq<State>, what: seq<Event>, who: seq<nat>, n: nat)
    requires IsRun(run, what, who) && n < |run|
    ensures Inv(run[n])
  {
    hide Inv, Init, Step;
    if n == 0 {
      InitInv(run[0]);
    } else {
      RunInv(run, what, who, n - 1);
      StepKeeps(run[n - 1], what[n - 1], who[n - 1], run[n]);
    }
  }

  /** From job_find's return to its own job_remove, a worker's job stays allocated, on the
      list, addressed to it, and ahead of every other job addressed to it. */
  lemma FoundStays(run: seq<State>, what: seq<Event>, who: seq<nat>, n: nat, i: nat)
    requires IsRun(run, what, who) && n < |run| && i in run[n].threads
    requires run[n].threads[i].WPrint? || run[n].threads[i].WWrLock? || run[n].threads[i].WRemove?
    ensures var s, jp := run[n], run[n].threads[i].jp;
            && jp in s.jobs && jp in s.list && s.jobs[jp].to == i
            && For(s.list, s.jobs, i) != [] && For(s.list, s.jobs, i)[0] == s.jobs[jp]
  {
    RunInv(run, what, who, n);
    assert ThreadOk(run[n], i);
    hide IsRun;
    FirstHeads(run[n], i, run[n].threads[i].jp);
  }

  /** Each worker handles the jobs appended for it, no others, each once and in the order
      of appending: what was appended for it is what it has handled and what waits. */
  lemma HandledInOrder(run: seq<State>, what: seq<Event>, who: seq<nat>, n: nat, i: nat)
    requires IsRun(run, what, who) && n < |run| && i < NTHREAD
    ensures SentTo(run[n].sent, i) == HandledBy(run[n].handled, i) + Waiting(run[n], i)
  {
    RunInv(run, what, who, n);
    assert Law(run[n], i);
  }

  lemma {:induction false} SentIncreasing(sent: seq<Task>, i: nat)
    requires Numbered(sent)
    ensures forall a :: 0 <= a < |SentTo(sent, i)| ==> SentTo(sent, i)[a].to == i && SentTo(sent, i)[a].tag < |sent|
    ensures forall a, b :: 0 <= a < b < |SentTo(sent, i)| ==> SentTo(sent, i)[a].tag < SentTo(sent, i)[b].tag
  {
    if sent != [] { SentIncreasing(sent[..|sent| - 1], i); }
  }

  /** So no job is handled twice, or by a worker it is not for. */
  lemma HandledOnce(run: seq<State>, what: seq<Event>, who: seq<nat>, n: nat, i: nat)
    requires IsRun(run, what, who) && n < |run| && i < NTHREAD
    ensures var h := HandledBy(run[n].handled, i);
            && (forall a :: 0 <= a < |h| ==> h[a].to == i)
            && (forall a, b :: 0 <= a < b < |h| ==> h[a].tag < h[b].tag)
  {
    RunInv(run, what, who, n);
    HandledInOrder(run, what, who, n, i);
    hide IsRun, Inv, SentTo, HandledBy, Waiting;
    var h, all := HandledBy(run[n].handled, i), SentTo(run[n].sent, i);
    SentNumbered(run[n]);
    SentIncreasing(run[n].sent, i);
    assert forall a :: 0 <= a < |h| ==> h[a] == all[a];
  }

  lemma SentNumbered(s: State)
    requires Inv(s)
    ensures Numbered(s.sent)
  {
  }

  /** Waiting on a condition variable, or between calls. */
  predicate Asleep(pc: Pc) { pc.WSleep? || pc.WDoze? || pc.Idle? }

  /** `t` waits, and `u` holds the lock that it waits for. */
  predicate WaitsFor(s: State, t: nat, u: nat)
    requires t in s.threads
  {
    && !Enabled(s, t)
    && match s.threads[t]
       case ALock(to, _) => to in s.mutex && s.mutex[to] == u
       case WRdLock => s.w == Some(u)
       case WWrLock(_) => s.w == Some(u) || u in s.r
       case AWrLock(_, _) => s.w == Some(u) || u in s.r
       case _ => t in s.mutex && s.mutex[t] == u
  }

  predicate Runs(s: State, t: nat) { t in s.threads && !Asleep(s.threads[t]) && Enabled(s, t) }

  /** There is somebody to wait for, and everybody that `t` waits for is awake and can take a
      step. */
  ghost predicate WaitsForRunning(s: State, t: nat)
    requires t in s.threads
  {
    (exists u :: WaitsFor(s, t, u)) && forall u :: WaitsFor(s, t, u) ==> Runs(s, u)
  }

  predicate WantsList(pc: Pc) { pc.WRdLock? || pc.WWrLock? || pc.AWrLock? }

  /** Whoever waits waits for somebody. */
  lemma Somebody(s: State, t: nat)
    requires t in s.threads && !Asleep(s.threads[t]) && !Enabled(s, t)
    ensures exists u :: WaitsFor(s, t, u)
  {
    var pc := s.threads[t];
    if WantsList(pc) {
      if s.w.Some? {
        assert WaitsFor(s, t, s.w.value);
      } else {
        var u :| u in s.r;
        assert WaitsFor(s, t, u);
      }
    } else {
      assert WaitsFor(s, t, s.mutex[if pc.ALock? then pc.to else t]);
    }
  }

  /** A thread that waits for the list's lock waits for threads that can run. */
  lemma InnerWait(s: State, t: nat)
    requires LocksOk(s) && t in s.threads && WantsList(s.threads[t]) && !Enabled(s, t)
    ensures WaitsForRunning(s, t)
  {
    Somebody(s, t);
    forall u | WaitsFor(s, t, u) ensures Runs(s, u) { assert HoldOk(s, u); }
  }

  /** Whoever holds a worker's mutex can run, or waits for the list's lock. */
  lemma MutexHolder(s: State, t: nat, u: nat)
    requires LocksOk(s) && t in s.threads && !Asleep(s.threads[t]) && !WantsList(s.threads[t]) && WaitsFor(s, t, u)
    ensures Runs(s, u) || (u in s.threads && WantsList(s.threads[u]) && !Enabled(s, u))
  {
    var i :| i in s.mutex && s.mutex[i] == u;
    assert MutexOk(s, i);
  }

  /** Waits go from a worker's mutex to the list's lock and no further: a thread that is awake
      can take a step, or everybody that it waits for is awake and can take one, or waits only
      for threads that can. */
  lemma NoDeadlock(run: seq<State>, what: seq<Event>, who: seq<nat>, n: nat, t: nat)
    requires IsRun(run, what, who) && n < |run| && t in run[n].threads && !Asleep(run[n].threads[t])
    ensures var s := run[n];
            || Enabled(s, t)
            || ((exists u :: WaitsFor(s, t, u))
                && forall u :: WaitsFor(s, t, u) ==> Runs(s, u) || (u in s.threads && WaitsForRunning(s, u)))
  {
    RunInv(run, what, who, n);
    var s := run[n];
    hide IsRun, ListOk, PcOk, Law, Enabled;
    if !Enabled(s, t) {
      Somebody(s, t);
      forall u | WaitsFor(s, t, u) ensures Runs(s, u) || (u in s.threads && WaitsForRunning(s, u)) {
        if WantsList(s.threads[t]) {
          InnerWait(s, t);
        } else {
          MutexHolder(s, t, u);
          if !Runs(s, u) { InnerWait(s, u); }
        }
      }
    }
  }
}

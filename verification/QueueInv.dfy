/** What every step keeps. */
module QueueInv {
  import opened Lists
  import opened Jobs
  import opened QueueProcs

  // -- Locks follow from program points --------------------------------------------------

  /** The worker whose q_mutex a thread holds. */
  function HoldsM(t: nat, pc: Pc): Option<nat> {
    match pc
    case AWrLock(to, _) => Some(to)
    case ALink(to, _) => Some(to)
    case AWrUnlock(to) => Some(to)
    case AUnlock(to) => Some(to)
    case _ =>
      if || pc.WLock? || pc.WSleep? || pc.WRelock? || pc.WYieldLock? || pc.WDoze? || pc.WWake? || pc.Idle? || pc.ALock?
      then None else Some(t)
  }

  predicate HoldsR(pc: Pc) { pc.WWalk? || pc.WRdUnlock? }

  predicate HoldsW(pc: Pc) { pc.WRemove? || pc.WWrUnlock? || pc.ALink? || pc.AWrUnlock? }

  predicate MutexOk(s: State, i: nat)
    requires i in s.mutex
  {
    s.mutex[i] in s.threads && HoldsM(s.mutex[i], s.threads[s.mutex[i]]) == Some(i)
  }

  predicate HoldOk(s: State, t: nat)
    requires t in s.threads
  {
    && (HoldsM(t, s.threads[t]).Some? ==>
          HoldsM(t, s.threads[t]).value in s.mutex && s.mutex[HoldsM(t, s.threads[t]).value] == t)
    && (HoldsR(s.threads[t]) <==> t in s.r)
    && (HoldsW(s.threads[t]) <==> s.w == Some(t))
  }

  ghost predicate LocksOk(s: State) {
    && (s.w.Some? ==> s.r == {} && s.w.value in s.threads)
    && (forall t :: t in s.r ==> t in s.threads)
    && (forall i {:trigger MutexOk(s, i)} :: i in s.mutex ==> MutexOk(s, i))
    && (forall t {:trigger HoldOk(s, t)} :: t in s.threads ==> HoldOk(s, t))
  }

  // -- The list and its jobs -------------------------------------------------------------

  predicate IsFor(jobs: map<nat, Task>, o: nat, i: nat) { o in jobs && jobs[o].to == i }

  /** The jobs on a list that are for worker `i`, in order. */
  function For(l: seq<nat>, jobs: map<nat, Task>, i: nat): (m: seq<Task>) {
    if l == [] then []
    else (if l[0] in jobs && jobs[l[0]].to == i then [jobs[l[0]]] else []) + For(l[1..], jobs, i)
  }

  /** The jobs appended for worker `i`, in order. */
  function SentTo(sent: seq<Task>, i: nat): seq<Task> {
    if sent == [] then []
    else
      var n := |sent| - 1;
      if sent[n].to == i then SentTo(sent[..n], i) + [sent[n]] else SentTo(sent[..n], i)
  }

  /** The jobs that worker `i` has handled, in order. */
  function HandledBy(handled: seq<Handled>, i: nat): seq<Task> {
    if handled == [] then []
    else
      var n := |handled| - 1;
      if handled[n].worker == i then HandledBy(handled[..n], i) + [handled[n].job] else HandledBy(handled[..n], i)
  }

  /** Worker `i` has handled a job that it has not removed yet. */
  predicate Removing(s: State, i: nat) { i in s.threads && (s.threads[i].WWrLock? || s.threads[i].WRemove?) }

  /** The jobs for worker `i` still to be handled. */
  function Waiting(s: State, i: nat): seq<Task> {
    var m := For(s.list, s.jobs, i);
    if Removing(s, i) && m != [] then m[1..] else m
  }

  /** What was appended for a worker is what it has handled and then what waits for it. */
  predicate Law(s: State, i: nat) { SentTo(s.sent, i) == HandledBy(s.handled, i) + Waiting(s, i) }

  /** A job's tag is its place in the order of appending. */
  predicate Numbered(sent: seq<Task>) { forall n :: 0 <= n < |sent| ==> sent[n].tag == n }

  predicate ListOk(s: State) {
    && NoDup(s.list) && Numbered(s.sent)
    && forall k :: 0 <= k < |s.list| ==> s.list[k] != 0 && s.list[k] in s.jobs && s.jobs[s.list[k]].to < NTHREAD
  }

  // -- Threads ---------------------------------------------------------------------------

  predicate NoneBefore(s: State, k: nat, t: nat) {
    k <= |s.list| && forall j :: 0 <= j < k ==> !IsFor(s.jobs, s.list[j], t)
  }

  /** `jp` is the first job for `t`. */
  predicate First(s: State, t: nat, jp: nat) {
    jp in s.list && IsFor(s.jobs, jp, t) && NoneBefore(s, Position(s.list, jp), t)
  }

  predicate Private(s: State, o: nat, to: nat) { o != 0 && IsFor(s.jobs, o, to) && o !in s.list && to < NTHREAD }

  predicate PcOk(s: State, t: nat, pc: Pc) {
    match pc
    case WWalk(jp, k) => NoneBefore(s, k, t) && jp == At(s.list, k)
    case WRdUnlock(jp) => jp == 0 || First(s, t, jp)
    case WPrint(jp) => First(s, t, jp)
    case WWrLock(jp) => First(s, t, jp)
    case WRemove(jp) => First(s, t, jp)
    case ALock(to, o) => Private(s, o, to)
    case AWrLock(to, o) => Private(s, o, to)
    case ALink(to, o) => Private(s, o, to)
    case AWrUnlock(to) => to < NTHREAD
    case AUnlock(to) => to < NTHREAD
    case _ => true
  }

  predicate IsAppender(pc: Pc) {
    pc.Idle? || pc.ALock? || pc.AWrLock? || pc.ALink? || pc.AWrUnlock? || pc.AUnlock?
  }

  predicate ThreadOk(s: State, t: nat)
    requires t in s.threads
  {
    PcOk(s, t, s.threads[t]) && (IsAppender(s.threads[t]) <==> t >= NTHREAD)
  }

  function Owned(pc: Pc): Option<nat> {
    match pc
    case ALock(_, o) => Some(o)
    case AWrLock(_, o) => Some(o)
    case ALink(_, o) => Some(o)
    case _ => None
  }

  predicate PairOk(s: State, t: nat, u: nat)
    requires t in s.threads && u in s.threads
  {
    Owned(s.threads[t]).Some? ==> Owned(s.threads[u]) != Owned(s.threads[t])
  }

  ghost predicate Inv(s: State) {
    && ListOk(s) && LocksOk(s)
    && (forall t {:trigger ThreadOk(s, t)} :: t in s.threads ==> ThreadOk(s, t))
    && (forall t, u {:trigger PairOk(s, t, u)} :: t in s.threads && u in s.threads && t != u ==> PairOk(s, t, u))
    && (forall i {:trigger Law(s, i)} :: 0 <= i < NTHREAD ==> Law(s, i))
  }

  // -- Filtering -------------------------------------------------------------------------

  lemma ForMore(l: seq<nat>, jobs: map<nat, Task>, i: nat)
    ensures For([], jobs, i) == []
    ensures l != [] ==>
              For(l, jobs, i) == (if IsFor(jobs, l[0], i) then [jobs[l[0]]] else []) + For(l[1..], jobs, i)
  {
  }

  lemma {:induction false} ForJoin(a: seq<nat>, b: seq<nat>, jobs: map<nat, Task>, i: nat)
    ensures For(a + b, jobs, i) == For(a, jobs, i) + For(b, jobs, i)
  {
    hide For;
    ForMore(a, jobs, i);
    if a == [] {
      assert a + b == b;
    } else {
      var c := a + b;
      assert c[1..] == a[1..] + b && c[0] == a[0];
      ForJoin(a[1..], b, jobs, i);
      ForMore(c, jobs, i);
      var h := if IsFor(jobs, a[0], i) then [jobs[a[0]]] else [];
      hide IsFor;
      assert h + (For(a[1..], jobs, i) + For(b, jobs, i)) == (h + For(a[1..], jobs, i)) + For(b, jobs, i);
    }
  }

  lemma {:induction false} ForSame(l: seq<nat>, jobs: map<nat, Task>, jobs': map<nat, Task>, i: nat)
    requires forall k :: 0 <= k < |l| ==> l[k] in jobs && l[k] in jobs' && jobs'[l[k]] == jobs[l[k]]
    ensures For(l, jobs', i) == For(l, jobs, i)
  {
    if l != [] {
      ForSame(l[1..], jobs, jobs', i);
    }
  }

  lemma {:induction false} ForNone(l: seq<nat>, jobs: map<nat, Task>, i: nat)
    requires forall k :: 0 <= k < |l| ==> !IsFor(jobs, l[k], i)
    ensures For(l, jobs, i) == []
  {
    if l != [] { ForNone(l[1..], jobs, i); }
  }

  lemma ForOne(o: nat, jobs: map<nat, Task>, i: nat)
    requires o in jobs
    ensures For([o], jobs, i) == if jobs[o].to == i then [jobs[o]] else []
  {
    assert [o][1..] == [];
  }

  /** Taking out one job takes it from its worker's jobs only. */
  lemma ForWithout(s: State, k: nat, i: nat)
    requires ListOk(s) && k < |s.list|
    ensures var o := s.list[k];
            For(s.list, s.jobs, i) == For(s.list[..k], s.jobs, i) + For([o], s.jobs, i) + For(s.list[k + 1..], s.jobs,
                i)
            && For(Without(s.list, k), s.jobs - {o}, i) == For(s.list[..k], s.jobs, i) + For(s.list[k + 1..], s.jobs, i)
  {
    var l, o := s.list, s.list[k];
    assert l == l[..k] + [o] + l[k + 1..];
    ForJoin(l[..k], [o], s.jobs, i);
    ForJoin(l[..k] + [o], l[k + 1..], s.jobs, i);
    WithoutMember(l, k, o);
    var w := Without(l, k);
    forall n | 0 <= n < |w| ensures w[n] in s.jobs - {o} {
      assert w[n] in w;
      WithoutMember(l, k, w[n]);
    }
    ForSame(Without(l, k), s.jobs, s.jobs - {o}, i);
    ForJoin(l[..k], l[k + 1..], s.jobs, i);
  }

  /** The first job for a worker heads its jobs. */
  lemma FirstHeads(s: State, t: nat, jp: nat)
    requires ListOk(s) && First(s, t, jp)
    ensures For(s.list, s.jobs, t) != [] && For(s.list, s.jobs, t)[0] == s.jobs[jp]
    ensures var k := Position(s.list, jp);
            k < |s.list| && For(Without(s.list, k), s.jobs - {jp}, t) == For(s.list, s.jobs, t)[1..]
  {
    var k := Position(s.list, jp);
    ForWithout(s, k, t);
    ForNone(s.list[..k], s.jobs, t);
    ForOne(jp, s.jobs, t);
  }

  lemma SentNext(sent: seq<Task>, job: Task, i: nat)
    ensures SentTo(sent + [job], i) == SentTo(sent, i) + if job.to == i then [job] else []
  {
    assert (sent + [job])[..|sent|] == sent;
  }

  lemma HandledNext(handled: seq<Handled>, h: Handled, i: nat)
    ensures HandledBy(handled + [h], i) == HandledBy(handled, i) + if h.worker == i then [h.job] else []
  {
    assert (handled + [h])[..|handled|] == handled;
  }

  // -- Locks -----------------------------------------------------------------------------

  /** Thread `t` moved and the locks changed as its program points say. */
  predicate LocksMove(s: State, s': State, t: nat) {
    && t in s.threads && t in s'.threads && s'.threads == s.threads[t := s'.threads[t]]
    && var a, b := s.threads[t], s'.threads[t];
       && (HoldsM(t, a) == HoldsM(t, b) ==> s'.mutex == s.mutex)
       && (HoldsM(t, a) != HoldsM(t, b) ==>
             if HoldsM(t, b).Some? then
               HoldsM(t, a).None? && HoldsM(t, b).value !in s.mutex && s'.mutex == s.mutex[HoldsM(t, b).value := t]
             else s'.mutex == s.mutex - {HoldsM(t, a).value})
       && (if HoldsR(b) == HoldsR(a) then s'.r == s.r
           else if HoldsR(b) then s.w.None? && s'.r == s.r + {t} else s'.r == s.r - {t})
       && (if HoldsW(b) == HoldsW(a) then s'.w == s.w
           else if HoldsW(b) then s.w.None? && s.r == {} && s'.w == Some(t) else s'.w.None?)
       && (HoldsW(b) ==> !HoldsR(b))
  }

  lemma LocksKept(s: State, s': State, t: nat)
    requires LocksOk(s) && LocksMove(s, s', t)
    ensures LocksOk(s')
  {
    hide HoldsM, HoldsR, HoldsW;
    assert HoldOk(s, t);
    forall i | i in s'.mutex ensures MutexOk(s', i) { assert i in s.mutex ==> MutexOk(s, i); }
    forall u | u in s'.threads ensures HoldOk(s', u) { assert u in s.threads ==> HoldOk(s, u); }
  }

  // -- What a thread relies on -----------------------------------------------------------

  /** The other threads keep a thread's first job first, the whole list while it reads,
      and its private job. */
  predicate Rely(s: State, s': State, u: nat)
    requires u in s.threads
  {
    && u in s'.threads && s'.threads[u] == s.threads[u]
    && (HoldsR(s.threads[u]) ==> s'.list == s.list && s'.jobs == s.jobs)
    && (s.threads[u].WPrint? || s.threads[u].WWrLock? || s.threads[u].WRemove? ==>
          (First(s, u, s.threads[u].jp) ==> First(s', u, s.threads[u].jp)))
    && (Owned(s.threads[u]).Some? ==>
          var o := Owned(s.threads[u]).value;
          o in s.jobs && o !in s.list ==> o in s'.jobs && s'.jobs[o] == s.jobs[o] && o !in s'.list)
  }

  lemma RelyOk(s: State, s': State, u: nat)
    requires u in s.threads && ThreadOk(s, u) && Rely(s, s', u)
    ensures ThreadOk(s', u)
  {
    hide First, NoneBefore;
    RelyWalk(s, s', s.threads[u], u);
  }

  lemma RelyWalk(s: State, s': State, pc: Pc, u: nat)
    ensures s'.list == s.list && s'.jobs == s.jobs ==> forall k :: NoneBefore(s', k, u) == NoneBefore(s, k, u)
    ensures s'.list == s.list && s'.jobs == s.jobs ==> forall jp :: First(s', u, jp) == First(s, u, jp)
  {
  }

  lemma Assemble(s: State, s': State, t: nat)
    requires Inv(s) && LocksMove(s, s', t) && ListOk(s') && ThreadOk(s', t)
    requires Owned(s'.threads[t]).Some? ==> Owned(s'.threads[t]) == Owned(s.threads[t])
    requires forall u {:trigger Rely(s, s', u)} :: u in s.threads && u != t ==> Rely(s, s', u)
    requires forall i {:trigger Law(s', i)} :: 0 <= i < NTHREAD ==> Law(s', i)
    ensures Inv(s')
  {
    LocksKept(s, s', t);
    hide LocksOk, ListOk, PcOk, Law, Owned, First, HoldsM, HoldsR, HoldsW;
    forall u | u in s'.threads ensures ThreadOk(s', u) {
      if u != t {
        assert ThreadOk(s, u) && Rely(s, s', u);
        RelyOk(s, s', u);
      }
    }
    forall a, b | a in s'.threads && b in s'.threads && a != b ensures PairOk(s', a, b) {
      assert PairOk(s, a, b) && PairOk(s, b, a);
    }
  }
}

/** threads/queue.c run by its workers and any number of appending threads. Taking or
    giving back a lock, each visit of the search in job_find, and each update under the
    write lock is one step; the list itself is the sequence that class WorkQueue keeps.
    `sent` and `handled` are history that no step reads. */
module QueueProcs {
  import opened Lists
  import opened Jobs

  /** What a job says: the worker it is for, and its number in the order of appending. */
  datatype Task = Task(to: nat, tag: nat)

  /** Threads 0 to NTHREAD - 1 are the workers. */
  datatype Pc =
    // handle_job, job_find and job_remove
    | WLock | WCheck | WSleep | WRelock
    | WRdLock | WWalk(jp: nat, k: nat) | WRdUnlock(jp: nat)
    | WPrint(jp: nat) | WWrLock(jp: nat) | WRemove(jp: nat) | WWrUnlock
    | WYield | WYieldLock | WWait | WDoze | WWake | WUnlock
    // job_append
    | Idle | ALock(to: nat, o: nat) | AWrLock(to: nat, o: nat) | ALink(to: nat,
        o: nat) | AWrUnlock(to: nat) | AUnlock(to: nat)

  datatype Handled = Handled(worker: nat, job: Task)

  datatype State = State(
    list: seq<nat>, jobs: map<nat, Task>, mutex: map<nat, nat>, w: Option<nat>, r: set<nat>,
    threads: map<nat, Pc>, sent: seq<Task>, handled: seq<Handled>)

  function Goto(s: State, t: nat, pc: Pc): State { s.(threads := s.threads[t := pc]) }

  function LockM(s: State, t: nat, i: nat): State { s.(mutex := s.mutex[i := t]) }

  function UnlockM(s: State, i: nat): State { s.(mutex := s.mutex - {i}) }

  /** The job after position `k`, by its own j_next. */
  function NextOf(s: State, k: nat): nat { At(s.list, k + 1) }

  function Position(l: seq<nat>, o: nat): (k: nat)
    ensures k <= |l| && (k < |l| ==> l[k] == o) && (k == |l| ==> o !in l)
  {
    if l == [] || l[0] == o then 0 else 1 + Position(l[1..], o)
  }

  /** job_append links the job that `o` points to. */
  function Link(s: State, o: nat): State
    requires o in s.jobs
  {
    var job := s.jobs[o].(tag := |s.sent|);
    s.(list := s.list + [o], jobs := s.jobs[o := job], sent := s.sent + [job])
  }

  /** job_remove unlinks and frees it. */
  function Unlink(s: State, o: nat): State {
    var k := Position(s.list, o);
    if k < |s.list| then s.(list := Without(s.list, k), jobs := s.jobs - {o}) else s
  }

  function To(s: State, o: nat): Option<nat> { if o in s.jobs then Some(s.jobs[o].to) else None }

  predicate Enabled(s: State, t: nat)
    requires t in s.threads
  {
    match s.threads[t]
    case WLock => t !in s.mutex
    case WSleep => true
    case WRelock => t !in s.mutex
    case WYieldLock => t !in s.mutex
    case WWake => t !in s.mutex
    case WRdLock => s.w.None?
    case WWrLock(_) => s.w.None? && s.r == {}
    case ALock(to, _) => to !in s.mutex
    case AWrLock(_, _) => s.w.None? && s.r == {}
    case Idle => false
    case _ => true
  }

  function ExecWorker(s: State, t: nat, pc: Pc): State {
    match pc
    case WLock => Goto(LockM(s, t, t), t, WCheck)
    case WCheck => if s.list == [] then Goto(UnlockM(s, t), t, WSleep) else Goto(s, t, WRdLock)
    case WSleep => Goto(s, t, WRelock)
    case WRelock => Goto(LockM(s, t, t), t, WCheck)
    case WRdLock => Goto(s.(r := s.r + {t}), t, WWalk(At(s.list, 0), 0))
    case WWalk(jp, k) =>
      if jp == 0 || To(s, jp) == Some(t) then Goto(s, t, WRdUnlock(jp)) else Goto(s, t, WWalk(NextOf(s, k), k + 1))
    case WRdUnlock(jp) => Goto(s.(r := s.r - {t}), t, if jp == 0 then WYield else WPrint(jp))
    case WPrint(jp) =>
      if jp in s.jobs then Goto(s.(handled := s.handled + [Handled(t, s.jobs[jp])]), t, WWrLock(jp)) else s
    case WWrLock(jp) => Goto(s.(w := Some(t)), t, WRemove(jp))
    case WRemove(jp) => Goto(Unlink(s, jp), t, WWrUnlock)
    case WWrUnlock => Goto(s.(w := None), t, WUnlock)
    case WYield => Goto(UnlockM(s, t), t, WYieldLock)
    case WYieldLock => Goto(LockM(s, t, t), t, WWait)
    case WWait => Goto(UnlockM(s, t), t, WDoze)
    case WDoze => Goto(s, t, WWake)
    case WWake => Goto(LockM(s, t, t), t, WUnlock)
    case WUnlock => Goto(UnlockM(s, t), t, WLock)
    case _ => s
  }

  function ExecAppender(s: State, t: nat, pc: Pc): State {
    match pc
    case ALock(to, o) => Goto(LockM(s, t, to), t, AWrLock(to, o))
    case AWrLock(to, o) => Goto(s.(w := Some(t)), t, ALink(to, o))
    case ALink(to, o) => if o in s.jobs then Goto(Link(s, o), t, AWrUnlock(to)) else s
    case AWrUnlock(to) => Goto(s.(w := None), t, AUnlock(to))
    case AUnlock(to) => Goto(UnlockM(s, to), t, Idle)
    case _ => s
  }

  function Exec(s: State, t: nat): State
    requires t in s.threads
  {
    if t < NTHREAD then ExecWorker(s, t, s.threads[t]) else ExecAppender(s, t, s.threads[t])
  }

  /** A thread runs on; or an appender calls job_append for worker `to`, malloc giving it
      address `o`, which may have been used and freed before. */
  datatype Event = Run | Append(to: nat, o: nat)

  predicate Step(s: State, e: Event, t: nat, s': State) {
    match e
    case Run => t in s.threads && Enabled(s, t) && s' == Exec(s, t)
    case Append(to, o) =>
      && t >= NTHREAD && (t in s.threads ==> s.threads[t].Idle?) && to < NTHREAD && o != 0 && o !in s.jobs
      && s' == Goto(s.(jobs := s.jobs[o := Task(to, 0)]), t, ALock(to, o))
  }

  predicate Init(s: State) {
    s == State([], map[], map[], None, {}, map[0 := WLock, 1 := WLock, 2 := WLock], [], [])
  }

  predicate IsRun(run: seq<State>, what: seq<Event>, who: seq<nat>) {
    && |run| == |who| + 1 && |what| == |who| && Init(run[0])
    && forall i :: 0 <= i < |who| ==> Step(run[i], what[i], who[i], run[i + 1])
  }
}

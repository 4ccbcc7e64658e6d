/** The work queue of threads/queue.c, pointer by pointer. */
module Queue {
  import opened Jobs

  /** The first job addressed to `id`, or one past the end. */
  function FirstFor(s: seq<Job>, id: nat): (k: nat)
    ensures k <= |s| && (k < |s| ==> s[k].id == id)
    ensures forall j :: 0 <= j < k ==> s[j].id != id
  {
    if s == [] || s[0].id == id then 0 else 1 + FirstFor(s[1..], id)
  }

  lemma FirstIs(s: seq<Job>, id: nat, k: nat)
    requires k <= |s| && (k < |s| ==> s[k].id == id)
    requires forall j :: 0 <= j < k ==> s[j].id != id
    ensures FirstFor(s, id) == k
  {
  }

  class WorkQueue {
    var head: Job?
    var tail: Job?
    /** The thread ids of the workers. */
    const workers: seq<nat>
    ghost var jobs: seq<Job>

    ghost predicate Valid()
      reads this, jobs
    {
      |workers| == NTHREAD && Spine(head, tail, jobs)
    }

    constructor (workers: seq<nat>)
      requires |workers| == NTHREAD
      ensures Valid() && jobs == [] && this.workers == workers
    {
      this.workers := workers;
      head, tail, jobs := null, null, [];
    }

    /** The loop over q_thread. */
    method Worker(id: nat) returns (i: nat)
      requires |workers| == NTHREAD
      ensures i <= NTHREAD && (i < NTHREAD <==> id in workers) && (i < NTHREAD ==> workers[i] == id)
    {
      i := 0;
      while i < NTHREAD && workers[i] != id
        invariant i <= NTHREAD && forall j :: 0 <= j < i ==> workers[j] != id
      {
        i := i + 1;
      }
    }

    /** job_insert: -1 when nobody is to do the job. */
    method Insert(id: nat) returns (rc: int, jp: Job)
      requires Valid()
      modifies this`head, this`tail, this`jobs, jobs
      ensures Valid() && fresh(jp) && jp.id == id && rc == (if id in workers then 0 else -1)
      ensures jobs == if id in workers then [jp] + old(jobs) else old(jobs)
    {
      jp := new Job(id);
      var i := Worker(id);
      if i == NTHREAD { return -1, jp; }
      ghost var s := jobs;
      assert s != [] ==> NodeOk(s, 0);
      jp.next := head;
      jp.prev := null;
      if head != null { head.prev := jp; } else { tail := jp; }
      head := jp;
      jobs := [jp] + s;
      forall k | 0 <= k < |jobs| ensures NodeOk(jobs, k) { assert k > 0 ==> old(NodeOk(jobs, k - 1)); }
      rc := 0;
    }

    method Append(id: nat) returns (rc: int, jp: Job)
      requires Valid()
      modifies this`head, this`tail, this`jobs, jobs
      ensures Valid() && fresh(jp) && jp.id == id && rc == (if id in workers then 0 else -1)
      ensures jobs == if id in workers then old(jobs) + [jp] else old(jobs)
    {
      jp := new Job(id);
      var i := Worker(id);
      if i == NTHREAD { return -1, jp; }
      ghost var s := jobs;
      assert s != [] ==> NodeOk(s, |s| - 1);
      jp.next := null;
      jp.prev := tail;
      if tail != null { tail.next := jp; } else { head := jp; }
      tail := jp;
      jobs := s + [jp];
      forall k | 0 <= k < |jobs| ensures NodeOk(jobs, k) { assert k < |s| ==> old(NodeOk(jobs, k)); }
      rc := 0;
    }

    /** job_remove of the job at position `k`. */
    method Remove(jp: Job, ghost k: nat)
      requires Valid() && k < |jobs| && jobs[k] == jp
      modifies this`head, this`tail, this`jobs, jobs
      ensures Valid() && jobs == Cut(old(jobs), k)
    {
      ghost var s := jobs;
      assert NodeOk(s, k) && NodeOk(s, 0) && NodeOk(s, |s| - 1);
      assert k + 1 < |s| ==> NodeOk(s, k + 1);
      assert k > 0 ==> NodeOk(s, k - 1);
      Unlink(jp, k);
      jobs := Cut(s, k);
      CutDistinct(s, k);
      CutAt(s, k, 0);
      CutAt(s, k, |s| - 2);
      forall j | 0 <= j < |jobs| ensures NodeOk(jobs, j) {
        var i := if j < k then j else j + 1;
        assert jobs[j] == s[i] && old(NodeOk(jobs, i));
        CutAt(s, k, j + 1);
        CutAt(s, k, j - 1);
      }
    }

    /** Its three cases: the job is the first, the last, or between two others. */
    method Unlink(jp: Job, ghost k: nat)
      requires Valid() && k < |jobs| && jobs[k] == jp
      modifies this`head, this`tail, jobs
      ensures head == (if k == 0 then Nth(jobs, 1) else old(head))
      ensures tail == (if k == |jobs| - 1 then Nth(jobs, k - 1) else old(tail))
      ensures forall j :: 0 <= j < |jobs| ==>
                jobs[j].next == (if j + 1 == k then Nth(jobs, k + 1) else old(jobs[j].next))
      ensures forall j :: 0 <= j < |jobs| ==>
                jobs[j].prev == (if j == k + 1 then Nth(jobs, k - 1) else old(jobs[j].prev))
    {
      assert NodeOk(jobs, k) && NodeOk(jobs, 0) && NodeOk(jobs, |jobs| - 1);
      if jp == head {
        head := jp.next;
        if tail == jp { tail := null; } else { jp.next.prev := jp.prev; }
      } else if jp == tail {
        tail := jp.prev;
        jp.prev.next := jp.next;
      } else {
        jp.prev.next := jp.next;
        jp.next.prev := jp.prev;
      }
    }

    /** job_find: the first job addressed to `id`. */
    method Find(id: nat) returns (jp: Job?)
      requires Valid()
      ensures jp == Nth(jobs, FirstFor(jobs, id))
    {
      ghost var k := 0;
      jp := head;
      while jp != null && jp.id != id
        invariant k <= |jobs| && jp == Nth(jobs, k) && forall j :: 0 <= j < k ==> jobs[j].id != id
        decreases |jobs| - k
      {
        assert NodeOk(jobs, k);
        jp := jp.next;
        k := k + 1;
      }
      FirstIs(jobs, id, k);
    }
  }
}

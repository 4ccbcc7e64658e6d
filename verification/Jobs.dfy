/** Doubly linked job lists on the heap: the pending jobs of printer/printd.c and the work
    queue of threads/queue.c, each with its own code for the same links. */
module Jobs {

  /** The number of workers of threads/queue.c. */
  const NTHREAD := 3

  class Job {
    var next: Job?
    var prev: Job?
    const id: nat

    constructor (id: nat)
      ensures this.id == id
    {
      this.id := id;
    }
  }

  predicate Distinct(s: seq<Job>) { forall j, k :: 0 <= j < k < |s| ==> s[j] != s[k] }

  /** The k-th job, or null on either side of the list. */
  function Nth(s: seq<Job>, k: int): Job? { if 0 <= k < |s| then s[k] else null }

  ghost predicate NodeOk(s: seq<Job>, k: nat)
    requires k < |s|
    reads s[k]
  {
    s[k].next == Nth(s, k + 1) && s[k].prev == Nth(s, k - 1)
  }

  /** `head`, `tail` and the links of the jobs spell out `s` in both directions. */
  ghost predicate Spine(head: Job?, tail: Job?, s: seq<Job>)
    reads s
  {
    && Distinct(s) && head == Nth(s, 0) && tail == Nth(s, |s| - 1)
    && forall k {:trigger NodeOk(s, k)} :: 0 <= k < |s| ==> NodeOk(s, k)
  }

  function Cut(s: seq<Job>, k: nat): (t: seq<Job>)
    requires k < |s|
  {
    s[..k] + s[k + 1..]
  }

  lemma CutAt(s: seq<Job>, k: nat, j: int)
    requires k < |s|
    ensures Nth(Cut(s, k), j) == Nth(s, if j < k then j else j + 1)
  {
  }

  lemma CutDistinct(s: seq<Job>, k: nat)
    requires k < |s| && Distinct(s)
    ensures Distinct(Cut(s, k)) && s[k] !in Cut(s, k)
  {
    var t := Cut(s, k);
    forall i | 0 <= i < |t| ensures t[i] == s[if i < k then i else i + 1] {}
  }
}

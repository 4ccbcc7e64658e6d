/** The pending jobs of printer/printd.c. Its client threads only add jobs; its printer
    thread takes the first one, and prints or cancels it or puts it back. */
module Printd {
  import opened Jobs

  function Ids(s: seq<Job>): (r: seq<nat>)
    ensures |r| == |s| && forall k :: 0 <= k < |s| ==> r[k] == s[k].id
  {
    seq(|s|, k requires 0 <= k < |s| => s[k].id)
  }

  function Hand(jp: Job?): seq<Job> { if jp == null then [] else [jp] }

  /** A client adds a job; or the printer thread goes on to its next critical section, and
      `printed` says how its work on the job in hand, if any, has ended. */
  datatype Event = Add(id: nat) | Printer(printed: bool)

  /** The jobs that a run adds, in order. */
  function Added(events: seq<Event>): seq<nat> {
    if events == [] then []
    else
      var e, before := events[|events| - 1], Added(events[..|events| - 1]);
      if e.Add? then before + [e.id] else before
  }

  /** The ids of the jobs disposed of, of the job in hand, if any, and of those on the list. */
  datatype View = View(disposed: seq<nat>, hand: seq<nat>, pending: seq<nat>)

  const NOTHING := View([], [], [])

  /** A client's job goes to the end of the list. The printer thread, with nothing in hand, takes
      the first job; else it has printed the job, or puts it back before all others. */
  function Next(v: View, e: Event): View {
    match e
    case Add(id) => v.(pending := v.pending + [id])
    case Printer(printed) =>
      if v.hand == [] then
        if v.pending == [] then v else v.(hand := [v.pending[0]], pending := v.pending[1..])
      else if printed then View(v.disposed + v.hand, [], v.pending)
      else View(v.disposed, [], v.hand + v.pending)
  }

  function Run(v: View, events: seq<Event>): View
    decreases |events|
  {
    if events == [] then v else Run(Next(v, events[0]), events[1..])
  }

  lemma {:induction false} RunJoin(v: View, a: seq<Event>, b: seq<Event>)
    ensures Run(v, a + b) == Run(Run(v, a), b)
    decreases |a|
  {
    if a == [] {
      assert a + b == b;
    } else {
      assert (a + b)[0] == a[0] && (a + b)[1..] == a[1..] + b;
      RunJoin(Next(v, a[0]), a[1..], b);
    }
  }

  lemma RunNext(v: View, events: seq<Event>, i: nat)
    requires i < |events|
    ensures Run(v, events[..i + 1]) == Next(Run(v, events[..i]), events[i])
  {
    hide Next;
    assert events[..i + 1] == events[..i] + [events[i]];
    RunJoin(v, events[..i], [events[i]]);
    RunOne(Run(v, events[..i]), events[i]);
  }

  lemma RunOne(v: View, e: Event)
    ensures Run(v, [e]) == Next(v, e)
  {
    assert [e][1..] == [];
  }

  function Prints(n: nat): seq<Event> { seq(n, _ => Printer(true)) }

  predicate OneInHand(v: View) { |v.hand| <= 1 }

  function All(v: View): seq<nat> { v.disposed + v.hand + v.pending }

  lemma {:induction false} RunKeeps(v: View, events: seq<Event>)
    requires OneInHand(v)
    ensures OneInHand(Run(v, events)) && All(Run(v, events)) == All(v) + Added(events)
  {
    if events != [] {
      var n := |events| - 1;
      RunKeeps(v, events[..n]);
      RunNext(v, events, n);
      assert events[..n + 1] == events;
      hide Run, Added, All;
      NextKeeps(Run(v, events[..n]), events[n]);
      AddedNext(events, n);
      assert All(v) + (Added(events[..n]) + NewId(events[n])) == All(v) + Added(events[..n]) + NewId(events[n]);
    } else {
      assert All(v) + [] == All(v);
    }
  }

  lemma NextKeeps(v: View, e: Event)
    requires OneInHand(v)
    ensures OneInHand(Next(v, e)) && All(Next(v, e)) == All(v) + NewId(e)
  {
    var w := Next(v, e);
    if e.Printer? && v.hand == [] && v.pending != [] {
      assert v.pending == [v.pending[0]] + v.pending[1..];
    }
  }

  /** Two turns of the printer thread print a job. */
  lemma {:induction false} Drains(v: View, n: nat)
    requires OneInHand(v) && n >= |v.hand| + 2 * |v.pending|
    ensures Run(v, Prints(n)) == View(All(v), [], [])
    decreases n
  {
    if n == 0 {
      assert v.hand == [] && v.pending == [] && All(v) == v.disposed;
    } else {
      assert Prints(n)[0] == Printer(true) && Prints(n)[1..] == Prints(n - 1);
      var w := Next(v, Printer(true));
      NextKeeps(v, Printer(true));
      assert All(w) == All(v);
      Drains(w, n - 1);
    }
  }

  /** However clients and printer got on, once no job is put back any more all jobs are printed,
      in the order in which they were added. */
  lemma AllPrinted(events: seq<Event>, n: nat)
    requires n >= 2 * |Added(events)|
    ensures Run(NOTHING, events + Prints(n)) == View(Added(events), [], [])
  {
    RunJoin(NOTHING, events, Prints(n));
    RunKeeps(NOTHING, events);
    var v := Run(NOTHING, events);
    assert All(NOTHING) + Added(events) == Added(events);
    hide Run, Added;
    assert |All(v)| == |v.disposed| + |v.hand| + |v.pending|;
    Drains(v, n);
  }

  class Spool {
    var jobhead: Job?
    var jobtail: Job?
    /** The printer thread's own jp. */
    var hand: Job?
    ghost var pending: seq<Job>
    /** All jobs in the order in which add_job linked them, and those freed. */
    ghost var linked: seq<Job>
    ghost var disposed: seq<Job>

    ghost predicate Valid()
      reads this, pending
    {
      Spine(jobhead, jobtail, pending)
    }

    /** No job is lost, repeated or overtaken. */
    ghost predicate Kept()
      reads this
    {
      Distinct(linked) && disposed + Hand(hand) + pending == linked
    }

    ghost function Seen(): View
      reads this
    {
      View(Ids(disposed), Ids(Hand(hand)), Ids(pending))
    }

    constructor ()
      ensures Valid() && Kept() && linked == [] && hand == null && Seen() == NOTHING
    {
      jobhead, jobtail, hand, pending := null, null, null, [];
      linked, disposed := [], [];
    }

    method AddJob(jp: Job)
      requires Valid() && jp !in pending
      modifies this`jobhead, this`jobtail, this`pending, jp, pending
      ensures Valid() && pending == old(pending) + [jp]
    {
      jp.next := null;
      jp.prev := jobtail;
      ghost var s := pending;
      assert s != [] ==> NodeOk(s, |s| - 1);
      if jobtail == null { jobhead := jp; } else { jobtail.next := jp; }
      jobtail := jp;
      pending := s + [jp];
      forall k | 0 <= k < |pending| ensures NodeOk(pending, k) {
        assert k < |s| ==> old(NodeOk(pending, k));
      }
    }

    method ReplaceJob(jp: Job)
      requires Valid() && jp !in pending
      modifies this`jobhead, this`jobtail, this`pending, jp, pending
      ensures Valid() && pending == [jp] + old(pending)
    {
      jp.prev := null;
      jp.next := jobhead;
      ghost var s := pending;
      assert s != [] ==> NodeOk(s, 0);
      if jobhead == null { jobtail := jp; } else { jobhead.prev := jp; }
      jobhead := jp;
      pending := [jp] + s;
      forall k | 0 <= k < |pending| ensures NodeOk(pending, k) {
        assert k > 0 ==> old(NodeOk(pending, k - 1));
      }
    }

    method RemoveJob(target: Job, ghost k: nat)
      requires Valid() && k < |pending| && pending[k] == target
      modifies this`jobhead, this`jobtail, this`pending, pending
      ensures Valid() && pending == Cut(old(pending), k)
    {
      ghost var s := pending;
      assert NodeOk(s, k);
      assert k + 1 < |s| ==> NodeOk(s, k + 1);
      assert k > 0 ==> NodeOk(s, k - 1);
      if target.next != null { target.next.prev := target.prev; } else { jobtail := target.prev; }
      if target.prev != null { target.prev.next := target.next; } else { jobhead := target.next; }
      pending := Cut(s, k);
      CutDistinct(s, k);
      CutAt(s, k, 0);
      CutAt(s, k, |s| - 2);
      forall j | 0 <= j < |pending| ensures NodeOk(pending, j) {
        var i := if j < k then j else j + 1;
        assert pending[j] == s[i] && old(NodeOk(pending, i));
        CutAt(s, k, j + 1);
        CutAt(s, k, j - 1);
      }
    }

    /** Like add_job, for a job that was never on the list. */
    method Submit(id: nat) returns (jp: Job)
      requires Valid() && Kept()
      modifies this, pending
      ensures Valid() && Kept() && fresh(jp) && jp.id == id
      ensures linked == old(linked) + [jp] && hand == old(hand) && disposed == old(disposed)
      ensures pending == old(pending) + [jp]
    {
      jp := new Job(id);
      assert forall k :: 0 <= k < |pending| ==> pending[k] == linked[|linked| - |pending| + k];
      AddJob(jp);
      linked := linked + [jp];
    }

    /** Lines 688-695: wait for a job, or take the first. */
    method Take()
      requires Valid() && Kept() && hand == null
      modifies this`jobhead, this`jobtail, this`pending, this`hand, pending
      ensures Valid() && Kept() && hand == old(jobhead)
      ensures old(pending) == Hand(hand) + pending && (hand == null ==> pending == [])
    {
      ghost var s := pending;
      assert jobhead == Nth(pending, 0);
      hide Spine, Distinct;
      hand := jobhead;
      if jobhead != null {
        RemoveJob(jobhead, 0);
        FirstTaken(disposed, s, pending, linked);
      }
    }

    /** The job is printed or canceled. */
    method Dispose()
      requires Valid() && Kept() && hand != null
      modifies this`hand, this`disposed
      ensures Valid() && Kept() && hand == null && disposed == old(disposed) + [old(hand)]
    {
      disposed := disposed + [hand];
      hand := null;
    }

    /** The job goes back to the head of the list, before all that came after it. */
    method Defer()
      requires Valid() && Kept() && hand != null
      modifies this`jobhead, this`jobtail, this`pending, this`hand, pending, hand
      ensures Valid() && Kept() && hand == null && pending == [old(hand)] + old(pending)
    {
      NotPending(disposed, hand, pending, linked);
      ReplaceJob(hand);
      hand := null;
    }

    /** The printer thread's next critical section, after its work ended as `printed` says. */
    method Advance(printed: bool)
      requires Valid() && Kept()
      modifies this, pending, hand
      ensures Valid() && Kept() && linked == old(linked)
      ensures old(hand) == null ==>
          disposed == old(disposed) && old(pending) == Hand(hand) + pending && (hand == null ==> pending == [])
      ensures old(hand) != null && printed ==>
          hand == null && disposed == old(disposed) + [old(hand)] && pending == old(pending)
      ensures old(hand) != null && !printed ==>
          hand == null && disposed == old(disposed) && pending == [old(hand)] + old(pending)
    {
      if hand == null { Take(); } else if printed { Dispose(); } else { Defer(); }
    }

    method Handle(e: Event)
      requires Valid() && Kept()
      modifies this, pending, hand
      ensures Valid() && Kept() && Ids(linked) == Ids(old(linked)) + NewId(e)
      ensures forall j :: j in linked ==> j in old(linked) || fresh(j)
      ensures Seen() == Next(old(Seen()), e)
    {
      hide Spine, Distinct, Ids;
      ghost var was, had, list := disposed, hand, pending;
      match e
      case Add(id) =>
        ghost var before := linked;
        var jp := Submit(id);
        IdsJoin(before, [jp]);
        IdsJoin(list, [jp]);
        IdsOne(jp);
      case Printer(printed) =>
        Advance(printed);
        IdsJoin(linked, []);
        IdsNone();
        ViewNext(was, had, list, disposed, hand, pending, printed);
    }
  }

  function NewId(e: Event): seq<nat> { if e.Add? then [e.id] else [] }

  lemma AddedNext(events: seq<Event>, i: nat)
    requires i < |events|
    ensures Added(events[..i + 1]) == Added(events[..i]) + NewId(events[i])
  {
    assert events[..i + 1][..i] == events[..i];
  }

  /** The first job moves from the list to the hand. */
  lemma FirstTaken(disposed: seq<Job>, s: seq<Job>, rest: seq<Job>, linked: seq<Job>)
    requires s != [] && rest == Cut(s, 0) && disposed + [] + s == linked
    ensures s == [s[0]] + rest && disposed + [s[0]] + rest == linked
  {
    assert disposed + [] == disposed && s == [s[0]] + rest;
  }

  lemma NotPending(disposed: seq<Job>, jp: Job, pending: seq<Job>, linked: seq<Job>)
    requires Distinct(linked) && disposed + [jp] + pending == linked
    ensures jp !in pending
  {
    var n := |disposed|;
    assert linked[n] == jp;
    assert forall k :: 0 <= k < |pending| ==> pending[k] == linked[n + 1 + k];
  }

  lemma IdsOne(jp: Job)
    ensures Ids([jp]) == [jp.id]
  {
  }

  lemma IdsNone()
    ensures Ids([]) == []
  {
  }

  /** The printer thread's section, seen through the ids. */
  lemma ViewNext(was: seq<Job>, had: Job?, list: seq<Job>, now: seq<Job>, has: Job?, rest: seq<Job>, printed: bool)
    requires had == null ==> now == was && list == Hand(has) + rest && (has == null ==> rest == [])
    requires had != null ==>
               has == null && if printed then now == was + [had] && rest == list else now == was && rest == [had] + list
    ensures View(Ids(now), Ids(Hand(has)), Ids(rest)) ==
            Next(View(Ids(was), Ids(Hand(had)), Ids(list)), Printer(printed))
  {
    hide Ids;
    IdsNone();
    if had != null {
      IdsOne(had);
      IdsJoin(was, [had]);
      IdsJoin([had], list);
    } else if has != null {
      IdsOne(has);
      IdsJoin([has], rest);
      assert ([has.id] + Ids(rest))[1..] == Ids(rest);
    }
  }

  lemma IdsJoin(a: seq<Job>, b: seq<Job>)
    ensures Ids(a + b) == Ids(a) + Ids(b)
  {
  }

  /** Every run of clients and printer: the jobs freed, the job in hand and the list, read
      from jobhead, are together the jobs added, in the order of their adding. */
  method Serve(events: seq<Event>) returns (spool: Spool)
    ensures fresh(spool) && spool.Valid() && spool.Kept()
    ensures Ids(spool.disposed) + Ids(Hand(spool.hand)) + Ids(spool.pending) == Added(events)
    ensures spool.Seen() == Run(NOTHING, events)
  {
    spool := new Spool();
    var i := 0;
    while i < |events|
      invariant i <= |events| && fresh(spool) && spool.Valid() && spool.Kept()
      invariant forall j :: j in spool.linked ==> fresh(j)
      invariant Ids(spool.linked) == Added(events[..i]) && spool.Seen() == Run(NOTHING, events[..i])
    {
      AddedNext(events, i);
      RunNext(NOTHING, events, i);
      InLinked(spool);
      hide Spine, Distinct, Ids, Added, Run, Next;
      spool.Handle(events[i]);
      i := i + 1;
    }
    assert events[..i] == events;
    IdsJoin(spool.disposed, Hand(spool.hand));
    IdsJoin(spool.disposed + Hand(spool.hand), spool.pending);
  }

  lemma InLinked(spool: Spool)
    requires spool.Kept()
    ensures forall k :: 0 <= k < |spool.pending| ==> spool.pending[k] in spool.linked
    ensures spool.hand != null ==> spool.hand in spool.linked
  {
    assert spool.hand != null ==> spool.hand in Hand(spool.hand);
  }
}

/** Whole runs of any number of processes: the chains and the free list are sound, and
    nobody deadlocks. */
module DbProcsRuns {
  import opened Ascii
  import opened DbFormat
  import opened Lists
  import opened DbLinks
  import opened DbBytes
  import opened DbSpec
  import opened DbView
  import opened DbProcs
  import opened DbProcsInv
  import opened DbProcsMoves
  import opened DbProcsWrites

  // -- Every step keeps the invariant ----------------------------------------------------

  lemma DeleteKeeps(s: State, p: nat)
    requires Inv(s) && p in s.procs && Enabled(s, p) && InDelete(s.procs[p].pc)
    ensures Inv(ExecDelete(s, p, s.procs[p].op, s.procs[p].pc))
  {
    hide Inv, SlotOf;
    match s.procs[p].pc
    case DelLock(_, _, _, _) => StepDelLock(s, p);
    case DelDat(_, _, _, _) => StepDelDat(s, p);
    case DelRead(_, _, _, _) => StepDelRead(s, p);
    case DelIdx(_, _, _, _, _) => StepDelIdx(s, p);
    case DelHead(_, _, _, _) => StepDelHead(s, p);
    case DelFix(_, _, _, _) => StepDelFix(s, p);
    case DelUnlock => StepDelUnlock(s, p);
  }

  lemma StoreKeeps(s: State, p: nat)
    requires Inv(s) && p in s.procs && Enabled(s, p) && InStore(s.procs[p].pc)
    ensures Inv(ExecStore(s, p, s.procs[p].op, s.procs[p].pc))
  {
    hide Inv, SlotOf;
    match s.procs[p].pc
    case NewHead(_) => StepNewHead(s, p);
    case FfLock(_) => StepFfLock(s, p);
    case FfHead(_) => StepFfHead(s, p);
    case FfWalk(_, _, _, _) => StepFfWalk(s, p);
    case FfTake(_, _, _, _, _) => StepFfTake(s, p);
    case FfUnlock(_, _, _) => StepFfUnlock(s, p);
    case FillDat(_, _) => StepFillDat(s, p);
    case FillIdx(_, _) => StepFillIdx(s, p);
    case Link(_, off) => if off > PTR_MAX { Failing(s, p); } else { StepLink(s, p); }
    case Repl(_) => StepRepl(s, p);
  }

  lemma AppendKeeps(s: State, p: nat)
    requires Inv(s) && p in s.procs && Enabled(s, p) && InAppend(s.procs[p].pc)
    ensures Inv(ExecAppend(s, p, s.procs[p].op, s.procs[p].pc))
  {
    hide Inv, SlotOf;
    match s.procs[p].pc
    case AppLockDat(_) => StepAppLockDat(s, p);
    case AppSeekDat(_) => StepAppSeekDat(s, p);
    case AppDat(_, _) => StepAppDat(s, p);
    case AppUnlockDat(_, _) => StepAppUnlockDat(s, p);
    case AppLockIdx(_, _) => StepAppLockIdx(s, p);
    case AppSeekIdx(_, _) => StepAppSeekIdx(s, p);
    case AppIdx(_, _, _) => StepAppIdx(s, p);
    case AppUnlockIdx(_, _) => StepAppUnlockIdx(s, p);
  }

  lemma FindKeeps(s: State, p: nat)
    requires Inv(s) && p in s.procs && Enabled(s, p)
    requires !InDelete(s.procs[p].pc) && !InStore(s.procs[p].pc) && !InAppend(s.procs[p].pc)
    ensures Inv(ExecFind(s, p, s.procs[p].op, s.procs[p].pc))
  {
    hide Inv, SlotOf;
    match s.procs[p].pc
    case WantChain => StepWant(s, p);
    case ReadHead => StepReadHead(s, p);
    case Walk(_, _, _) => StepWalk(s, p);
    case Got(_, _, _, _) => StepFound(s, p);
    case Miss => StepFound(s, p);
    case Done(_) => StepDone(s, p);
    case Failed(why) => if why.Unreadable? { StepUnreadable(s, p); } else { StepFailed(s, p); }
  }

  lemma BeginKeeps(s: State, p: nat, op: Op)
    requires Inv(s) && Callable(op) && (p in s.procs ==> s.procs[p].pc.Idle?)
    ensures Inv(Begin(s, p, op))
  {
    var t := Begin(s, p, op);
    BeginLocks(s, p, op);
    hide SlotOf, FilesOk, PcOk, OpOk, LocksOk;
    forall i | i in t.stale ensures StaleAt(t, i) { assert StaleAt(s, i); }
    forall k: CString ensures KeyOk(t, k) { assert KeyOk(s, k); }
    BeginFiles(s, t);
    forall q | q in t.procs ensures ProcOk(t, q) {
      if q != p {
        assert ProcOk(s, q);
        PcOkFiles(s, t, s.procs[q].op, s.procs[q].pc);
      } else {
        FreshCall(t, op);
      }
    }
    forall a, b | a in t.procs && b in t.procs && a != b ensures PairOk(t, a, b) {
      if a != p && b != p { assert PairOk(s, a, b); }
    }
  }

  lemma FreshCall(t: State, op: Op)
    requires Callable(op)
    ensures OpOk(op, WantChain) && PcOk(t, op, WantChain)
  {
  }

  lemma BeginFiles(s: State, t: State)
    requires FilesOk(s) && SameFiles(s, t)
    ensures FilesOk(t)
  {
  }

  lemma BeginLocks(s: State, p: nat, op: Op)
    requires LocksOk(s) && (p in s.procs ==> s.procs[p].pc.Idle?)
    ensures LocksOk(Begin(s, p, op))
  {
    var t := Begin(s, p, op);
    forall l ensures p !in Readers(s, l) && !(l in s.w && s.w[l] == p) {
      assert p in s.procs ==> HolderOk(s, p, l);
      assert l in s.w ==> WriterOk(s, l);
    }
    hide SlotOf;
    forall l | l in t.w ensures WriterOk(t, l) { assert WriterOk(s, l); }
    forall q, l | q in t.procs ensures HolderOk(t, q, l) {
      assert Readers(t, l) == Readers(s, l);
      if q != p { assert HolderOk(s, q, l); }
    }
    forall l, q | q in Readers(t, l) ensures q in t.procs { assert q in Readers(s, l); }
  }

  /** Every step of every process keeps the invariant. */
  lemma StepKeeps(s: State, t: State, p: nat)
    requires Inv(s) && Step(s, t, p)
    ensures Inv(t)
  {
    hide Inv, ExecDelete, ExecStore, ExecAppend, ExecFind, SlotOf;
    if p in s.procs && Enabled(s, p) && t == Exec(s, p) {
      var pc := s.procs[p].pc;
      if InDelete(pc) { DeleteKeeps(s, p); }
      else if InStore(pc) { StoreKeeps(s, p); }
      else if InAppend(pc) { AppendKeeps(s, p); }
      else { FindKeeps(s, p); }
    } else {
      BeginKeeps(s, p, t.procs[p].op);
    }
  }

  lemma InitInv(s: State)
    requires Init(s)
    ensures Inv(s)
  {
    forall i | 0 <= i < SLOTS ensures ListOk(s.links, i, map[]) {}
    forall k: CString ensures KeyOk(s, k) {}
  }

  lemma {:induction false} RunInv(run: seq<State>, who: seq<nat>, n: nat)
    requires IsRun(run, who) && n < |run|
    ensures Inv(run[n])
  {
    hide Inv, Init, Step;
    if n == 0 {
      InitInv(run[0]);
    } else {
      RunInv(run, who, n - 1);
      StepKeeps(run[n - 1], run[n], who[n - 1]);
    }
  }

  // -- Sound chains ----------------------------------------------------------------------

  /** From the root of list `i`, the pointers lead through `l` once and end. */
  predicate PhysicalChain(s: State, i: nat, l: seq<nat>) {
    && NoDup(l) && 0 !in l
    && forall n :: 0 <= n <= |l| ==> Follow(s.links.ptrs, Slot(i), n + 1) == At(l, n)
  }

  /** `l` holds one record for each key that the map has on chain `i`, with the map's
      data, and no other record. */
  predicate HoldsExactly(s: State, i: nat, l: seq<nat>) {
    && (forall n :: 0 <= n < |l| ==>
          && l[n] in s.es && SlotOf(s.es[l[n]].key) == i
          && s.es[l[n]].key in s.abs && DataIs(s, l[n], s.abs[s.es[l[n]].key]))
    && (forall n, m :: 0 <= n < m < |l| ==> l[n] in s.es && l[m] in s.es && s.es[l[n]].key != s.es[l[m]].key)
    && (forall k: CString :: SlotOf(k) == i && k in s.abs ==> exists n ::
        0 <= n < |l| && l[n] in s.es && s.es[l[n]].key == k)
  }

  lemma ListIsChain(s: State, i: nat)
    requires FilesOk(s) && i < SLOTS && i !in s.stale
    ensures PhysicalChain(s, i, s.links.lists[i])
  {
    var l := s.links.lists[i];
    assert ListOk(s.links, i, s.stale);
    forall n | 0 <= n < |l| ensures l[n] != 0 { MemberFacts(s.links, i, n, s.stale); }
    forall n | 0 <= n <= |l|
        ensures Follow(s.links.ptrs, Slot(i), n + 1) == At(l, n) { FollowList(s.links, i, n, s.stale); }
  }

  lemma OnChain(s: State, i: nat, n: nat)
    requires Inv(s) && 1 <= i < SLOTS && i !in s.w && n < |s.links.lists[i]|
    ensures var o := s.links.lists[i][n];
            && o in s.es && SlotOf(s.es[o].key) == i && s.es[o].key in s.loc && s.loc[s.es[o].key] == o
            && s.es[o].key in s.abs && DataIs(s, o, s.abs[s.es[o].key])
  {
    hide SlotOf;
    var o := s.links.lists[i][n];
    MemberFacts(s.links, i, n, s.stale);
    assert NameOk(s.links.home, s.es, s.loc, o);
    var k := s.es[o].key;
    assert LocOk(s.links.home, s.es, s.loc, k);
    assert KeyOk(s, k);
    assert ExtentOk(s.dat, s.es, o);
  }

  /** In every reachable state, whatever the other processes are doing, a hash chain that
      is not write-locked is acyclic and holds exactly the live records of its keys. */
  lemma UnlockedChainSound(run: seq<State>, who: seq<nat>, n: nat, i: nat)
    requires IsRun(run, who) && n < |run| && 1 <= i < SLOTS && i !in run[n].w
    ensures i < |run[n].links.lists|
    ensures PhysicalChain(run[n], i, run[n].links.lists[i]) && HoldsExactly(run[n], i, run[n].links.lists[i])
  {
    RunInv(run, who, n);
    hide IsRun, PhysicalChain, HoldsExactly, SlotOf;
    ChainSound(run[n], i);
  }

  lemma ChainSound(s: State, i: nat)
    requires Inv(s) && 1 <= i < SLOTS && i !in s.w
    ensures PhysicalChain(s, i, s.links.lists[i]) && HoldsExactly(s, i, s.links.lists[i])
  {
    hide SlotOf;
    assert i in s.stale ==> StaleAt(s, i);
    ListIsChain(s, i);
    var l := s.links.lists[i];
    forall n | 0 <= n < |l|
      ensures var o := l[n];
              && o in s.es && SlotOf(s.es[o].key) == i && s.es[o].key in s.loc && s.loc[s.es[o].key] == o
              && s.es[o].key in s.abs && DataIs(s, o, s.abs[s.es[o].key])
    {
      OnChain(s, i, n);
    }
    forall k: CString | SlotOf(k) == i && k in s.abs ensures exists n ::
        0 <= n < |l| && l[n] in s.es && s.es[l[n]].key == k {
      assert KeyOk(s, k);
      assert LocOk(s.links.home, s.es, s.loc, k);
      ListIsHome(s.links, i, s.loc[k], s.stale);
      var n :| 0 <= n < |l| && l[n] == s.loc[k];
    }
  }

  /** In every reachable state the free list is acyclic, and shares no record with any
      chain or with a record that some process is still filling in. */
  lemma FreeListSound(run: seq<State>, who: seq<nat>, n: nat)
    requires IsRun(run, who) && n < |run|
    ensures var s := run[n];
            && |s.links.lists| == SLOTS && PhysicalChain(s, 0, s.links.lists[0])
            && (forall k :: 0 <= k < |s.links.lists[0]| ==>
                s.links.lists[0][k] in s.es && Blank(s.es[s.links.lists[0][k]].key))
            && (forall i, o :: 1 <= i < SLOTS && o in s.links.lists[0] ==> o !in s.links.lists[i])
            && (forall p, o :: p in s.procs && o in s.links.lists[0] ==> MineOff(s.procs[p].pc) != Some(o))
  {
    RunInv(run, who, n);
    hide IsRun, PhysicalChain, SlotOf;
    FreeSound(run[n]);
  }

  lemma FreeSound(s: State)
    requires Inv(s)
    ensures PhysicalChain(s, 0, s.links.lists[0])
    ensures forall n :: 0 <= n < |s.links.lists[0]| ==>
        s.links.lists[0][n] in s.es && Blank(s.es[s.links.lists[0][n]].key)
    ensures forall i, o :: 1 <= i < SLOTS && o in s.links.lists[0] ==> o !in s.links.lists[i]
    ensures forall p, o :: p in s.procs && o in s.links.lists[0] ==> MineOff(s.procs[p].pc) != Some(o)
  {
    hide SlotOf;
    FreeNotStale(s);
    ListIsChain(s, 0);
    forall n | 0 <= n < |s.links.lists[0]| ensures s.links.lists[0][n] in s.es && Blank(s.es[s.links.lists[0][n]].key) {
      MemberFacts(s.links, 0, n, s.stale);
      assert NameOk(s.links.home, s.es, s.loc, s.links.lists[0][n]);
    }
    forall i, o | 1 <= i < SLOTS && o in s.links.lists[0] ensures o !in s.links.lists[i] {
      ListIsHome(s.links, 0, o, s.stale);
      ListIsHome(s.links, i, o, s.stale);
    }
    forall p, o | p in s.procs && o in s.links.lists[0] ensures MineOff(s.procs[p].pc) != Some(o) {
      ListIsHome(s.links, 0, o, s.stale);
      assert ProcOk(s, p);
      MineIsLimbo(s, p);
    }
  }

  /** Records tile the index whatever the interleaving, so appends never collide. */
  lemma AppendsDisjoint(run: seq<State>, who: seq<nat>, n: nat)
    requires IsRun(run, who) && n < |run|
    ensures var s := run[n];
            && Tiled(s.isize, s.es) && DataOk(s.dat, s.es)
            && forall o :: o in s.es ==> BASE <= o && o + Size(s.es[o]) <= s.isize
  {
    RunInv(run, who, n);
    hide IsRun, SlotOf, Tiled, DataOk;
    var s := run[n];
    forall o | o in s.es ensures BASE <= o && o + Size(s.es[o]) <= s.isize {
      assert HomeOk(s.links, o) && InFile(s.isize, s.es, o);
    }
  }

  // -- No deadlock -----------------------------------------------------------------------

  /** The lock that a process asks for, where it asks for one. */
  function Wanted(proc: Proc): nat {
    if proc.pc.WantChain? then SlotOf(proc.op.key)
    else if proc.pc.AppLockDat? then LDAT else if proc.pc.AppLockIdx? then LIDX else 0
  }

  /** `p` waits, and `q` holds the lock that it waits for. */
  predicate WaitsFor(s: State, p: nat, q: nat)
    requires p in s.procs
  {
    var lock := Wanted(s.procs[p]);
    !Enabled(s, p) && ((lock in s.w && s.w[lock] == q) || q in Readers(s, lock))
  }

  /** There is somebody to wait for, and everybody that `p` waits for can take a step. */
  ghost predicate WaitsForRunning(s: State, p: nat)
    requires p in s.procs
  {
    && (exists q :: WaitsFor(s, p, q))
    && (forall q :: WaitsFor(s, p, q) ==> q in s.procs && Enabled(s, q))
  }

  /** A process holding the free list or an append lock waits for nothing. */
  lemma HolderRuns(s: State, p: nat, lock: nat)
    requires LocksOk(s) && p in s.procs && HoldsW(s.procs[p], lock) && (lock == 0 || lock == LIDX || lock == LDAT)
    ensures Enabled(s, p)
  {
  }

  /** Whoever waits waits for somebody. */
  lemma Somebody(s: State, p: nat)
    requires LocksOk(s) && p in s.procs && !s.procs[p].pc.Idle? && !Enabled(s, p)
    ensures exists q :: WaitsFor(s, p, q)
  {
    hide SlotOf;
    var lock := Wanted(s.procs[p]);
    if lock in s.w {
      assert WaitsFor(s, p, s.w[lock]);
    } else {
      var q :| q in Readers(s, lock);
      assert WaitsFor(s, p, q);
    }
  }

  /** Nobody takes the free list or an append lock for reading. */
  lemma InnerHolder(s: State, lock: nat, q: nat)
    requires LocksOk(s) && (lock == 0 || lock == LIDX || lock == LDAT)
    requires (lock in s.w && s.w[lock] == q) || q in Readers(s, lock)
    ensures q in s.procs && HoldsW(s.procs[q], lock)
  {
    assert q in Readers(s, lock) ==> q in s.procs && HolderOk(s, q, lock);
    assert lock in s.w ==> WriterOk(s, lock);
  }

  /** A process that has its chain waits for processes that can run. */
  lemma InnerWait(s: State, p: nat)
    requires LocksOk(s) && p in s.procs && !s.procs[p].pc.Idle? && !s.procs[p].pc.WantChain? && !Enabled(s, p)
    ensures WaitsForRunning(s, p)
  {
    hide SlotOf;
    var lock := Wanted(s.procs[p]);
    Somebody(s, p);
    forall q | WaitsFor(s, p, q) ensures q in s.procs && Enabled(s, q) {
      InnerHolder(s, lock, q);
      HolderRuns(s, q, lock);
    }
  }

  /** Waits go from chains to the free list or an append lock, and no further: as long as a call
      is in progress, its process can take a step, or everybody that it waits for can, or is
      itself waiting only for processes that can. */
  lemma NoDeadlock(run: seq<State>, who: seq<nat>, n: nat, p: nat)
    requires IsRun(run, who) && n < |run| && p in run[n].procs && !run[n].procs[p].pc.Idle?
    ensures var s := run[n];
            || Enabled(s, p)
            || ((exists q :: WaitsFor(s, p, q))
                && forall q :: WaitsFor(s, p, q) ==> q in s.procs && (Enabled(s, q) || WaitsForRunning(s, q)))
  {
    RunInv(run, who, n);
    hide IsRun, Inv, Enabled, WaitsForRunning;
    if !Enabled(run[n], p) {
      InvLocks(run[n]);
      Somebody(run[n], p);
      forall q | WaitsFor(run[n], p, q)
        ensures q in run[n].procs && (Enabled(run[n], q) || WaitsForRunning(run[n], q))
      {
        HolderKnown(run[n], p, q);
        if !Enabled(run[n], q) { InnerWait(run[n], q); }
      }
    }
  }

  /** A fetch waits for its chain exactly while some process is changing it, so fetches run side
      by side; a store or deletion waits while any other call is using it. */
  lemma SharedReads(run: seq<State>, who: seq<nat>, n: nat, p: nat)
    requires IsRun(run, who) && n < |run| && p in run[n].procs && run[n].procs[p].pc.WantChain?
    ensures var s, op := run[n], run[n].procs[p].op;
            var c := SlotOf(op.key);
            && (op.OpFetch? ==> (Enabled(s, p) <==> forall q :: q in s.procs ==> !HoldsW(s.procs[q], c)))
            && (!op.OpFetch? ==>
                  (Enabled(s, p) <==> forall q :: q in s.procs ==> !HoldsW(s.procs[q], c) && !HoldsR(s.procs[q], c)))
  {
    RunInv(run, who, n);
    var s, c := run[n], SlotOf(run[n].procs[p].op.key);
    hide IsRun, FilesOk, PcOk, SlotOf, AbsOk, StaleOk;
    forall q | q in s.procs
      ensures (HoldsW(s.procs[q], c) ==> c in s.w) && (HoldsR(s.procs[q], c) <==> q in Readers(s, c))
    {
      assert HolderOk(s, q, c);
    }
    if c in s.w { assert WriterOk(s, c); }
    if q :| q in Readers(s, c) { assert q in s.procs && HoldsR(s.procs[q], c); }
  }

  lemma InvLocks(s: State)
    requires Inv(s)
    ensures LocksOk(s)
  {
  }

  /** Whoever holds a lock is in a call, and has its chain. */
  lemma HolderKnown(s: State, p: nat, q: nat)
    requires LocksOk(s) && p in s.procs && WaitsFor(s, p, q)
    ensures q in s.procs && !s.procs[q].pc.Idle? && !s.procs[q].pc.WantChain?
  {
    hide SlotOf;
    var lock := Wanted(s.procs[p]);
    assert lock in s.w ==> WriterOk(s, lock);
    assert q in Readers(s, lock) ==> HolderOk(s, q, lock);
  }
}

/** The steps that write to the files. */
module DbProcsWrites {
  import opened Ascii
  import opened DbFormat
  import opened Lists
  import opened DbLinks
  import opened DbBytes
  import opened DbSpec
  import opened DbView
  import opened DbProcs
  import opened DbProcsInv
  import opened DbProcsMoves

  /** Everything that a write step has to show. */
  ghost predicate Shown(s: State, t: State, p: nat, i: nat, rs: set<nat>)
    requires p in s.procs
  {
    && FilesOk(t) && StaleOk(t) && Diff(s, t, p, i, rs) && OwnRecs(s, p, i, rs) && PendsKept(s, t, p)
    && OpOk(t.procs[p].op, t.procs[p].pc) && PcOk(t, t.procs[p].op, t.procs[p].pc)
    && Quiet(s, t, s.procs[p].op.key)
  }

  /** A write step keeps locks, so the rest follows. */
  lemma Written(s: State, t: State, p: nat, i: nat, rs: set<nat>)
    requires Inv(s) && p in s.procs && Shown(s, t, p, i, rs) && t.w == s.w && t.rd == s.rd
    requires SameHolds(s.procs[p].op, s.procs[p].pc, t.procs[p].pc)
    requires Agree(t, s.procs[p].op.key)
             || (Loose(t.procs[p].pc) && !s.procs[p].op.OpFetch? && !t.procs[p].pc.Idle? && !t.procs[p].pc.WantChain?)
    requires forall q {:trigger PairOk(t, p, q)} :: q in t.procs && q != p ==> PairOk(t, p, q)
    ensures Inv(t)
  {
    hide SlotOf, FilesOk, PcOk, OpOk, StaleOk, AbsOk, OwnRecs, PendsKept, Quiet;
    LocksSame(s, t, p);
    if !Agree(t, s.procs[p].op.key) { LooseNow(t, p); }
    assert ProcOk(t, p);
    Assemble(s, t, p, i, rs);
  }

  lemma LooseNow(t: State, p: nat)
    requires LocksOk(t) && p in t.procs && Loose(t.procs[p].pc) && !t.procs[p].op.OpFetch?
    requires !t.procs[p].pc.Idle? && !t.procs[p].pc.WantChain?
    ensures LooseKey(t, t.procs[p].op.key)
  {
    hide SlotOf;
    assert HolderOk(t, p, SlotOf(t.procs[p].op.key));
  }

  /** A process that takes nothing over keeps apart from the others. */
  lemma StillApart(s: State, t: State, p: nat)
    requires Inv(s) && p in s.procs && p in t.procs && t.procs == s.procs[p := t.procs[p]]
    requires t.procs[p].op == s.procs[p].op
    requires SubOption(MineOff(t.procs[p].pc), MineOff(s.procs[p].pc))
    requires SubOption(PendOff(t.procs[p].pc), PendOff(s.procs[p].pc))
    ensures forall q {:trigger PairOk(t, p, q)} :: q in t.procs && q != p ==> PairOk(t, p, q)
  {
    forall q | q in t.procs && q != p ensures PairOk(t, p, q) { assert PairOk(s, p, q); }
  }

  /** A record on a list, or new, is nobody's: whoever takes it over has it alone. */
  lemma NewlyMine(s: State, t: State, p: nat, o: nat)
    requires Inv(s) && p in s.procs && p in t.procs && t.procs == s.procs[p := t.procs[p]]
    requires MineOff(t.procs[p].pc) == Some(o) && PendOff(t.procs[p].pc).None? && !InLimbo(s, o)
    ensures forall q {:trigger PairOk(t, p, q)} :: q in t.procs && q != p ==> PairOk(t, p, q)
  {
    hide SlotOf, FilesOk, PcOk;
    forall q | q in t.procs && q != p ensures PairOk(t, p, q) {
      assert ProcOk(s, q);
      MineIsLimbo(s, q);
    }
  }

  /** All lists but `i` stay as they are. */
  lemma ListsSame(s: State, t: State, i: nat)
    requires FilesOk(s) && t.stale - {i} == s.stale - {i}
    requires t.links.lists == s.links.lists ||
             (i < |s.links.lists| && i < |t.links.lists| && t.links.lists == s.links.lists[i := t.links.lists[i]])
    ensures |s.links.lists| == |t.links.lists| == SLOTS
    ensures forall k {:trigger SameSlot(s, t, k)} :: 0 <= k < SLOTS && k != i ==> SameSlot(s, t, k)
  {
    forall k | 0 <= k < SLOTS && k != i ensures SameSlot(s, t, k) {
      assert k in t.stale - {i} <==> k in s.stale - {i};
    }
  }

  lemma NamesAreRecords(s: State)
    requires FilesOk(s)
    ensures forall k: CString :: k in s.loc ==> s.loc[k] >= BASE
  {
    forall k: CString | k in s.loc ensures s.loc[k] >= BASE {
      assert LocOk(s.links.home, s.es, s.loc, k);
      assert HomeOk(s.links, s.loc[k]);
    }
  }

  // -- Overwriting data ------------------------------------------------------------------

  /** `t` is `s` with the data of record `o` overwritten and `p` moved on. */
  predicate Overwritten(s: State, t: State, p: nat, o: nat, d: CString) {
    && p in s.procs && p in t.procs && o in s.es && s.es[o].datoff <= |s.dat|
    && t == s.(dat := Write(s.dat, s.es[o].datoff, d + [NEWLINE]),
        procs := s.procs[p := Proc(s.procs[p].op, t.procs[p].pc)])
  }

  lemma OverwriteFiles(s: State, t: State, p: nat, o: nat, d: CString)
    requires FilesOk(s) && o in s.es && |d| + 1 == s.es[o].datlen && Overwritten(s, t, p, o, d)
    ensures FilesOk(t) && DataIs(t, o, d) && |t.dat| == |s.dat|
    ensures forall r {:trigger SameData(s, t, r)} :: r in s.es && r != o ==> SameData(s, t, r)
  {
    WriteData(s.dat, s.es, o, d);
  }

  lemma OverwritePends(s: State, t: State, p: nat, o: nat, d: CString)
    requires FilesOk(s) && |d| + 1 == (if o in s.es then s.es[o].datlen else 0) && Overwritten(s, t, p, o, d)
    ensures PendsKept(s, t, p)
  {
    hide FilesOk, SlotOf;
    forall q | q in s.procs && q != p && PendOff(s.procs[q].pc).Some?
               && Pend(s, PendOff(s.procs[q].pc).value, NewData(s.procs[q].op))
      ensures Pend(t, PendOff(s.procs[q].pc).value, NewData(s.procs[q].op))
    {
      var a, n := PendOff(s.procs[q].pc).value, |NewData(s.procs[q].op)| + 1;
      assert Clear(s.es[o], a, n);
      WriteOutside(s.dat, s.es[o].datoff, d + [NEWLINE], a, a + n);
    }
  }

  /** What the files say about other keys stays when their records' data stay. */
  lemma QuietData(s: State, t: State, key: CString, o: nat)
    requires FilesOk(s) && t.loc - {key} == s.loc - {key}
    requires forall k: CString :: k in s.loc && k != key ==> s.loc[k] != o
    requires forall r {:trigger SameData(s, t, r)} :: r in s.es && r != o ==> SameData(s, t, r)
    ensures Quiet(s, t, key)
  {
    forall k: CString | k != key ensures Lookup(t, k) == Lookup(s, k) {
      assert k in t.loc - {key} <==> k in s.loc - {key};
      if k in s.loc {
        assert LocOk(s.links.home, s.es, s.loc, k);
        assert ExtentOk(s.dat, s.es, s.loc[k]);
        assert SameData(s, t, s.loc[k]);
      }
    }
  }

  lemma OverwriteDiff(s: State, t: State, p: nat, i: nat, o: nat, d: CString)
    requires FilesOk(s) && |d| + 1 == (if o in s.es then s.es[o].datlen else 0) && Overwritten(s, t, p, o, d)
    ensures Diff(s, t, p, i, {o})
  {
    hide SlotOf, HoldsW;
    OverwriteFiles(s, t, p, o, d);
    forall k | 0 <= k < SLOTS && k != i ensures SameSlot(s, t, k) {}
    forall r | r in s.es && r !in {o} ensures SameRec(s, t, r) && SameData(s, t, r) { assert SameData(s, t, r); }
  }

  /** The record a live key names is named by no other key. */
  lemma OnlyName(s: State, key: CString, o: nat)
    requires FilesOk(s) && o in s.es && o in s.links.home
    requires s.links.home[o] == LIMBO || s.links.home[o] == 0 || s.es[o].key == key
    ensures forall k: CString :: k in s.loc && k != key ==> s.loc[k] != o
  {
    hide SlotOf;
    forall k: CString | k in s.loc && k != key
        ensures s.loc[k] != o { assert LocOk(s.links.home, s.es, s.loc, k); OneSlot(k); }
  }

  lemma OneSlot(k: CString)
    ensures 1 <= SlotOf(k) < LIMBO
  {
  }

  /** Overwriting the data of a record that is `p`'s alone. */
  lemma OverwriteShown(s: State, t: State, p: nat, i: nat, o: nat, d: CString)
    requires Inv(s) && p in s.procs && Overwritten(s, t, p, o, d) && |d| + 1 == s.es[o].datlen
    requires o in s.links.home && (i < SLOTS ==> HoldsW(s.procs[p], i) && s.links.home[o] == i)
    requires i >= SLOTS ==> MineOff(s.procs[p].pc) == Some(o)
    requires s.links.home[o] == LIMBO || s.links.home[o] == 0 || s.es[o].key == s.procs[p].op.key
    ensures FilesOk(t) && Diff(s, t, p, i, {o}) && OwnRecs(s, p, i, {o}) && PendsKept(s, t, p)
    ensures Quiet(s, t, s.procs[p].op.key) && DataIs(t, o, d)
  {
    hide SlotOf, Wf, Tiled, HoldsW;
    OverwriteFiles(s, t, p, o, d);
    OverwriteDiff(s, t, p, i, o, d);
    OverwritePends(s, t, p, o, d);
    OnlyName(s, s.procs[p].op.key, o);
    QuietData(s, t, s.procs[p].op.key, o);
  }

  lemma StepDelDat(s: State, p: nat)
    requires Inv(s) && p in s.procs && s.procs[p].pc.DelDat?
    ensures Inv(ExecDelete(s, p, s.procs[p].op, s.procs[p].pc))
  {
    hide SlotOf, Wf, Tiled, KeysOk, Diff, OwnRecs, PendsKept, Quiet;
    var Proc(op, pc) := s.procs[p];
    var t := ExecDelete(s, p, op, pc);
    var o, c := pc.off, SlotOf(op.key);
    assert ProcOk(s, p);
    MemberFacts(s.links, c, pc.j, s.stale);
    assert ExtentOk(s.dat, s.es, o);
    OverwriteShown(s, t, p, c, o, Repeat(SPACE, s.es[o].datlen - 1));
    hide FilesOk;
    StaleSame(s, t, p);
    StillApart(s, t, p);
    Written(s, t, p, c, {o});
  }

  /** A step of a process that is not between the last two writes of a deletion, and that
      leaves `stale` and the lock table alone. */
  lemma StaleSame(s: State, t: State, p: nat)
    requires Inv(s) && p in s.procs && p in t.procs && t.procs == s.procs[p := t.procs[p]]
    requires t.stale == s.stale && t.w == s.w && !s.procs[p].pc.DelHead? && !s.procs[p].pc.DelFix?
    ensures StaleOk(t)
  {
    forall i | i in t.stale ensures StaleAt(t, i) { assert StaleAt(s, i); }
  }

  lemma StepFillDat(s: State, p: nat)
    requires Inv(s) && p in s.procs && s.procs[p].pc.FillDat?
    ensures Inv(ExecStore(s, p, s.procs[p].op, s.procs[p].pc))
  {
    hide SlotOf, Wf, Tiled, KeysOk, Diff, OwnRecs, PendsKept, Quiet;
    var Proc(op, pc) := s.procs[p];
    var t := ExecStore(s, p, op, pc);
    assert ProcOk(s, p);
    assert ExtentOk(s.dat, s.es, pc.off);
    OverwriteShown(s, t, p, SLOTS, pc.off, NewData(op));
    Firm(s, p);
    hide FilesOk;
    StaleSame(s, t, p);
    StillApart(s, t, p);
    Written(s, t, p, SLOTS, {pc.off});
  }

  lemma StepRepl(s: State, p: nat)
    requires Inv(s) && p in s.procs && s.procs[p].pc.Repl?
    ensures Inv(ExecStore(s, p, s.procs[p].op, s.procs[p].pc))
  {
    hide SlotOf, Wf, Tiled, Diff, OwnRecs, PendsKept, Quiet;
    var Proc(op, pc) := s.procs[p];
    var t := ExecStore(s, p, op, pc);
    var c := SlotOf(op.key);
    assert ProcOk(s, p);
    assert LocOk(s.links.home, s.es, s.loc, op.key);
    assert ExtentOk(s.dat, s.es, pc.off);
    OneSlot(op.key);
    OverwriteShown(s, t, p, c, pc.off, NewData(op));
    hide FilesOk;
    StaleSame(s, t, p);
    StillApart(s, t, p);
    Written(s, t, p, c, {pc.off});
  }

  // -- Appending data --------------------------------------------------------------------

  predicate Appended(s: State, t: State, p: nat, d: CString) {
    && p in s.procs && p in t.procs
    && t == s.(dat := Write(s.dat, |s.dat|, d + [NEWLINE]), procs := s.procs[p := Proc(s.procs[p].op, t.procs[p].pc)])
  }

  lemma AppendFilesOk(s: State, t: State, p: nat, d: CString)
    requires FilesOk(s) && Appended(s, t, p, d)
    ensures FilesOk(t) && Pend(t, |s.dat|, d)
    ensures forall r {:trigger SameData(s, t, r)} :: r in s.es ==> SameData(s, t, r)
  {
    AppendData(s.dat, s.es, d);
    assert t.dat[|s.dat|..|s.dat| + |d| + 1] == d + [NEWLINE];
    forall r | r in s.es ensures Clear(s.es[r], |s.dat|, |d| + 1) { assert ExtentOk(s.dat, s.es, r); }
  }

  lemma AppendPends(s: State, t: State, p: nat, d: CString)
    requires Inv(s) && Appended(s, t, p, d)
    ensures PendsKept(s, t, p)
    ensures forall q :: q in s.procs && PendOff(s.procs[q].pc).Some? ==>
              PendOff(s.procs[q].pc).value + DataLen(s.procs[q].op) <= |s.dat|
  {
    hide FilesOk, SlotOf, LocksOk, StaleOk, AbsOk;
    forall q | q in s.procs && PendOff(s.procs[q].pc).Some?
      ensures Pend(s, PendOff(s.procs[q].pc).value, NewData(s.procs[q].op))
      ensures Pend(t, PendOff(s.procs[q].pc).value, NewData(s.procs[q].op))
      ensures PendOff(s.procs[q].pc).value + DataLen(s.procs[q].op) <= |s.dat|
    {
      assert ProcOk(s, q);
      var a, n := PendOff(s.procs[q].pc).value, |NewData(s.procs[q].op)| + 1;
      WriteOutside(s.dat, |s.dat|, d + [NEWLINE], a, a + n);
    }
  }

  lemma AppDatDiff(s: State, t: State, p: nat, d: CString)
    requires Inv(s) && Appended(s, t, p, d) && HoldsW(s.procs[p], LDAT)
    ensures Diff(s, t, p, SLOTS, {}) && OwnRecs(s, p, SLOTS, {}) && Quiet(s, t, s.procs[p].op.key)
  {
    hide SlotOf, Tiled, Wf, KeysOk, DataOk;
    AppendFilesOk(s, t, p, d);
    ListsSame(s, t, SLOTS);
    NamesAreRecords(s);
    QuietData(s, t, s.procs[p].op.key, 0);
    forall r | r in s.es ensures SameRec(s, t, r) {}
  }

  lemma StepAppDat(s: State, p: nat)
    requires Inv(s) && p in s.procs && s.procs[p].pc.AppDat?
    ensures Inv(ExecAppend(s, p, s.procs[p].op, s.procs[p].pc))
  {
    hide SlotOf, FilesOk, Diff, OwnRecs, PendsKept, Quiet;
    var Proc(op, pc) := s.procs[p];
    var t := ExecAppend(s, p, op, pc);
    assert ProcOk(s, p);
    AppendFilesOk(s, t, p, NewData(op));
    AppendPends(s, t, p, NewData(op));
    AppDatDiff(s, t, p, NewData(op));
    hide Pend;
    StaleSame(s, t, p);
    forall q | q in t.procs && q != p ensures PairOk(t, p, q) {}
    Written(s, t, p, SLOTS, {});
  }

  // -- The states that the write steps lead to ------------------------------------------------

  function AtDelIdx(s: State, p: nat): State
    requires p in s.procs && s.procs[p].pc.DelIdx?
  {
    var Proc(op, pc) := s.procs[p];
    Goto(DoDelIdx(s, op.key, SlotOf(op.key), pc.off, pc.j, pc.freeptr), p, op, DelHead(pc.off, pc.fld, pc.j, pc.save))
  }

  function AtDelHead(s: State, p: nat): State
    requires p in s.procs && s.procs[p].pc.DelHead?
  {
    var Proc(op, pc) := s.procs[p];
    Goto(Joined(SetPtr(s, 0, pc.off), 0, pc.off), p, op, DelFix(pc.off, pc.fld, pc.j, pc.save))
  }

  function AtDelFix(s: State, p: nat): State
    requires p in s.procs && s.procs[p].pc.DelFix?
  {
    var Proc(op, pc) := s.procs[p];
    Goto(SetPtr(s, pc.fld, pc.save).(stale := s.stale - {SlotOf(op.key)}), p, op, DelUnlock)
  }

  function AtFfTake(s: State, p: nat): State
    requires p in s.procs && s.procs[p].pc.FfTake?
  {
    var Proc(op, pc) := s.procs[p];
    Goto(Removed(SetPtr(s, pc.fld, pc.save), 0, pc.j, pc.off), p, op, FfUnlock(pc.ptr, true, pc.off))
  }

  function AtFillIdx(s: State, p: nat): State
    requires p in s.procs && s.procs[p].pc.FillIdx?
  {
    var Proc(op, pc) := s.procs[p];
    Goto(DoFillIdx(s, op.key, pc.off, pc.ptr), p, op, Link(pc.ptr, pc.off))
  }

  function AtAppIdx(s: State, p: nat): State
    requires p in s.procs && s.procs[p].pc.AppIdx?
  {
    var Proc(op, pc) := s.procs[p];
    Goto(DoAppIdx(s, Entry(op.key, pc.doff, DataLen(op)), pc.off, pc.ptr), p, op, AppUnlockIdx(pc.ptr, pc.off))
  }

  function AtLink(s: State, p: nat): State
    requires p in s.procs && s.procs[p].pc.Link?
  {
    var Proc(op, pc) := s.procs[p];
    Goto(DoLink(s, op.key, SlotOf(op.key), pc.off), p, op, Done(RetCode(0)))
  }

  // -- Index writes ----------------------------------------------------------------------

  /** Resizing nothing: a record changes its key for one of the same length. */
  lemma RekeyFiles(s: State, o: nat, key: CString)
    requires FilesOk(s) && o in s.es && |key| == |s.es[o].key|
    ensures var es' := s.es[o := s.es[o].(key := key)];
            && DataOk(s.dat, es') && Tiled(s.isize, es')
            && (forall r {:trigger InFile(s.isize, es', r)} :: r in es' ==> InFile(s.isize, es', r))
            && (forall r :: r in s.es ==>
                ExtentOk(s.dat, s.es, r) && ExtentOk(s.dat, es', r) && DataOf(s.dat, es', r) == DataOf(s.dat, s.es, r))
  {
    hide Wf, KeysOk;
    var es' := s.es[o := s.es[o].(key := key)];
    RenameData(s.dat, s.es, o, key);
    TiledResize(s.isize, s.es, o, es'[o]);
    forall r | r in es' ensures InFile(s.isize, es', r) { assert InFile(s.isize, s.es, r); }
  }

  /** The data file and the record extents as they were keep all appended data. */
  lemma PendsSameDat(s: State, t: State, p: nat)
    requires t.dat == s.dat && t.es.Keys == s.es.Keys
    requires forall o :: o in s.es ==> t.es[o].datoff == s.es[o].datoff && t.es[o].datlen == s.es[o].datlen
    ensures PendsKept(s, t, p)
  {
    forall q | q in s.procs && q != p && PendOff(s.procs[q].pc).Some?
               && Pend(s, PendOff(s.procs[q].pc).value, NewData(s.procs[q].op))
      ensures Pend(t, PendOff(s.procs[q].pc).value, NewData(s.procs[q].op))
    {
      var a, n := PendOff(s.procs[q].pc).value, |NewData(s.procs[q].op)| + 1;
      forall o | o in t.es ensures Clear(t.es[o], a, n) { assert Clear(s.es[o], a, n); }
    }
  }

  /** The process itself answers for the pointer it leaves out of date. */
  lemma StaleMore(s: State, t: State, p: nat)
    requires Inv(s) && p in s.procs && p in t.procs && t.procs == s.procs[p := t.procs[p]] && t.w == s.w
    requires s.procs[p].pc.DelIdx? && t.procs[p].pc.DelHead? && t.procs[p].op == s.procs[p].op
    requires !s.procs[p].op.OpFetch? && t.stale == s.stale[SlotOf(s.procs[p].op.key) := t.procs[p].pc.j]
    ensures StaleOk(t)
  {
    hide SlotOf, FilesOk;
    assert HolderOk(s, p, SlotOf(s.procs[p].op.key));
    forall i | i in t.stale ensures StaleAt(t, i) {
      if i in s.stale { assert StaleAt(s, i); }
    }
  }

  lemma DelIdxFiles(s: State, p: nat)
    requires Inv(s) && p in s.procs && s.procs[p].pc.DelIdx?
    ensures var Proc(op, pc) := s.procs[p];
            var t := AtDelIdx(s, p);
            && pc.off in s.es && SlotOf(op.key) < SLOTS && SlotOf(op.key) !in s.stale
            && pc.j < |s.links.lists[SlotOf(op.key)]| && pc.off == s.links.lists[SlotOf(op.key)][pc.j]
            && pc.off in s.links.home && s.links.home[pc.off] == SlotOf(op.key)
            && t.links == Divert(s.links, SlotOf(op.key), pc.j, pc.freeptr)
            && FilesOk(t)
            && (forall r {:trigger SameData(s, t, r)} :: r in s.es && r != pc.off ==> SameData(s, t, r))
  {
    hide SlotOf, Tiled;
    var Proc(op, pc) := s.procs[p];
    var o, c := pc.off, SlotOf(op.key);
    assert ProcOk(s, p);
    NotStale(s, p, c);
    MemberFacts(s.links, c, pc.j, s.stale);
    assert NameOk(s.links.home, s.es, s.loc, o);
    var b := Repeat(SPACE, |s.es[o].key|);
    RekeyFiles(s, o, b);
    DivertWf(s.links, c, pc.j, pc.freeptr, s.stale);
    KeyWithdrawn(s.links.home, s.es, s.loc, op.key, s.es[o].(key := b));
  }

  lemma DelIdxAfter(s: State, p: nat)
    requires Inv(s) && p in s.procs && s.procs[p].pc.DelIdx?
    ensures var Proc(op, pc) := s.procs[p];
            var t := AtDelIdx(s, p);
            PcOk(t, op, t.procs[p].pc) && OpOk(op, t.procs[p].pc)
  {
    hide SlotOf, Tiled;
    var Proc(op, pc) := s.procs[p];
    var t := AtDelIdx(s, p);
    assert ProcOk(s, p);
    DelIdxFiles(s, p);
    DivertWf(s.links, SlotOf(op.key), pc.j, pc.freeptr, s.stale);
    OneSlot(op.key);
    LinkFacts(s.links, SlotOf(op.key), pc.j + 1, s.stale);
    assert Repairing(t, op, pc.fld, pc.j, pc.save);
    assert Gone(t, op);
    assert InLimbo(t, pc.off);
    assert Blank(t.es[pc.off].key);
    assert Along(t, 0, pc.freeptr, 0, 0);
    assert GetPtr(t, pc.off) == pc.freeptr;
  }

  lemma DelIdxDiff(s: State, p: nat)
    requires Inv(s) && p in s.procs && s.procs[p].pc.DelIdx?
    ensures var Proc(op, pc) := s.procs[p];
            var t := AtDelIdx(s, p);
            Diff(s, t, p, SlotOf(op.key), {pc.off}) && OwnRecs(s, p, SlotOf(op.key), {pc.off})
  {
    hide SlotOf, Tiled, Wf, KeysOk, DataOk;
    var Proc(op, pc) := s.procs[p];
    var t := AtDelIdx(s, p);
    assert ProcOk(s, p);
    DelIdxFiles(s, p);
    ListsSame(s, t, SlotOf(op.key));
    DelIdxRecs(s, p);
    hide FilesOk, SameRec, SameData;
  }

  lemma DelIdxRecs(s: State, p: nat)
    requires Inv(s) && p in s.procs && s.procs[p].pc.DelIdx?
    ensures var t := AtDelIdx(s, p);
            forall r :: r in s.es && r != s.procs[p].pc.off ==> SameRec(s, t, r) && SameData(s, t, r)
  {
    hide SlotOf, Tiled, Wf, KeysOk, DataOk;
    var t := AtDelIdx(s, p);
    assert ProcOk(s, p);
    DelIdxFiles(s, p);
    hide FilesOk;
    forall r | r in s.es && r != s.procs[p].pc.off ensures SameRec(s, t, r) && SameData(s, t, r) {
      assert SameData(s, t, r);
    }
  }

  lemma DelIdxQuiet(s: State, p: nat)
    requires Inv(s) && p in s.procs && s.procs[p].pc.DelIdx?
    ensures PendsKept(s, AtDelIdx(s, p), p) && Quiet(s, AtDelIdx(s, p), s.procs[p].op.key)
  {
    hide SlotOf, Tiled, Wf, KeysOk, DataOk;
    var Proc(op, pc) := s.procs[p];
    var t := AtDelIdx(s, p);
    DelIdxFiles(s, p);
    assert ProcOk(s, p);
    OnlyName(s, op.key, pc.off);
    QuietData(s, t, op.key, pc.off);
    hide FilesOk;
    PendsSameDat(s, t, p);
  }

  lemma StepDelIdx(s: State, p: nat)
    requires Inv(s) && p in s.procs && s.procs[p].pc.DelIdx?
    ensures Inv(AtDelIdx(s, p))
  {
    hide SlotOf, FilesOk, Diff, OwnRecs, PendsKept, Quiet, PcOk;
    var Proc(op, pc) := s.procs[p];
    var t := AtDelIdx(s, p);
    assert ProcOk(s, p);
    DelIdxFiles(s, p);
    DelIdxAfter(s, p);
    DelIdxDiff(s, p);
    DelIdxQuiet(s, p);
    StaleMore(s, t, p);
    OneSlot(op.key);
    NewlyMine(s, t, p, pc.off);
    Written(s, t, p, SlotOf(op.key), {pc.off});
  }

  // -- Pointer writes --------------------------------------------------------------------

  /** `t` is `s` with other links and `p` moved on; only list `i` and the fields and homes
      of `rs` differ. */
  ghost predicate Relinked(s: State, t: State, p: nat, i: nat, rs: set<nat>) {
    && p in s.procs && p in t.procs
    && t == s.(links := t.links, stale := t.stale, procs := s.procs[p := Proc(s.procs[p].op, t.procs[p].pc)])
    && t.stale - {i} == s.stale - {i}
    && i < |s.links.lists| && i < |t.links.lists| && t.links.lists == s.links.lists[i := t.links.lists[i]]
    && (forall o {:trigger GetPtr(t, o)} :: o !in rs && o >= BASE ==> GetPtr(t, o) == GetPtr(s, o))
    && (forall o :: o !in rs && o in s.links.home ==> o in t.links.home && t.links.home[o] == s.links.home[o])
  }

  lemma RelinkedShown(s: State, t: State, p: nat, i: nat, rs: set<nat>)
    requires FilesOk(s) && Relinked(s, t, p, i, rs)
    ensures Diff(s, t, p, i, rs) && PendsKept(s, t, p) && Quiet(s, t, s.procs[p].op.key)
    ensures t.w == s.w && t.rd == s.rd && t.procs == s.procs[p := t.procs[p]]
    ensures Agree(s, s.procs[p].op.key) ==> Agree(t, s.procs[p].op.key)
  {
    hide SlotOf, Tiled, HoldsW;
    ListsSame(s, t, i);
    PendsSameDat(s, t, p);
    NamesAreRecords(s);
    forall r | r in s.es ensures SameData(s, t, r) {}
    QuietData(s, t, s.procs[p].op.key, 0);
    forall r | r in s.es && r !in rs ensures SameRec(s, t, r) { assert HomeOk(s.links, r); }
  }

  lemma DelHeadFiles(s: State, p: nat)
    requires Inv(s) && p in s.procs && s.procs[p].pc.DelHead?
    ensures var Proc(op, pc) := s.procs[p];
            var t := AtDelHead(s, p);
            && FilesOk(t)
            && Relinked(s, t, p, 0, {pc.off}) && OwnRecs(s, p, 0, {pc.off})
            && DelOk(t, op, t.procs[p].pc)
  {
    hide SlotOf, Tiled;
    var Proc(op, pc) := s.procs[p];
    var t := AtDelHead(s, p);
    assert ProcOk(s, p);
    FreeNotStale(s);
    assert HomeOk(s.links, pc.off);
    PushWf(s.links, 0, pc.off, s.stale);
    KeyFreed(s.links.home, s.es, s.loc, pc.off);
    OneSlot(op.key);
  }

  lemma StepDelHead(s: State, p: nat)
    requires Inv(s) && p in s.procs && s.procs[p].pc.DelHead?
    ensures Inv(AtDelHead(s, p))
  {
    hide SlotOf, FilesOk, Diff, OwnRecs, PendsKept, Quiet, DelOk, Relinked;
    var Proc(op, pc) := s.procs[p];
    var t := AtDelHead(s, p);
    assert ProcOk(s, p);
    DelHeadFiles(s, p);
    RelinkedShown(s, t, p, 0, {pc.off});
    forall i | i in t.stale ensures StaleAt(t, i) { assert StaleAt(s, i); }
    StillApart(s, t, p);
    Written(s, t, p, 0, {pc.off});
  }

  lemma DelFixFiles(s: State, p: nat)
    requires Inv(s) && p in s.procs && s.procs[p].pc.DelFix?
    ensures var Proc(op, pc) := s.procs[p];
            var t := AtDelFix(s, p);
            && FilesOk(t)
            && Relinked(s, t, p, SlotOf(op.key), {pc.fld}) && OwnRecs(s, p, SlotOf(op.key), {pc.fld})
            && DelOk(t, op, t.procs[p].pc)
  {
    hide SlotOf, Tiled;
    var Proc(op, pc) := s.procs[p];
    var t := AtDelFix(s, p);
    var c := SlotOf(op.key);
    assert ProcOk(s, p);
    RepairWf(s.links, c, pc.j, s.stale);
    if pc.j > 0 { MemberFacts(s.links, c, pc.j - 1, s.stale); }
    SlotsAreNoRecords(s, c);
  }

  lemma SlotsAreNoRecords(s: State, i: nat)
    requires FilesOk(s) && i < SLOTS
    ensures Slot(i) !in s.links.home
  {
    assert Slot(i) in s.links.home ==> HomeOk(s.links, Slot(i));
  }

  lemma StepDelFix(s: State, p: nat)
    requires Inv(s) && p in s.procs && s.procs[p].pc.DelFix?
    ensures Inv(AtDelFix(s, p))
  {
    hide SlotOf, FilesOk, Diff, OwnRecs, PendsKept, Quiet, DelOk, Relinked;
    var Proc(op, pc) := s.procs[p];
    var t := AtDelFix(s, p);
    var c := SlotOf(op.key);
    assert ProcOk(s, p);
    DelFixFiles(s, p);
    RelinkedShown(s, t, p, c, {pc.fld});
    StaleLess(s, t, p);
    StillApart(s, t, p);
    Written(s, t, p, c, {pc.fld});
  }

  lemma StaleLess(s: State, t: State, p: nat)
    requires Inv(s) && p in s.procs && p in t.procs && t.procs == s.procs[p := t.procs[p]] && t.w == s.w
    requires t.stale == s.stale - {SlotOf(s.procs[p].op.key)}
    ensures StaleOk(t)
  {
    hide SlotOf, FilesOk;
    forall i | i in t.stale ensures StaleAt(t, i) { assert StaleAt(s, i); }
  }

  lemma FfTakeFiles(s: State, p: nat)
    requires Inv(s) && p in s.procs && s.procs[p].pc.FfTake?
    ensures var Proc(op, pc) := s.procs[p];
            var t := AtFfTake(s, p);
            && FilesOk(t) && t.stale == s.stale && t.procs[p] == Proc(op, FfUnlock(pc.ptr, true, pc.off))
            && Relinked(s, t, p, 0, {pc.off, pc.fld}) && OwnRecs(s, p, 0, {pc.off, pc.fld})
            && StoreOk(t, op, t.procs[p].pc) && !InLimbo(s, pc.off)
  {
    hide SlotOf, Tiled;
    var Proc(op, pc) := s.procs[p];
    var t := AtFfTake(s, p);
    assert ProcOk(s, p);
    FreeNotStale(s);
    LinkFacts(s.links, 0, pc.j + 1, s.stale);
    MemberFacts(s.links, 0, pc.j, s.stale);
    if pc.j > 0 { MemberFacts(s.links, 0, pc.j - 1, s.stale); }
    UnlinkWf(s.links, 0, pc.j, s.stale);
    SlotsAreNoRecords(s, 0);
    KeyInLimbo(s.links.home, s.es, s.loc, pc.off, s.es[pc.off]);
    assert s.es[pc.off := s.es[pc.off]] == s.es;
    OneSlot(op.key);
  }

  lemma StepFfTake(s: State, p: nat)
    requires Inv(s) && p in s.procs && s.procs[p].pc.FfTake?
    ensures Inv(AtFfTake(s, p))
  {
    hide SlotOf, FilesOk, Diff, OwnRecs, PendsKept, Quiet, StoreOk, Relinked, Agree;
    var Proc(op, pc) := s.procs[p];
    var t := AtFfTake(s, p);
    assert ProcOk(s, p);
    FfTakeFiles(s, p);
    RelinkedShown(s, t, p, 0, {pc.off, pc.fld});
    StaleSame(s, t, p);
    NewlyMine(s, t, p, pc.off);
    Firm(s, p);
    Written(s, t, p, 0, {pc.off, pc.fld});
  }

  // -- Filling in, appending and publishing a record -----------------------------------------

  lemma FillIdxFiles(s: State, p: nat)
    requires FilesOk(s) && p in s.procs && s.procs[p].pc.FillIdx?
    requires InLimbo(s, s.procs[p].pc.off) && Sized(s, s.procs[p].op, s.procs[p].pc.off)
    ensures var t := AtFillIdx(s, p);
            FilesOk(t) && forall r {:trigger SameData(s, t, r)} :: r in s.es ==> SameData(s, t, r)
  {
    hide SlotOf, Tiled;
    var Proc(op, pc) := s.procs[p];
    var o := pc.off;
    assert HomeOk(s.links, o);
    PlaceWf(s.links, o, pc.ptr, s.stale);
    assert s.links.home[o := LIMBO] == s.links.home;
    RekeyFiles(s, o, op.key);
    KeyInLimbo(s.links.home, s.es, s.loc, o, s.es[o].(key := op.key));
  }

  lemma FillIdxAfter(s: State, p: nat)
    requires FilesOk(s) && p in s.procs && ProcOk(s, p) && s.procs[p].pc.FillIdx?
    ensures var t := AtFillIdx(s, p); FilesOk(t) && StoreOk(t, t.procs[p].op, t.procs[p].pc)
  {
    hide SlotOf, Wf, Tiled, KeysOk, DataOk;
    var Proc(op, pc) := s.procs[p];
    FillIdxFiles(s, p);
    assert SameData(s, AtFillIdx(s, p), pc.off);
  }

  lemma FillIdxDiff(s: State, p: nat)
    requires Inv(s) && p in s.procs && s.procs[p].pc.FillIdx?
    ensures var Proc(op, pc) := s.procs[p];
            var t := AtFillIdx(s, p);
            && Diff(s, t, p, SLOTS, {pc.off}) && OwnRecs(s, p, SLOTS, {pc.off})
            && PendsKept(s, t, p) && Quiet(s, t, op.key)
  {
    hide SlotOf, Tiled, Wf, KeysOk, DataOk, HoldsW;
    var Proc(op, pc) := s.procs[p];
    var t := AtFillIdx(s, p);
    assert ProcOk(s, p);
    FillIdxFiles(s, p);
    ListsSame(s, t, SLOTS);
    PendsSameDat(s, t, p);
    NamesAreRecords(s);
    QuietData(s, t, op.key, 0);
    forall r | r in s.es && r !in {pc.off} ensures SameRec(s, t, r) {}
  }

  lemma StepFillIdx(s: State, p: nat)
    requires Inv(s) && p in s.procs && s.procs[p].pc.FillIdx?
    ensures Inv(AtFillIdx(s, p))
  {
    hide SlotOf, FilesOk, Diff, OwnRecs, PendsKept, Quiet, StoreOk;
    var Proc(op, pc) := s.procs[p];
    var t := AtFillIdx(s, p);
    assert ProcOk(s, p);
    FillIdxAfter(s, p);
    FillIdxDiff(s, p);
    StaleSame(s, t, p);
    StillApart(s, t, p);
    HolderStores(s, p);
    Written(s, t, p, SLOTS, {pc.off});
  }

  /** A fetch never gets this far. */
  lemma HolderStores(s: State, p: nat)
    requires p in s.procs && ProcOk(s, p) && !FetchPc(s.procs[p].pc)
    ensures !s.procs[p].op.OpFetch?
  {
  }

  lemma AppIdxFiles(s: State, p: nat)
    requires FilesOk(s) && p in s.procs && s.procs[p].pc.AppIdx? && s.procs[p].pc.off == s.isize
    requires Pend(s, s.procs[p].pc.doff, NewData(s.procs[p].op)) && s.procs[p].op.OpStore?
    ensures var Proc(op, pc) := s.procs[p];
            var t := AtAppIdx(s, p);
            && FilesOk(t) && pc.off !in s.es && pc.off !in s.links.home && DataIs(t, pc.off, NewData(op))
            && (forall r {:trigger SameData(s, t, r)} :: r in s.es ==> SameData(s, t, r))
  {
    hide SlotOf, Tiled;
    var Proc(op, pc) := s.procs[p];
    var t := AtAppIdx(s, p);
    var o, e := pc.off, Entry(op.key, pc.doff, DataLen(op));
    forall r | r in s.es ensures Before(s.es, r, o) && r < o { assert InFile(s.isize, s.es, r); }
    PlaceWf(s.links, o, pc.ptr, s.stale);
    KeyInLimbo(s.links.home, s.es, s.loc, o, e);
    forall r | r in s.es ensures Clear(s.es[r], pc.doff, e.datlen) {}
    NewExtent(s.dat, s.es, o, e, NewData(op));
    TiledGrow(o, s.es, e);
    forall r | r in t.es ensures InFile(t.isize, t.es, r) { if r != o { assert InFile(s.isize, s.es, r); } }
  }

  lemma AppIdxAfter(s: State, p: nat)
    requires FilesOk(s) && p in s.procs && ProcOk(s, p) && s.procs[p].pc.AppIdx?
    ensures var t := AtAppIdx(s, p); FilesOk(t) && AppendOk(t, t.procs[p].op, t.procs[p].pc)
    ensures s.procs[p].pc.off !in s.es
  {
    hide SlotOf, Wf, Tiled, KeysOk, DataOk, Pend;
    AppIdxFiles(s, p);
  }

  lemma AppIdxPends(s: State, p: nat)
    requires Inv(s) && p in s.procs && s.procs[p].pc.AppIdx?
    ensures PendsKept(s, AtAppIdx(s, p), p)
  {
    hide SlotOf, FilesOk, LocksOk, StaleOk, AbsOk;
    var Proc(op, pc) := s.procs[p];
    var t := AtAppIdx(s, p);
    assert ProcOk(s, p);
    forall q | q in s.procs && q != p && PendOff(s.procs[q].pc).Some?
               && Pend(s, PendOff(s.procs[q].pc).value, NewData(s.procs[q].op))
      ensures Pend(t, PendOff(s.procs[q].pc).value, NewData(s.procs[q].op))
    {
      assert PairOk(s, p, q) && ProcOk(s, q);
      var a, n := PendOff(s.procs[q].pc).value, |NewData(s.procs[q].op)| + 1;
      forall o | o in t.es ensures Clear(t.es[o], a, n) { if o != pc.off { assert Clear(s.es[o], a, n); } }
    }
  }

  lemma AppIdxDiff(s: State, p: nat)
    requires Inv(s) && p in s.procs && s.procs[p].pc.AppIdx?
    ensures var Proc(op, pc) := s.procs[p];
            var t := AtAppIdx(s, p);
            && Diff(s, t, p, SLOTS, {pc.off}) && OwnRecs(s, p, SLOTS, {pc.off}) && Quiet(s, t, op.key)
  {
    hide SlotOf, Tiled, Wf, KeysOk, DataOk, Pend;
    var Proc(op, pc) := s.procs[p];
    var t := AtAppIdx(s, p);
    assert ProcOk(s, p);
    AppIdxFiles(s, p);
    ListsSame(s, t, SLOTS);
    NamesAreRecords(s);
    QuietData(s, t, op.key, 0);
    forall r | r in s.es && r !in {pc.off} ensures SameRec(s, t, r) {}
  }

  lemma StepAppIdx(s: State, p: nat)
    requires Inv(s) && p in s.procs && s.procs[p].pc.AppIdx?
    ensures Inv(AtAppIdx(s, p))
  {
    hide SlotOf, FilesOk, Diff, OwnRecs, PendsKept, Quiet, AppendOk;
    var Proc(op, pc) := s.procs[p];
    var t := AtAppIdx(s, p);
    assert ProcOk(s, p);
    AppIdxAfter(s, p);
    AppIdxPends(s, p);
    AppIdxDiff(s, p);
    StaleSame(s, t, p);
    NewlyMine(s, t, p, pc.off);
    HolderStores(s, p);
    Written(s, t, p, SLOTS, {pc.off});
  }

  lemma LinkFiles(s: State, p: nat)
    requires FilesOk(s) && p in s.procs && ProcOk(s, p) && s.procs[p].pc.Link?
    requires SlotOf(s.procs[p].op.key) !in s.stale
    ensures FilesOk(AtLink(s, p))
  {
    hide SlotOf, Tiled;
    var Proc(op, pc) := s.procs[p];
    var o, c := pc.off, SlotOf(op.key);
    assert HomeOk(s.links, o);
    PushWf(s.links, c, o, s.stale);
    KeyAdded(s.links.home, s.es, s.loc, o, s.es[o]);
    assert s.es[o := s.es[o]] == s.es;
  }

  lemma LinkAfter(s: State, p: nat)
    requires FilesOk(s) && p in s.procs && ProcOk(s, p) && s.procs[p].pc.Link?
    ensures var t := AtLink(s, p); FindOk(t, t.procs[p].op, t.procs[p].pc)
    ensures OwnRecs(s, p, SlotOf(s.procs[p].op.key), {s.procs[p].pc.off})
  {
    hide SlotOf, FilesOk, OwnRecs, AtLink, FindOk;
    LinkDone(s, p);
    LinkOwn(s, p);
  }

  lemma LinkDone(s: State, p: nat)
    requires p in s.procs && ProcOk(s, p) && s.procs[p].pc.Link?
    ensures var t := AtLink(s, p); FindOk(t, t.procs[p].op, t.procs[p].pc)
  {
    hide SlotOf;
  }

  lemma LinkOwn(s: State, p: nat)
    requires p in s.procs && ProcOk(s, p) && s.procs[p].pc.Link?
    ensures OwnRecs(s, p, SlotOf(s.procs[p].op.key), {s.procs[p].pc.off})
  {
    hide SlotOf, InLimbo, DataIs;
  }

  lemma LinkDiff(s: State, p: nat)
    requires FilesOk(s) && p in s.procs && ProcOk(s, p) && s.procs[p].pc.Link?
    ensures Diff(s, AtLink(s, p), p, SlotOf(s.procs[p].op.key), {s.procs[p].pc.off})
  {
    var Proc(op, pc) := s.procs[p];
    var t := AtLink(s, p);
    SlotsBelow(s);
    ListsSame(s, t, SlotOf(op.key));
    LinkRecs(s, p);
    hide SlotOf, FilesOk, PcOk, SameRec, SameData;
  }

  lemma LinkRecs(s: State, p: nat)
    requires FilesOk(s) && p in s.procs && s.procs[p].pc.Link?
    ensures var t := AtLink(s, p);
            forall r :: r in s.es && r != s.procs[p].pc.off ==> SameRec(s, t, r) && SameData(s, t, r)
  {
    var t := AtLink(s, p);
    SlotsBelow(s);
    hide SlotOf, FilesOk;
    forall r | r in s.es && r != s.procs[p].pc.off ensures SameRec(s, t, r) && SameData(s, t, r) {}
  }

  lemma LinkQuiet(s: State, p: nat)
    requires FilesOk(s) && p in s.procs && s.procs[p].pc.Link?
    ensures PendsKept(s, AtLink(s, p), p) && Quiet(s, AtLink(s, p), s.procs[p].op.key)
  {
    var t, op, pc := AtLink(s, p), s.procs[p].op, s.procs[p].pc;
    assert t.dat == s.dat && t.es == s.es && t.loc == s.loc[op.key := pc.off];
    hide SlotOf, Tiled, Wf, KeysOk, DataOk, AtLink;
    PendsSameDat(s, t, p);
    NamesAreRecords(s);
    hide FilesOk;
    forall r | r in s.es ensures SameData(s, t, r) {}
    assert t.loc - {op.key} == s.loc - {op.key};
    QuietData(s, t, op.key, 0);
  }

  lemma SlotsBelow(s: State)
    requires FilesOk(s)
    ensures forall r :: r in s.es ==> r >= BASE
  {
    forall r | r in s.es ensures r >= BASE { assert HomeOk(s.links, r); }
  }

  lemma LinkAll(s: State, p: nat)
    requires Inv(s) && p in s.procs && s.procs[p].pc.Link?
    ensures var t, op, pc := AtLink(s, p), s.procs[p].op, s.procs[p].pc;
            && FilesOk(t) && OwnRecs(s, p, SlotOf(op.key), {pc.off}) && Diff(s, t, p, SlotOf(op.key), {pc.off})
            && PendsKept(s, t, p) && Quiet(s, t, op.key) && FindOk(t, t.procs[p].op, t.procs[p].pc)
  {
    assert ProcOk(s, p);
    NotStale(s, p, SlotOf(s.procs[p].op.key));
    hide SlotOf, FilesOk, Diff, OwnRecs, PendsKept, Quiet, FindOk, AbsOk, PairOk, LocksOk, StaleOk, PcOk, OpOk;
    LinkFiles(s, p);
    LinkAfter(s, p);
    LinkDiff(s, p);
    LinkQuiet(s, p);
  }

  lemma LinkShape(s: State, p: nat)
    requires Inv(s) && p in s.procs && s.procs[p].pc.Link?
    ensures var t, op := AtLink(s, p), s.procs[p].op;
            && t.procs == s.procs[p := Proc(op, Done(RetCode(0)))]
            && t.w == s.w && t.rd == s.rd && t.stale == s.stale
    ensures ProcOk(s, p) && OpOk(s.procs[p].op, Done(RetCode(0)))
  {
    assert ProcOk(s, p);
    hide SlotOf, PcOk, FilesOk, AbsOk, LocksOk, StaleOk;
  }

  lemma StepLink(s: State, p: nat)
    requires Inv(s) && p in s.procs && s.procs[p].pc.Link? && s.procs[p].pc.off <= PTR_MAX
    ensures Inv(AtLink(s, p))
  {
    hide Inv, AtLink, SlotOf, FilesOk, Diff, OwnRecs, PendsKept, Quiet, FindOk, PairOk, OpOk, StaleOk;
    var Proc(op, pc) := s.procs[p];
    var t := AtLink(s, p);
    LinkShape(s, p);
    LinkAll(s, p);
    StaleSame(s, t, p);
    StillApart(s, t, p);
    HolderStores(s, p);
    Written(s, t, p, SlotOf(op.key), {pc.off});
  }

  lemma Failing(s: State, p: nat)
    requires Inv(s) && p in s.procs && s.procs[p].pc.Link? && s.procs[p].pc.off > PTR_MAX
    ensures Inv(Goto(s, p, s.procs[p].op, Failed(TooFar(s.procs[p].pc.off))))
  {
    hide SlotOf, FilesOk;
    assert ProcOk(s, p);
    Move(s, p, Failed(TooFar(s.procs[p].pc.off)));
  }
}

/** How far any interleaving can make the two files grow, and so how many stores are safe. */
module DbProcsSizes {
  import opened Ascii
  import opened DbFormat
  import opened Lists
  import opened DbLinks
  import opened DbBytes
  import opened DbSpec
  import opened DbView
  import opened DbLayout
  import opened DbHeads
  import opened DbProcs
  import opened DbProcsInv
  import opened DbProcsMoves
  import opened DbProcsRuns
  import opened DbProcsKeys
  import opened DbProcsCalls

  // -- One step --------------------------------------------------------------------------

  /** The store has its index record still to write, or its data, too. */
  predicate BeforeIdx(proc: Proc) {
    proc.op.OpStore? && !proc.pc.Idle? && !proc.pc.AppUnlockIdx? && !proc.pc.Link? && !proc.pc.Done? && !proc.pc.Failed?
  }

  predicate BeforeDat(proc: Proc) {
    && BeforeIdx(proc)
    && !proc.pc.AppUnlockDat? && !proc.pc.AppLockIdx? && !proc.pc.AppSeekIdx? && !proc.pc.AppIdx?
  }

  /** A record is written only if its length is allowed. */
  predicate LenHeld(proc: Proc) {
    proc.pc.AppSeekIdx? || proc.pc.AppIdx? ==> BodyLenOk(proc.op.key, proc.pc.doff, DataLen(proc.op))
  }

  /** A process ends on an offset inside the files. */
  predicate EndsInside(s: State, pc: Pc) {
    pc.Failed? ==> match pc.why
                   case Unreadable(_) => true
                   case TooLong(doff) => doff <= |s.dat|
                   case TooFar(off) => off <= s.isize
  }

  predicate Grows(s: State, t: State, pc: Pc) {
    && (t.isize == s.isize || (pc.AppIdx? && s.isize <= t.isize <= s.isize + REC_MAX))
    && (|t.dat| == |s.dat| || (pc.AppDat? && |s.dat| <= |t.dat| <= |s.dat| + DATLEN_MAX))
  }

  predicate Onwards(s: State, t: State, p: nat)
    requires p in s.procs
  {
    var Proc(op, pc) := s.procs[p];
    && p in t.procs && t.procs == s.procs[p := t.procs[p]] && t.procs[p].op == op
    && (BeforeIdx(t.procs[p]) ==> BeforeIdx(s.procs[p]) && !pc.AppIdx?)
    && (BeforeDat(t.procs[p]) ==> BeforeDat(s.procs[p]) && !pc.AppDat?)
    && LenHeld(t.procs[p])
    && (t.procs[p].pc.Failed? ==>
          match t.procs[p].pc.why
          case Unreadable(_) => pc.Walk?
          case TooLong(doff) => pc.AppLockIdx? && pc.doff == doff
          case TooFar(off) => pc.Link? && pc.off == off)
  }

  /** Where a deletion and a store on a found, new or reused record can go next. */
  predicate DeleteNext(pc': Pc) { InDelete(pc') || pc'.NewHead? || pc'.Done? }

  predicate StoreNext(pc: Pc, pc': Pc) {
    if pc.Link? then pc'.Done? || pc' == Failed(TooFar(pc.off)) else InStore(pc') || pc'.AppLockDat? || pc'.Done?
  }

  /** Only `p` moves, in the same call. */
  predicate Steps(s: State, t: State, p: nat)
    requires p in s.procs
  {
    p in t.procs && t.procs == s.procs[p := t.procs[p]] && t.procs[p].op == s.procs[p].op
  }

  lemma DeleteShape(s: State, p: nat)
    requires p in s.procs && InDelete(s.procs[p].pc)
    ensures var t := ExecDelete(s, p, s.procs[p].op, s.procs[p].pc);
            Steps(s, t, p) && DeleteNext(t.procs[p].pc)
  {
    hide SlotOf, Goto, WriteLock, ReadLock, Unlock, SetPtr, SetDat, Removed, Joined, DoDelDat, DoDelIdx;
  }

  lemma DeleteOnwards(s: State, p: nat)
    requires p in s.procs && InDelete(s.procs[p].pc)
    ensures Onwards(s, ExecDelete(s, p, s.procs[p].op, s.procs[p].pc), p)
  {
    hide ExecDelete, BodyLenOk;
    DeleteShape(s, p);
  }

  lemma StoreShape(s: State, p: nat)
    requires p in s.procs && InStore(s.procs[p].pc)
    ensures var t := ExecStore(s, p, s.procs[p].op, s.procs[p].pc);
            Steps(s, t, p) && StoreNext(s.procs[p].pc, t.procs[p].pc)
  {
    hide SlotOf, Goto, WriteLock, ReadLock, Unlock, SetPtr, SetDat, Removed, Joined, DoFillIdx, DoLink, DoRepl;
  }

  lemma StoreOnwards(s: State, p: nat)
    requires p in s.procs && InStore(s.procs[p].pc)
    ensures Onwards(s, ExecStore(s, p, s.procs[p].op, s.procs[p].pc), p)
  {
    hide ExecStore, BodyLenOk;
    StoreShape(s, p);
  }

  lemma AppendOnwards(s: State, p: nat)
    requires p in s.procs && InAppend(s.procs[p].pc) && LenHeld(s.procs[p]) && s.procs[p].op.OpStore?
    ensures Onwards(s, ExecAppend(s, p, s.procs[p].op, s.procs[p].pc), p)
  {
    hide SlotOf, Goto, WriteLock, ReadLock, Unlock, SetDat, DoAppIdx, BodyLenOk;
  }

  lemma FindOnwards(s: State, p: nat)
    requires p in s.procs && !InDelete(s.procs[p].pc) && !InStore(s.procs[p].pc) && !InAppend(s.procs[p].pc)
    requires !s.procs[p].pc.Idle?
    ensures Onwards(s, ExecFind(s, p, s.procs[p].op, s.procs[p].pc), p)
  {
    hide SlotOf, Goto, WriteLock, ReadLock, Unlock, BodyLenOk, SpecStep;
  }

  lemma InPlace(s: State, off: nat, data: bytes)
    requires off in s.es && ExtentOk(s.dat, s.es, off) && |data| == s.es[off].datlen
    ensures |SetDat(s, s.es[off].datoff, data).dat| == |s.dat|
  {
    WriteLen(s.dat, s.es[off].datoff, data);
  }

  lemma DeleteGrows(s: State, p: nat, op: Op, pc: Pc)
    requires InDelete(pc) && (pc.DelDat? ==> pc.off in s.es && ExtentOk(s.dat, s.es, pc.off))
    ensures Grows(s, ExecDelete(s, p, op, pc), pc)
  {
    hide SlotOf, Goto, WriteLock, ReadLock, Unlock, SetPtr, SetDat, Removed, Joined, DoDelIdx;
    if pc.DelDat? { InPlace(s, pc.off, Repeat(SPACE, s.es[pc.off].datlen - 1) + [NEWLINE]); }
  }

  lemma StoreGrows(s: State, p: nat, op: Op, pc: Pc)
    requires InStore(pc)
    requires pc.FillDat? || pc.Repl? ==>
               pc.off in s.es && ExtentOk(s.dat, s.es, pc.off) && s.es[pc.off].datlen == DataLen(op) && op.OpStore?
    ensures Grows(s, ExecStore(s, p, op, pc), pc)
  {
    hide SlotOf, Goto, WriteLock, ReadLock, Unlock, SetPtr, SetDat, Removed, Joined, DoFillIdx, DoLink;
    if pc.FillDat? || pc.Repl? { InPlace(s, pc.off, NewData(op) + [NEWLINE]); }
  }

  lemma AppendGrows(s: State, p: nat, op: Op, pc: Pc)
    requires InAppend(pc) && op.OpStore? && Callable(op) && LenHeld(Proc(op, pc))
    requires (pc.AppDat? ==> pc.doff == |s.dat|) && (pc.AppIdx? ==> pc.off == s.isize)
    ensures Grows(s, ExecAppend(s, p, op, pc), pc)
  {
    hide SlotOf, Goto, WriteLock, ReadLock, Unlock;
    if pc.AppDat? { AppendDatLen(s, NewData(op)); }
  }

  lemma AppendDatLen(s: State, data: CString)
    ensures |SetDat(s, |s.dat|, data + [NEWLINE]).dat| == |s.dat| + |data| + 1
  {
  }

  lemma FindGrows(s: State, p: nat, op: Op, pc: Pc)
    requires !InDelete(pc) && !InStore(pc) && !InAppend(pc)
    ensures Grows(s, ExecFind(s, p, op, pc), pc)
  {
    hide SlotOf, Goto, WriteLock, ReadLock, Unlock, SpecStep, AfterFind;
  }

  /** What the invariant says that matters here. */
  lemma PcSizes(s: State, p: nat)
    requires Inv(s) && p in s.procs
    ensures var Proc(op, pc) := s.procs[p];
            && Callable(op) && (InAppend(pc) ==> op.OpStore?)
            && (pc.DelDat? || pc.FillDat? || pc.Repl? ==> pc.off in s.es && ExtentOk(s.dat, s.es, pc.off))
            && (pc.FillDat? || pc.Repl? ==> s.es[pc.off].datlen == DataLen(op) && op.OpStore?)
            && (pc.AppDat? ==> pc.doff == |s.dat|) && (pc.AppIdx? ==> pc.off == s.isize)
            && (pc.AppLockIdx? ==> pc.doff <= |s.dat|) && (pc.Link? ==> pc.off <= s.isize)
  {
    hide SlotOf;
    assert ProcOk(s, p);
    var pc := s.procs[p].pc;
    if pc.DelDat? || pc.FillDat? || pc.Repl? { assert ExtentOk(s.dat, s.es, pc.off); }
    if pc.Link? { assert InFile(s.isize, s.es, pc.off); }
  }

  lemma ExecSizes(s: State, p: nat)
    requires Inv(s) && p in s.procs && !s.procs[p].pc.Idle? && LenHeld(s.procs[p])
    ensures Grows(s, Exec(s, p), s.procs[p].pc) && Onwards(s, Exec(s, p), p)
  {
    hide Inv, ExecFind, ExecDelete, ExecStore, ExecAppend, Onwards, Grows;
    PcSizes(s, p);
    var Proc(op, pc) := s.procs[p];
    if InDelete(pc) { DeleteGrows(s, p, op, pc); DeleteOnwards(s, p); }
    else if InStore(pc) { StoreGrows(s, p, op, pc); StoreOnwards(s, p); }
    else if InAppend(pc) { AppendGrows(s, p, op, pc); AppendOnwards(s, p); }
    else { FindGrows(s, p, op, pc); FindOnwards(s, p); }
  }

  // -- Whole runs ------------------------------------------------------------------------

  /** The next step of `p` is to make a call. */
  predicate Begins(s: State, p: nat) { p in s.procs ==> s.procs[p].pc.Idle? }

  /** How many of the first `n` steps began a store. */
  function StoresBegun(run: seq<State>, who: seq<nat>, n: nat): nat
    requires |run| == |who| + 1 && n <= |who|
  {
    if n == 0 then 0 else
    var s, t, p := run[n - 1], run[n], who[n - 1];
    StoresBegun(run, who, n - 1) + if Begins(s, p) && p in t.procs && t.procs[p].op.OpStore? then 1 else 0
  }

  function ToIdx(s: State): set<nat> { set p | p in s.procs && BeforeIdx(s.procs[p]) }

  function ToDat(s: State): set<nat> { set p | p in s.procs && BeforeDat(s.procs[p]) }

  /** Each of `n` stores has added one record of each file, or may still do so. */
  predicate Room(s: State, n: nat) {
    && s.isize + REC_MAX * |ToIdx(s)| <= BASE + REC_MAX * n
    && |s.dat| + DATLEN_MAX * |ToDat(s)| <= DATLEN_MAX * n
  }

  predicate Kept(s: State, p: nat)
    requires p in s.procs
  {
    LenHeld(s.procs[p]) && EndsInside(s, s.procs[p].pc)
  }

  ghost predicate AllKept(s: State) { forall p {:trigger Kept(s, p)} :: p in s.procs ==> Kept(s, p) }

  lemma Fewer(a: set<nat>, b: set<nat>, p: nat)
    ensures a <= b ==> |a| <= |b|
    ensures a <= b - {p} && p in b ==> |a| < |b|
    ensures a <= b + {p} ==> |a| <= |b| + 1
  {
    if a <= b { CardinalityUp(a, b); }
    if a <= b - {p} && p in b { CardinalityUp(a, b - {p}); }
    if a <= b + {p} { CardinalityUp(a, b + {p}); }
  }

  lemma {:induction false} CardinalityUp(a: set<nat>, b: set<nat>)
    requires a <= b
    ensures |a| <= |b|
  {
    if p :| p in a { CardinalityUp(a - {p}, b - {p}); }
  }

  lemma ExecRoom(s: State, t: State, p: nat, n: nat)
    requires p in s.procs && (s.procs[p].pc.AppIdx? || s.procs[p].pc.AppDat? ==> s.procs[p].op.OpStore?)
    requires Room(s, n) && Grows(s, t, s.procs[p].pc) && Onwards(s, t, p)
    ensures Room(t, n)
  {
    var pc := s.procs[p].pc;
    assert ToIdx(t) <= ToIdx(s) && (pc.AppIdx? ==> p in ToIdx(s) && p !in ToIdx(t));
    assert ToDat(t) <= ToDat(s) && (pc.AppDat? ==> p in ToDat(s) && p !in ToDat(t));
    hide ToIdx, ToDat, Onwards;
    Fewer(ToIdx(t), ToIdx(s), p);
    Fewer(ToDat(t), ToDat(s), p);
  }

  lemma ExecKept(s: State, t: State, p: nat)
    requires AllKept(s) && p in s.procs && Grows(s, t, s.procs[p].pc) && Onwards(s, t, p)
    requires var pc := s.procs[p].pc;
             (pc.AppLockIdx? ==> pc.doff <= |s.dat|) && (pc.Link? ==> pc.off <= s.isize)
    ensures AllKept(t)
  {
    hide BodyLenOk;
    forall q | q in t.procs ensures Kept(t, q) {
      if q != p { assert q in s.procs && Kept(s, q) && t.procs[q] == s.procs[q]; }
    }
  }

  lemma BeginRoom(s: State, p: nat, op: Op, n: nat)
    requires Begins(s, p) && Room(s, n)
    ensures Room(Begin(s, p, op), n + if op.OpStore? then 1 else 0)
  {
    hide ToIdx, ToDat;
    var t := Begin(s, p, op);
    BeginSets(s, p, op);
    Fewer(ToIdx(t), ToIdx(s), p);
    Fewer(ToDat(t), ToDat(s), p);
  }

  lemma BeginSets(s: State, p: nat, op: Op)
    ensures var t := Begin(s, p, op);
            && ToIdx(t) <= ToIdx(s) + {p} && (!op.OpStore? ==> ToIdx(t) <= ToIdx(s))
            && ToDat(t) <= ToDat(s) + {p} && (!op.OpStore? ==> ToDat(t) <= ToDat(s))
  {
  }

  lemma BeginKept(s: State, p: nat, op: Op)
    requires AllKept(s)
    ensures AllKept(Begin(s, p, op))
  {
    hide BodyLenOk;
    var t := Begin(s, p, op);
    forall q | q in t.procs ensures Kept(t, q) { if q != p { assert Kept(s, q); } }
  }

  lemma InitSizes(s: State)
    requires Init(s)
    ensures Room(s, 0) && AllKept(s)
  {
    assert ToIdx(s) == {} && ToDat(s) == {};
  }

  /** In every run both files are bounded by the number of stores begun. */
  lemma {:induction false} FilesBounded(run: seq<State>, who: seq<nat>, n: nat)
    requires IsRun(run, who) && n <= |who|
    ensures Room(run[n], StoresBegun(run, who, n)) && AllKept(run[n])
  {
    hide Room, AllKept, Inv, Exec, Init, Enabled;
    if n == 0 {
      InitSizes(run[0]);
    } else {
      FilesBounded(run, who, n - 1);
      RunInv(run, who, n - 1);
      var s, t, p := run[n - 1], run[n], who[n - 1];
      assert Step(s, t, p);
      if p in s.procs && Enabled(s, p) && t == Exec(s, p) {
        EnabledBusy(s, p);
        StepSizes(s, p, StoresBegun(run, who, n - 1));
      } else {
        BeginRoom(s, p, t.procs[p].op, StoresBegun(run, who, n - 1));
        BeginKept(s, p, t.procs[p].op);
      }
    }
  }

  lemma StepSizes(s: State, p: nat, n: nat)
    requires Inv(s) && Room(s, n) && AllKept(s) && p in s.procs && !s.procs[p].pc.Idle?
    ensures Room(Exec(s, p), n) && AllKept(Exec(s, p))
  {
    hide Inv, Exec, Room, Grows, Onwards, BodyLenOk;
    assert Kept(s, p);
    PcSizes(s, p);
    ExecSizes(s, p);
    ExecRoom(s, Exec(s, p), p, n);
    ExecKept(s, Exec(s, p), p);
  }

  /** The files never shrink. */
  lemma StepBigger(run: seq<State>, who: seq<nat>, n: nat)
    requires IsRun(run, who) && n < |who|
    ensures run[n].isize <= run[n + 1].isize && |run[n].dat| <= |run[n + 1].dat|
  {
    hide Inv, Exec, Init, Enabled, Room, Onwards;
    RunInv(run, who, n);
    FilesBounded(run, who, n);
    var s, t, p := run[n], run[n + 1], who[n];
    assert Step(s, t, p);
    if p in s.procs && Enabled(s, p) && t == Exec(s, p) {
      EnabledBusy(s, p);
      assert Kept(s, p);
      ExecSizes(s, p);
    }
  }

  predicate CallInside(s: State, c: Call) { c.Ended? ==> EndsInside(s, Failed(c.why)) }

  predicate AllInside(s: State, cs: seq<Call>) { forall i :: 0 <= i < |cs| ==> CallInside(s, cs[i]) }

  lemma InsideLater(s: State, t: State, cs: seq<Call>)
    requires s.isize <= t.isize && |s.dat| <= |t.dat| && AllInside(s, cs)
    ensures AllInside(t, cs)
  {
  }

  lemma InsideNow(s: State, p: nat)
    requires AllKept(s) && Returns(s, p)
    ensures CallInside(s, CallOf(s.procs[p]))
  {
    assert Kept(s, p);
  }

  /** A call that ended its process did so on an offset inside the files: its data is there,
      or its record is. */
  lemma {:induction false} EndedInside(run: seq<State>, who: seq<nat>, n: nat)
    requires IsRun(run, who) && n <= |who|
    ensures AllInside(run[n], Calls(run, who, n))
  {
    hide Step, Init, Room, AllKept, CallInside, CallOf, Returns;
    if n > 0 {
      EndedInside(run, who, n - 1);
      StepBigger(run, who, n - 1);
      FilesBounded(run, who, n - 1);
      var s, p := run[n - 1], who[n - 1];
      if Returns(s, p) { InsideNow(s, p); }
      assert AllInside(s, Calls(run, who, n));
      InsideLater(s, run[n], Calls(run, who, n));
    }
  }

  // -- When no call ends its process -------------------------------------------------------

  /** The first `n` steps begin modest calls only. */
  predicate ModestRun(run: seq<State>, who: seq<nat>, n: nat)
    requires |run| == |who| + 1 && n <= |who|
  {
    forall i {:trigger Begins(run[i], who[i])} :: 0 <= i < n && Begins(run[i], who[i]) ==>
      who[i] in run[i + 1].procs && Modest(run[i + 1].procs[who[i]].op)
  }

  ghost predicate AllModest(s: State) {
    Plain(s.abs) && forall p {:trigger s.procs[p]} :: p in s.procs ==> Modest(s.procs[p].op)
  }

  lemma {:induction false} RunModest(run: seq<State>, who: seq<nat>, n: nat)
    requires IsRun(run, who) && n <= |who| && ModestRun(run, who, n)
    ensures AllModest(run[n])
  {
    hide Inv, Exec, Enabled, Modest;
    if n > 0 {
      RunModest(run, who, n - 1);
      RunInv(run, who, n - 1);
      var s, t, p := run[n - 1], run[n], who[n - 1];
      assert Step(s, t, p);
      if p in s.procs && Enabled(s, p) && t == Exec(s, p) {
        EnabledBusy(s, p);
        ExecMoves(s, p);
        ExecModest(s, t, p);
      } else {
        assert Begins(s, p);
      }
    }
  }

  lemma ExecModest(s: State, t: State, p: nat)
    requires AllModest(s) && p in s.procs && Moves(s, t, p)
    ensures AllModest(t)
  {
    hide LenOk;
    forall q | q in t.procs ensures Modest(t.procs[q].op) { assert q != p ==> q in s.procs; }
  }

  lemma NoneFails(run: seq<State>, who: seq<nat>, n: nat, p: nat)
    requires IsRun(run, who) && n <= |who| && ModestRun(run, who, n) && p in run[n].procs
    requires BASE + StoresBegun(run, who, n) * REC_MAX <= PTR_MAX
    ensures !run[n].procs[p].pc.Failed?
  {
    RunInv(run, who, n);
    RunModest(run, who, n);
    FilesBounded(run, who, n);
    hide IsRun, ModestRun, StoresBegun;
    var s, m := run[n], StoresBegun(run, who, n);
    if s.procs[p].pc.Failed? { Fails(s, p, m); }
  }

  lemma Fails(s: State, p: nat, n: nat)
    requires Inv(s) && AllModest(s) && AllKept(s) && Room(s, n) && p in s.procs && BASE + n * REC_MAX <= PTR_MAX
    ensures !s.procs[p].pc.Failed?
  {
    var Proc(op, pc) := s.procs[p];
    if !pc.Failed? { return; }
    assert ProcOk(s, p) && Kept(s, p);
    hide SlotOf, BodyLenOk, ToIdx, ToDat, LenOk;
    match pc.why
    case Unreadable(_) =>
      BadKey(s, p);
      PlainUnblocked(s.abs, op.key);
    case TooLong(doff) =>
      ModestFits(Layout(BASE, doff, multiset{}, map[]), op.key, op.data, n);
      assert false;
    case TooFar(off) =>
      assert false;
  }

  lemma DoneReturned(proc: Proc)
    requires proc.pc.Done?
    ensures CallOf(proc).Returned?
  {
  }

  lemma {:induction false} AllReturn(run: seq<State>, who: seq<nat>, n: nat)
    requires IsRun(run, who) && n <= |who| && ModestRun(run, who, n)
    requires BASE + StoresBegun(run, who, n) * REC_MAX <= PTR_MAX
    ensures forall i :: 0 <= i < |Calls(run, who, n)| ==> Calls(run, who, n)[i].Returned?
  {
    hide Step, Init, Modest, CallOf;
    if n > 0 {
      AllReturn(run, who, n - 1);
      var s, p := run[n - 1], who[n - 1];
      if Returns(s, p) {
        NoneFails(run, who, n - 1, p);
        DoneReturned(s.procs[p]);
      }
    }
  }

  /** An interleaving on a new database of any calls with keys of 1 to KEY_MAX bytes without a
      separator and data of an allowed length, at most (PTR_MAX - BASE) / REC_MAX of them
      stores: every call that is over returned, and the returns and the contents are those of
      the plain map, called in the order of the returns. */
  lemma ModestInterleavings(run: seq<State>, who: seq<nat>, n: nat)
    requires IsRun(run, who) && n <= |who| && ModestRun(run, who, n)
    requires BASE + StoresBegun(run, who, n) * REC_MAX <= PTR_MAX
    ensures var cs := Calls(run, who, n);
            && run[n].abs == SpecRun(map[], OpsOf(cs)).0 && Answers(OpsOf(cs), SpecRun(map[], OpsOf(cs)).1)
            && forall i :: 0 <= i < |cs| ==> cs[i] == Returned(OpsOf(cs)[i], SpecRun(map[], OpsOf(cs)).1[i])
  {
    AllReturn(run, who, n);
    Serializable(run, who, n);
    hide IsRun, ModestRun, Calls, Replay, Answers;
    ReplayIsMap(Calls(run, who, n));
  }
}

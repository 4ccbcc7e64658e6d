/** db.c run by any number of processes: every lock, unlock, read and write of db_fetch,
    db_delete and db_store is one step, and the steps of different processes interleave
    freely. The physical state is the pointer fields, the index records, the data file
    and the lock table; `lists`, `home`, `stale`, `loc` and `abs` are history that no
    step reads. */
module DbProcs {
  import opened Ascii
  import opened DbFormat
  import opened Lists
  import opened DbLinks
  import opened DbBytes
  import opened DbSpec

  // -- Locks ---------------------------------------------------------------------------

  /** Lock `i < SLOTS` is the first byte of pointer slot `i` (0: the free list); the two
      others are the append locks of the index and the data file. */
  const LIDX := SLOTS
  const LDAT := SLOTS + 1

  datatype Range = Range(index: bool, first: nat, bounded: bool, last: nat)

  /** The byte range that each lock covers; an append lock runs to the end of its file. */
  function RangeOf(lock: nat): Range {
    if lock < SLOTS then Range(true, Slot(lock), true, Slot(lock))
    else if lock == LIDX then Range(true, SLOTS * PTR_SZ + 1, false, 0)
    else Range(false, 0, false, 0)
  }

  predicate Overlap(a: Range, b: Range) {
    && a.index == b.index
    && (a.bounded ==> b.first <= a.last)
    && (b.bounded ==> a.first <= b.last)
  }

  // -- Processes -----------------------------------------------------------------------

  /** Where a process is in its call; the fields are the C locals that are live there,
      and `j` is the position of the cursor in its list. */
  datatype Pc =
    | Idle
    | WantChain
    | ReadHead
    | Walk(off: nat, fld: nat, j: nat)
    | Got(off: nat, fld: nat, j: nat, save: nat)
    | Miss
    // _db_dodelete
    | DelLock(off: nat, fld: nat, j: nat, save: nat)
    | DelDat(off: nat, fld: nat, j: nat, save: nat)
    | DelRead(off: nat, fld: nat, j: nat, save: nat)
    | DelIdx(off: nat, fld: nat, j: nat, save: nat, freeptr: nat)
    | DelHead(off: nat, fld: nat, j: nat, save: nat)
    | DelFix(off: nat, fld: nat, j: nat, save: nat)
    | DelUnlock
    // db_store, new record; `again` after a deletion
    | NewHead(again: bool)
    // _db_findfree
    | FfLock(ptr: nat)
    | FfHead(ptr: nat)
    | FfWalk(ptr: nat, off: nat, fld: nat, j: nat)
    | FfTake(ptr: nat, off: nat, fld: nat, j: nat, save: nat)
    | FfUnlock(ptr: nat, got: bool, off: nat)
    | FillDat(ptr: nat, off: nat)
    | FillIdx(ptr: nat, off: nat)
    // _db_writedat and _db_writeidx at the end of the file
    | AppLockDat(ptr: nat)
    | AppSeekDat(ptr: nat)
    | AppDat(ptr: nat, doff: nat)
    | AppUnlockDat(ptr: nat, doff: nat)
    | AppLockIdx(ptr: nat, doff: nat)
    | AppSeekIdx(ptr: nat, doff: nat)
    | AppIdx(ptr: nat, doff: nat, off: nat)
    | AppUnlockIdx(ptr: nat, off: nat)
    | Link(ptr: nat, off: nat)
    | Repl(off: nat)
    | Done(ret: Ret)
    // err_dump or err_quit: the process is about to end
    | Failed(why: Why)

  /** A record on its chain has a separator in its key; the record it was to append, with
      its data at `doff`, would be too short or too long; the record it did append at `off`
      lies past what a pointer can hold. */
  datatype Why = Unreadable(off: nat) | TooLong(doff: nat) | TooFar(off: nat)

  datatype Proc = Proc(op: Op, pc: Pc)

  datatype State = State(
    links: Links, es: map<nat, Entry>, dat: bytes, isize: nat,
    w: map<nat, nat>, rd: map<nat, set<nat>>,
    procs: map<nat, Proc>,
    stale: map<nat, nat>, loc: map<CString, nat>, abs: Contents)

  function Readers(s: State, lock: nat): set<nat> { if lock in s.rd then s.rd[lock] else {} }

  // -- The primitive actions ---------------------------------------------------------------

  function Goto(s: State, p: nat, op: Op, pc: Pc): (t: State)
    ensures t.abs == s.abs && t.loc == s.loc && t.links == s.links && t.procs == s.procs[p := Proc(op, pc)]
    ensures t.dat == s.dat && t.isize == s.isize
  {
    s.(procs := s.procs[p := Proc(op, pc)])
  }

  predicate CanWriteLock(s: State, lock: nat) { lock !in s.w && Readers(s, lock) == {} }

  function WriteLock(s: State, p: nat, lock: nat): (t: State)
    ensures t.abs == s.abs && t.loc == s.loc && t.links == s.links && t.procs == s.procs
    ensures t.dat == s.dat && t.isize == s.isize
  {
    s.(w := s.w[lock := p])
  }

  function ReadLock(s: State, p: nat, lock: nat): (t: State)
    ensures t.abs == s.abs && t.loc == s.loc && t.links == s.links && t.procs == s.procs
    ensures t.dat == s.dat && t.isize == s.isize
  {
    s.(rd := s.rd[lock := Readers(s, lock) + {p}])
  }

  /** un_lock: the process loses every lock it holds on any byte of the range. */
  function Unlock(s: State, p: nat, lock: nat): (t: State)
    ensures t.abs == s.abs && t.loc == s.loc && t.links == s.links && t.procs == s.procs
    ensures t.dat == s.dat && t.isize == s.isize
  {
    s.(w := map l | l in s.w && !(s.w[l] == p && Overlap(RangeOf(l), RangeOf(lock))) :: s.w[l],
       rd := map l | l in s.rd ::
               if Overlap(RangeOf(l), RangeOf(lock)) then s.rd[l] - {p} else s.rd[l])
  }

  function GetPtr(s: State, fld: nat): nat { if fld in s.links.ptrs then s.links.ptrs[fld] else 0 }

  function SetPtr(s: State, fld: nat, v: nat): (t: State)
    ensures t.abs == s.abs && t.loc == s.loc && t.procs == s.procs
    ensures t.dat == s.dat && t.isize == s.isize
  {
    s.(links := s.links.(ptrs := s.links.ptrs[fld := v]))
  }

  function SetDat(s: State, off: nat, data: bytes): (t: State)
    ensures t.abs == s.abs && t.loc == s.loc && t.links == s.links && t.procs == s.procs
    ensures t.isize == s.isize
  {
    if off <= |s.dat| then s.(dat := Write(s.dat, off, data)) else s
  }

  function GetDat(s: State, e: Entry): CString {
    if 0 < e.datlen && e.datoff + e.datlen <= |s.dat|
    then CStr(s.dat[e.datoff..e.datoff + e.datlen - 1]) else []
  }

  /** History: a record leaves list `i`, or joins it at the front. */
  function Removed(s: State, i: nat, j: nat, o: nat): (t: State)
    ensures t.abs == s.abs && t.loc == s.loc && t.procs == s.procs
    ensures t.dat == s.dat && t.isize == s.isize
  {
    if i < |s.links.lists| && j < |s.links.lists[i]| then
      s.(links := s.links.(lists := s.links.lists[i := Without(s.links.lists[i], j)], home := s.links.home[o := LIMBO]))
    else s
  }

  function Joined(s: State, i: nat, o: nat): (t: State)
    ensures t.abs == s.abs && t.loc == s.loc && t.procs == s.procs
    ensures t.dat == s.dat && t.isize == s.isize
  {
    if i < |s.links.lists| then
      s.(links := s.links.(lists := s.links.lists[i := [o] + s.links.lists[i]], home := s.links.home[o := i]))
    else s
  }

  // -- One step ------------------------------------------------------------------------

  /** Only lock requests wait. */
  predicate Enabled(s: State, p: nat)
    requires p in s.procs
  {
    var op := s.procs[p].op;
    match s.procs[p].pc
    case Idle => false
    case WantChain => if op.OpFetch? then SlotOf(op.key) !in s.w else CanWriteLock(s, SlotOf(op.key))
    case DelLock(_, _, _, _) => CanWriteLock(s, 0)
    case FfLock(_) => CanWriteLock(s, 0)
    case AppLockDat(_) => CanWriteLock(s, LDAT)
    case AppLockIdx(_, doff) => CanWriteLock(s, LIDX) || !BodyLenOk(op.key, doff, DataLen(op))
    case _ => true
  }

  function DataLen(op: Op): nat { if op.OpStore? then |op.data| + 1 else 0 }

  function NewData(op: Op): CString { if op.OpStore? then op.data else [] }

  function AfterFind(s: State, op: Op, pc: Pc): Pc
    requires pc.Got? || pc.Miss?
  {
    match op
    case OpFetch(_) =>
      if pc.Got? && pc.off in s.es then Done(RetData(Found(GetDat(s, s.es[pc.off])))) else Done(RetData(NotFound))
    case OpDelete(_) =>
      if pc.Got? then DelLock(pc.off, pc.fld, pc.j, pc.save) else Done(RetCode(-1))
    case OpStore(_, _, flag) =>
      if pc.Miss? then if flag == DB_REPLACE then Done(RetCode(-1)) else NewHead(false)
      else if flag == DB_INSERT then Done(RetCode(1))
      else if pc.off in s.es && s.es[pc.off].datlen == DataLen(op) then Repl(pc.off)
      else DelLock(pc.off, pc.fld, pc.j, pc.save)
  }

  /** _db_find_and_lock, what the call does next, and its final unlock. When the process ends
      instead, the kernel drops its lock; its number may then stand for another process. */
  function ExecFind(s: State, p: nat, op: Op, pc: Pc): (t: State)
    ensures !pc.Done? && !pc.Failed? ==> t.abs == s.abs
  {
    var key, c := op.key, SlotOf(op.key);
    match pc
    case WantChain =>
      Goto(if op.OpFetch? then ReadLock(s, p, c) else WriteLock(s, p, c), p, op, ReadHead)
    case ReadHead => Goto(s, p, op, Walk(GetPtr(s, Slot(c)), Slot(c), 0))
    case Walk(off, fld, j) =>
      if off == 0 || off !in s.es then Goto(s, p, op, Miss)
      else if SEP in s.es[off].key then Goto(s, p, op, Failed(Unreadable(off)))
      else if s.es[off].key == key then Goto(s, p, op, Got(off, fld, j, GetPtr(s, off)))
      else Goto(s, p, op, Walk(GetPtr(s, off), off, j + 1))
    case Got(_, _, _, _) => Goto(s, p, op, AfterFind(s, op, pc))
    case Miss => Goto(s, p, op, AfterFind(s, op, pc))
    case Done(_) => Goto(Unlock(s, p, c).(abs := SpecStep(s.abs, op).0), p, op, Idle)
    case Failed(why) => Goto(Unlock(s, p, c).(abs := if why.Unreadable? then s.abs else s.abs - {key}), p, op, Idle)
    case _ => s
  }

  /** _db_dodelete. */
  function ExecDelete(s: State, p: nat, op: Op, pc: Pc): (t: State)
    ensures t.abs == s.abs
  {
    var key, c := op.key, SlotOf(op.key);
    match pc
    case DelLock(off, fld, j, save) => Goto(WriteLock(s, p, 0), p, op, DelDat(off, fld, j, save))
    case DelDat(off, fld, j, save) => Goto(DoDelDat(s, off), p, op, DelRead(off, fld, j, save))
    case DelRead(off, fld, j, save) => Goto(s, p, op, DelIdx(off, fld, j, save, GetPtr(s, 0)))
    case DelIdx(off, fld, j, save, freeptr) => Goto(DoDelIdx(s, key, c, off, j, freeptr), p, op,
        DelHead(off, fld, j, save))
    case DelHead(off, fld, j, save) => Goto(Joined(SetPtr(s, 0, off), 0, off), p, op, DelFix(off, fld, j, save))
    case DelFix(_, fld, _, save) => Goto(SetPtr(s, fld, save).(stale := s.stale - {c}), p, op, DelUnlock)
    case DelUnlock => Goto(Unlock(s, p, 0), p, op, if op.OpDelete? then Done(RetCode(0)) else NewHead(true))
    case _ => s
  }

  /** db_store on a new or reused record, with _db_findfree, and on same-size data. */
  function ExecStore(s: State, p: nat, op: Op, pc: Pc): (t: State)
    ensures t.abs == s.abs
  {
    var key, c := op.key, SlotOf(op.key);
    match pc
    case NewHead(again) => Goto(s, p, op, if again then AppLockDat(GetPtr(s, Slot(c))) else FfLock(GetPtr(s, Slot(c))))
    case FfLock(ptr) => Goto(WriteLock(s, p, 0), p, op, FfHead(ptr))
    case FfHead(ptr) => Goto(s, p, op, FfWalk(ptr, GetPtr(s, 0), 0, 0))
    case FfWalk(ptr, off, fld, j) =>
      if off == 0 || off !in s.es then Goto(s, p, op, FfUnlock(ptr, false, 0))
      else if |s.es[off].key| == |key| && s.es[off].datlen == DataLen(op) then
        Goto(s, p, op, FfTake(ptr, off, fld, j, GetPtr(s, off)))
      else Goto(s, p, op, FfWalk(ptr, GetPtr(s, off), off, j + 1))
    case FfTake(ptr, off, fld, j, save) => Goto(Removed(SetPtr(s, fld, save), 0, j, off), p, op,
        FfUnlock(ptr, true, off))
    case FfUnlock(ptr, got, off) => Goto(Unlock(s, p, 0), p, op, if got then FillDat(ptr, off) else AppLockDat(ptr))
    case FillDat(ptr, off) => Goto(DoRepl(s, op, off), p, op, FillIdx(ptr, off))
    case FillIdx(ptr, off) => Goto(DoFillIdx(s, key, off, ptr), p, op, Link(ptr, off))
    case Link(_, off) => if off > PTR_MAX then Goto(s, p, op, Failed(TooFar(off)))
        else Goto(DoLink(s, key, c, off), p, op, Done(RetCode(0)))
    case Repl(off) => Goto(DoRepl(s, op, off), p, op, Done(RetCode(0)))
    case _ => s
  }

  /** _db_writedat and _db_writeidx at the end of the files. */
  function ExecAppend(s: State, p: nat, op: Op, pc: Pc): (t: State)
    ensures t.abs == s.abs
  {
    var key := op.key;
    match pc
    case AppLockDat(ptr) => Goto(WriteLock(s, p, LDAT), p, op, AppSeekDat(ptr))
    case AppSeekDat(ptr) => Goto(s, p, op, AppDat(ptr, |s.dat|))
    case AppDat(ptr, doff) => Goto(SetDat(s, doff, NewData(op) + [NEWLINE]), p, op, AppUnlockDat(ptr, doff))
    case AppUnlockDat(ptr, doff) => Goto(Unlock(s, p, LDAT), p, op, AppLockIdx(ptr, doff))
    case AppLockIdx(ptr, doff) =>
      if BodyLenOk(key, doff, DataLen(op)) then Goto(WriteLock(s, p, LIDX), p, op, AppSeekIdx(ptr, doff))
      else Goto(s, p, op, Failed(TooLong(doff)))
    case AppSeekIdx(ptr, doff) => Goto(s, p, op, AppIdx(ptr, doff, s.isize))
    case AppIdx(ptr, doff, off) => Goto(DoAppIdx(s, Entry(key, doff, DataLen(op)), off, ptr), p, op,
        AppUnlockIdx(ptr, off))
    case AppUnlockIdx(ptr, off) => Goto(Unlock(s, p, LIDX), p, op, Link(ptr, off))
    case _ => s
  }

  predicate InDelete(pc: Pc) {
    pc.DelLock? || pc.DelDat? || pc.DelRead? || pc.DelIdx? || pc.DelHead? || pc.DelFix? || pc.DelUnlock?
  }

  predicate InStore(pc: Pc) {
    || pc.NewHead? || pc.FfLock? || pc.FfHead? || pc.FfWalk? || pc.FfTake? || pc.FfUnlock?
    || pc.FillDat? || pc.FillIdx? || pc.Link? || pc.Repl?
  }

  predicate InAppend(pc: Pc) {
    || pc.AppLockDat? || pc.AppSeekDat? || pc.AppDat? || pc.AppUnlockDat?
    || pc.AppLockIdx? || pc.AppSeekIdx? || pc.AppIdx? || pc.AppUnlockIdx?
  }

  function Exec(s: State, p: nat): State
    requires p in s.procs
  {
    var Proc(op, pc) := s.procs[p];
    if InDelete(pc) then ExecDelete(s, p, op, pc)
    else if InStore(pc) then ExecStore(s, p, op, pc)
    else if InAppend(pc) then ExecAppend(s, p, op, pc)
    else ExecFind(s, p, op, pc)
  }

  /** The data becomes all blanks. */
  function DoDelDat(s: State, off: nat): (t: State)
    ensures t.abs == s.abs && t.loc == s.loc && t.links == s.links && t.procs == s.procs
    ensures t.isize == s.isize
  {
    if off in s.es && s.es[off].datlen > 0
    then SetDat(s, s.es[off].datoff, Repeat(SPACE, s.es[off].datlen - 1) + [NEWLINE]) else s
  }

  /** The record turns blank and points into the free list; from here the key is gone and
      the pointer at `j` of chain `c` is out of date. */
  function DoDelIdx(s: State, key: CString, c: nat, off: nat, j: nat, freeptr: nat): (t: State)
    ensures t.abs == s.abs && t.procs == s.procs
    ensures t.dat == s.dat && t.isize == s.isize
  {
    if off in s.es then
      var e := s.es[off].(key := Repeat(SPACE, |s.es[off].key|));
      Removed(SetPtr(s, off, freeptr), c, j, off).(es := s.es[off := e], loc := s.loc - {key}, stale := s.stale[c := j])
    else s
  }

  function DoFillIdx(s: State, key: CString, off: nat, ptr: nat): (t: State)
    ensures t.abs == s.abs && t.procs == s.procs
    ensures t.dat == s.dat && t.isize == s.isize
  {
    if off in s.es then SetPtr(s, off, ptr).(es := s.es[off := s.es[off].(key := key)]) else s
  }

  function DoAppIdx(s: State, e: Entry, off: nat, ptr: nat): (t: State)
    ensures t.abs == s.abs && t.procs == s.procs
  {
    s.(links := Place(s.links, off, ptr), es := s.es[off := e], isize := off + Size(e))
  }

  /** The record becomes the first of its chain, and the one its key names. */
  function DoLink(s: State, key: CString, c: nat, off: nat): (t: State)
    ensures t.abs == s.abs && t.procs == s.procs
    ensures t.dat == s.dat && t.isize == s.isize
  {
    Joined(SetPtr(s, Slot(c), off), c, off).(loc := s.loc[key := off])
  }

  function DoRepl(s: State, op: Op, off: nat): (t: State)
    ensures t.abs == s.abs && t.loc == s.loc && t.links == s.links && t.procs == s.procs
    ensures t.isize == s.isize
  {
    if off in s.es then SetDat(s, s.es[off].datoff, NewData(op) + [NEWLINE]) else s
  }

  // -- Runs ----------------------------------------------------------------------------

  /** Calls with a flag or data length that db_store refuses before it locks are left out. */
  predicate Callable(op: Op) {
    op.OpStore? ==>
      && DATLEN_MIN <= |op.data| + 1 <= DATLEN_MAX
      && (op.flag == DB_INSERT || op.flag == DB_REPLACE || op.flag == DB_STORE)
  }

  /** A process with no call in progress, or a new process, makes a call. */
  function Begin(s: State, p: nat, op: Op): State { s.(procs := s.procs[p := Proc(op, WantChain)]) }

  predicate Step(s: State, t: State, p: nat) {
    || (p in s.procs && Enabled(s, p) && t == Exec(s, p))
    || ((p in s.procs ==> s.procs[p].pc.Idle?) && t.procs.Keys == s.procs.Keys + {p}
        && Callable(t.procs[p].op) && t == Begin(s, p, t.procs[p].op))
  }

  /** A new database and no processes. */
  predicate Init(s: State) {
    && s.links == Links(map i | 0 <= i < SLOTS :: Slot(i) := 0, seq(SLOTS, _ => []), map[])
    && s.es == map[] && s.dat == [] && s.isize == BASE
    && s.w == map[] && s.rd == map[] && s.procs == map[]
    && s.stale == map[] && s.loc == map[] && s.abs == map[]
  }

  /** An interleaving: `who[i]` takes the step from `run[i]` to `run[i + 1]`. */
  predicate IsRun(run: seq<State>, who: seq<nat>) {
    && |run| == |who| + 1
    && Init(run[0])
    && forall i :: 0 <= i < |who| ==> Step(run[i], run[i + 1], who[i])
  }
}

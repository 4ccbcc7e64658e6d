/** How large the two files are, what records wait on the free list and what records no list
    leads to: enough to say, call by call, when a call returns as on the plain map, when it
    ends the process instead, and what it then leaves behind. */
module DbLayout {
  import opened Ascii
  import opened DbFormat
  import opened DbSpec

  /** `free` holds the key length and data length of each record on the free list, `orphans`
      the nonblank keys of the records on no list, by their offsets. */
  datatype Layout = Layout(isize: nat, dsize: nat, free: multiset<(nat, nat)>, orphans: map<nat, CString>)

  /** A new database. */
  const NEW := Layout(BASE, 0, multiset{}, map[])

  predicate LenOk(data: CString) { DATLEN_MIN <= |data| + 1 <= DATLEN_MAX }

  predicate FlagOk(flag: int) { flag == DB_INSERT || flag == DB_REPLACE || flag == DB_STORE }

  /** A key with a separator is in the way: reading its record ends the process, and every
      search of its chain reads it. */
  predicate Blocked(keys: set<CString>, key: CString) {
    exists k :: k in keys && SEP in k && SlotOf(k) == SlotOf(key)
  }

  /** The store has to append: it replaces data of another length, or it adds a key and no
      free record has exactly the sizes it needs. */
  predicate Appends(l: Layout, m: Contents, key: CString, data: CString, flag: int) {
    StoreRc(m, key, flag) == 0 && if key in m then |data| != |m[key]| else (|key|, |data| + 1) !in l.free
  }

  /** An appended record has a length and an offset that the index format can hold. */
  predicate RoomFor(l: Layout, key: CString, data: CString) {
    BodyLenOk(key, l.dsize, |data| + 1) && l.isize <= PTR_MAX
  }

  /** Exactly when db_store ends in err_dump or err_quit. */
  predicate StoreAborts(l: Layout, m: Contents, key: CString, data: CString, flag: int) {
    FlagOk(flag)
    && (!LenOk(data) || Blocked(m.Keys, key) || (Appends(l, m, key, data, flag) && !RoomFor(l, key, data)))
  }

  /** An aborting store gets past its length check and its search. */
  predicate Underway(m: Contents, key: CString, data: CString) { LenOk(data) && !Blocked(m.Keys, key) }

  /** Data of no byte, or of more than 1023, ends the process and changes nothing; so does a bad
      flag, by returning -1. */
  lemma StoreLimits(l: Layout, m: Contents, key: CString, data: CString, flag: int)
    ensures 1 <= flag <= 3 && (|data| == 0 || |data| > 1023) ==>
              StoreAborts(l, m, key, data, flag) && AbortMap(m, key, data) == m && AfterAbort(l, m, key, data) == l
    ensures !(1 <= flag <= 3) ==>
              && !StoreAborts(l, m, key, data, flag) && StoreRc(m, key, flag) == -1
              && StoreMap(m, key, data, flag) == m && AfterStore(l, m, key, data, flag) == l
  {
    hide Blocked, BodyLenOk;
  }

  /** What an aborted store leaves of the map: it has deleted the record that it was to
      replace, unless it never got that far. */
  function AbortMap(m: Contents, key: CString, data: CString): Contents {
    if Underway(m, key, data) then m - {key} else m
  }

  function Freed(m: Contents, key: CString): multiset<(nat, nat)> {
    if key in m then multiset{(|key|, |m[key]| + 1)} else multiset{}
  }

  function AfterDelete(l: Layout, m: Contents, key: CString): Layout { l.(free := l.free + Freed(m, key)) }

  function Grown(l: Layout, key: CString, data: CString): Layout {
    l.(isize := l.isize + RecSize(Rec(0, key, l.dsize, |data| + 1)), dsize := l.dsize + |data| + 1)
  }

  function AfterStore(l: Layout, m: Contents, key: CString, data: CString, flag: int): Layout {
    if StoreRc(m, key, flag) != 0 then l
    else if Appends(l, m, key, data, flag) then Grown(AfterDelete(l, m, key), key, data)
    else if key in m then l
    else l.(free := l.free - multiset{(|key|, |data| + 1)})
  }

  /** An append that aborts has written its data; it has written its index record, too, if
      that had an allowed length, and no pointer leads there. */
  function Stranded(l: Layout, key: CString, data: CString): Layout {
    if !BodyLenOk(key, l.dsize, |data| + 1) then l.(dsize := l.dsize + |data| + 1)
    else if Blank(key) then Grown(l, key, data)
    else Grown(l, key, data).(orphans := l.orphans[l.isize := key])
  }

  function AfterAbort(l: Layout, m: Contents, key: CString, data: CString): Layout {
    if Underway(m, key, data) then Stranded(AfterDelete(l, m, key), key, data) else l
  }

  /** The cases of db_store on an absent key. */
  lemma AbsentKey(l: Layout, m: Contents, key: CString, data: CString, flag: int)
    requires key !in m && FlagOk(flag) && Underway(m, key, data)
    ensures AbortMap(m, key, data) == m && AfterAbort(l, m, key, data) == Stranded(l, key, data)
    ensures flag == DB_REPLACE ==>
              StoreRc(m, key, flag) == -1 && !StoreAborts(l, m, key, data, flag)
              && StoreMap(m, key, data, flag) == m && AfterStore(l, m, key, data, flag) == l
    ensures flag != DB_REPLACE ==>
              && StoreRc(m, key, flag) == 0 && StoreMap(m, key, data, flag) == m[key := data]
              && (StoreAborts(l, m, key, data, flag) <==> (|key|, |data| + 1) !in l.free && !RoomFor(l, key, data))
              && AfterStore(l, m, key, data, flag) ==
                 if (|key|, |data| + 1) in l.free then l.(free := l.free - multiset{(|key|, |data| + 1)})
                 else Grown(l, key, data)
  {
    hide RoomFor, RecSize, Blocked, BodyLenOk;
    assert l.free + multiset{} == l.free;
    assert AfterDelete(l, m, key) == l;
  }

  // -- Whole sequences of calls ----------------------------------------------------------

  datatype Result = Result(layout: Layout, m: Contents, outs: seq<Ret>, aborted: bool)

  predicate Aborts(l: Layout, m: Contents, op: Op) {
    if op.OpStore? then StoreAborts(l, m, op.key, op.data, op.flag) else Blocked(m.Keys, op.key)
  }

  function After(l: Layout, m: Contents, op: Op): Layout {
    match op
    case OpFetch(_) => l
    case OpDelete(key) => AfterDelete(l, m, key)
    case OpStore(key, data, flag) => AfterStore(l, m, key, data, flag)
  }

  function Left(l: Layout, m: Contents, op: Op): Layout {
    if op.OpStore? then AfterAbort(l, m, op.key, op.data) else l
  }

  function LeftMap(m: Contents, op: Op): Contents { if op.OpStore? then AbortMap(m, op.key, op.data) else m }

  /** One more call, unless the process has ended. */
  function Next(r: Result, op: Op): Result {
    if r.aborted then r
    else if Aborts(r.layout, r.m, op) then Result(Left(r.layout, r.m, op), LeftMap(r.m, op), r.outs, true)
    else Result(After(r.layout, r.m, op), SpecStep(r.m, op).0, r.outs + [SpecStep(r.m, op).1], false)
  }

  function RunAll(l: Layout, m: Contents, ops: seq<Op>): Result {
    if ops == [] then Result(l, m, [], false) else Next(RunAll(l, m, ops[..|ops| - 1]), ops[|ops| - 1])
  }

  /** Up to the abort, if there is one, the calls return what the plain map returns; without
      one the database ends up as the map does, and with one as that call leaves it. */
  lemma {:induction false} RunIsMap(l: Layout, m: Contents, ops: seq<Op>)
    ensures var r := RunAll(l, m, ops);
            && |r.outs| <= |ops| && (r.aborted <==> |r.outs| < |ops|)
            && r.outs == SpecRun(m, ops[..|r.outs|]).1
            && (!r.aborted ==> r.m == SpecRun(m, ops).0)
            && var q := RunAll(l, m, ops[..|r.outs|]);
               && !q.aborted && q.m == SpecRun(m, ops[..|r.outs|]).0
               && (r.aborted ==> Aborts(q.layout, q.m, ops[|r.outs|]) && r == Next(q, ops[|r.outs|]))
  {
    hide SpecStep, Aborts, After, Left, LeftMap, SpecRun;
    if ops == [] {
      assert ops[..0] == ops && SpecRun(m, ops) == (m, []) by { SpecNone(m); }
    } else {
      var n := |ops| - 1;
      RunIsMap(l, m, ops[..n]);
      var q := RunAll(l, m, ops[..n]);
      assert ops[..n][..|q.outs|] == ops[..|q.outs|];
      if !q.aborted {
        assert ops[..n][..n] == ops[..n] && ops[..n + 1] == ops;
        SpecMore(m, ops);
      }
    }
  }

  lemma SpecNone(m: Contents)
    ensures SpecRun(m, []) == (m, [])
  {
  }

  lemma SpecMore(m: Contents, ops: seq<Op>)
    requires ops != []
    ensures var n := |ops| - 1;
            var (k, outs) := SpecRun(m, ops[..n]);
            SpecRun(m, ops) == (SpecStep(k, ops[n]).0, outs + [SpecStep(k, ops[n]).1])
  {
  }

  const LETTER: byte := 97

  // -- Keys with a separator -------------------------------------------------------------

  predicate Plain(m: Contents) { forall k :: k in m ==> SEP !in k }

  lemma PlainUnblocked(m: Contents, key: CString)
    requires Plain(m)
    ensures !Blocked(m.Keys, key)
  {
  }

  /** A store that returns 0 blocks its chain exactly when its key has a separator; one that
      returns 1 met no such key. */
  lemma StoreBlocks(l: Layout, m: Contents, key: CString, data: CString, flag: int)
    requires !StoreAborts(l, m, key, data, flag)
    ensures StoreRc(m, key, flag) == 0 ==> (Blocked(StoreMap(m, key, data, flag).Keys, key) <==> SEP in key)
    ensures StoreRc(m, key, flag) == 1 ==> !Blocked(m.Keys, key) && StoreMap(m, key, data, flag) == m
  {
    hide SlotOf, Appends, RoomFor;
    if SEP in key { assert key in m[key := data].Keys; }
  }

  lemma BlockedNext(r: Result, op: Op, key: CString)
    requires Blocked(r.m.Keys, key)
    ensures Blocked(Next(r, op).m.Keys, key)
  {
    hide SlotOf, StoreAborts, Left, After;
    var k :| k in r.m.Keys && SEP in k && SlotOf(k) == SlotOf(key);
    if op.key == k {
      assert Blocked(r.m.Keys, k);
      BlockedCall(r.layout, r.m, op);
    } else {
      assert k in Next(r, op).m.Keys;
    }
  }

  /** On a blocked chain a call aborts before it changes anything, unless db_store returns -1
      for its flag. */
  lemma BlockedCall(l: Layout, m: Contents, op: Op)
    requires Blocked(m.Keys, op.key)
    ensures LeftMap(m, op) == m && Left(l, m, op) == l
    ensures Aborts(l, m, op) <==> op.OpStore? ==> FlagOk(op.flag)
    ensures !Aborts(l, m, op) ==> SpecStep(m, op) == (m, RetCode(-1)) && After(l, m, op) == l
  {
    hide SlotOf, Blocked, Appends, RoomFor;
  }

  lemma {:induction false} BlockedStays(l: Layout, m: Contents, ops: seq<Op>, key: CString)
    requires Blocked(m.Keys, key)
    ensures Blocked(RunAll(l, m, ops).m.Keys, key)
  {
    hide Blocked, Next;
    if ops != [] {
      var n := |ops| - 1;
      BlockedStays(l, m, ops[..n], key);
      BlockedNext(RunAll(l, m, ops[..n]), ops[n], key);
    }
  }

  /** Once a key with a separator is stored, every call on its chain aborts and changes
      nothing, whatever calls come between. */
  lemma SeparatorStops(l: Layout, m: Contents, op: Op, ops: seq<Op>, call: Op)
    requires op.OpStore? && SEP in op.key && !Aborts(l, m, op) && SpecStep(m, op).1 == RetCode(0)
    requires SlotOf(call.key) == SlotOf(op.key) && (call.OpStore? ==> FlagOk(call.flag))
    ensures var r := RunAll(After(l, m, op), SpecStep(m, op).0, ops);
            Aborts(r.layout, r.m, call) && LeftMap(r.m, call) == r.m && Left(r.layout, r.m, call) == r.layout
  {
    var l', m' := After(l, m, op), SpecStep(m, op).0;
    hide SlotOf, RunAll, After;
    assert op.key in m'.Keys;
    BlockedStays(l', m', ops, call.key);
    var r := RunAll(l', m', ops);
    BlockedCall(r.layout, r.m, call);
  }

  /** Such a store is made like any other: on a new database a key of one separator is stored,
      and cannot be fetched. */
  lemma SeparatorStored()
    ensures var key, data: CString := [SEP], [LETTER];
            var op := OpStore(key, data, DB_INSERT);
            !Aborts(NEW, map[], op) && SpecStep(map[], op) == (map[key := data], RetCode(0))
            && Aborts(After(NEW, map[], op), map[key := data], OpFetch(key))
  {
    var key: CString, data: CString := [SEP], [LETTER];
    var op := OpStore(key, data, DB_INSERT);
    DigitsFit(0, 1);
    DigitsFit(2, 1);
    assert Pow10(1) == 10 * Pow10(0);
    assert |Body(key, 0, 2)| == 1 + |Digits(0)| + |Digits(2)| + 3;
    hide Body, SlotOf;
    assert key in map[key := data].Keys;
  }

  // -- Orphans ---------------------------------------------------------------------------

  /** The call, if it aborts, leaves a record with a nonblank key that no list leads to. */
  predicate LeavesOrphan(l: Layout, m: Contents, op: Op) {
    && op.OpStore? && Underway(m, op.key, op.data)
    && BodyLenOk(op.key, l.dsize, |op.data| + 1) && !Blank(op.key)
  }

  /** The run ends in such a call. */
  predicate EndsInOrphan(l: Layout, m: Contents, ops: seq<Op>) {
    var r := RunAll(l, m, ops);
    r.aborted && |r.outs| < |ops|
    && var q := RunAll(l, m, ops[..|r.outs|]);
       LeavesOrphan(q.layout, q.m, ops[|r.outs|])
  }

  /** A run leaves an orphan exactly when it ends in the abort of a store that got past its
      length check and its search, under a nonblank key, with a record of an allowed length. */
  lemma OrphanIff(l: Layout, m: Contents, ops: seq<Op>)
    ensures RunAll(l, m, ops).layout.orphans == map[] <==> l.orphans == map[] && !EndsInOrphan(l, m, ops)
  {
    var r := RunAll(l, m, ops);
    RunIsMap(l, m, ops);
    var n := |r.outs|;
    var q := RunAll(l, m, ops[..n]);
    OrphansKept(l, m, ops[..n]);
    hide RunAll, SpecRun, Blocked, BodyLenOk, Blank, Grown, AfterStore, SpecStep;
    if r.aborted {
      OrphanLeft(q.layout, q.m, ops[n]);
    } else {
      assert ops[..n] == ops;
    }
  }

  lemma OrphanLeft(l: Layout, m: Contents, op: Op)
    ensures Left(l, m, op).orphans == map[] <==> l.orphans == map[] && !LeavesOrphan(l, m, op)
  {
    hide Blocked, BodyLenOk, Blank, RecSize;
    if LeavesOrphan(l, m, op) {
      assert l.isize in l.orphans[l.isize := op.key];
      assert Left(l, m, op).orphans == l.orphans[l.isize := op.key];
    }
  }

  lemma {:induction false} OrphansKept(l: Layout, m: Contents, ops: seq<Op>)
    requires !RunAll(l, m, ops).aborted
    ensures RunAll(l, m, ops).layout.orphans == l.orphans
  {
    hide SpecStep, Aborts;
    if ops != [] { OrphansKept(l, m, ops[..|ops| - 1]); }
  }

  /** A scan reads every record, so it ends the process if any has a separator in its key. */
  predicate ScanDumps(l: Layout, m: Contents) {
    (exists k :: k in m && SEP in k) || exists o :: o in l.orphans && SEP in l.orphans[o]
  }

  /** Stores under one key, of one and two bytes of data in turn: each appends. */
  function Flip(i: nat): Op { OpStore([LETTER], Repeat(LETTER, 1 + i % 2), DB_STORE) }

  function Flips(n: nat): seq<Op> { seq(n, (i: nat) => Flip(i)) }

  lemma FlipsMore(n: nat)
    ensures |Flips(n + 1)| == n + 1 && Flips(n + 1)[n] == Flip(n) && Flips(n + 1)[..n] == Flips(n)
  {
  }

  lemma FlipFits(l: Layout, n: nat)
    requires l.dsize <= 3 * n && n <= PTR_MAX
    ensures BodyLenOk([LETTER], l.dsize, 2 + n % 2)
  {
    assert Pow10(2) == 100 && Pow10(4) == 10000 && Pow10(6) == 1000000;
    assert Pow10(8) == 100 * Pow10(6);
    DigitsFit(l.dsize, 8);
    DigitsFit(2 + n % 2, 1);
    hide Digits, Pow10;
    assert |Body([LETTER], l.dsize, 2 + n % 2)| == 1 + |Digits(l.dsize)| + |Digits(2 + n % 2)| + 3;
  }

  predicate Flipped(r: Result, n: nat) {
    if r.aborted then r.layout.orphans != map[] && r.m == map[] && !ScanDumps(r.layout, r.m)
    else
      && r.layout.orphans == map[] && r.layout.dsize <= 3 * n && r.layout.isize >= BASE + n
      && r.m == (if n == 0 then map[] else map[[LETTER] := Repeat(LETTER, 1 + (n - 1) % 2)])
      && (if n == 0 then r.layout == NEW else BASE + n - 1 <= PTR_MAX)
  }

  lemma {:induction false} FlipRun(n: nat)
    requires n <= PTR_MAX
    ensures Flipped(RunAll(NEW, map[], Flips(n)), n)
  {
    hide Flips, Flip, Next, Flipped;
    if n > 0 {
      FlipRun(n - 1);
      FlipsMore(n - 1);
      FlipStep(RunAll(NEW, map[], Flips(n - 1)), n - 1);
    } else {
      FlipNone();
    }
  }

  lemma FlipNone()
    ensures Flipped(RunAll(NEW, map[], Flips(0)), 0)
  {
  }

  lemma FlipStep(r: Result, n: nat)
    requires Flipped(r, n) && n < PTR_MAX
    ensures Flipped(Next(r, Flip(n)), n + 1)
  {
    var key: CString, data: CString := [LETTER], Repeat(LETTER, 1 + n % 2);
    var op := Flip(n);
    if !r.aborted {
      FlipFits(r.layout, n);
      var l, m := r.layout, r.m;
      PlainUnblocked(m, key);
      hide BodyLenOk, Repeat, RecSize, Blocked;
      assert key[0] != SPACE;
      assert Underway(m, key, data) && Appends(l, m, key, data, DB_STORE);
      assert m - {key} == map[] && m[key := data] == map[key := data];
      var q := Next(r, op);
      if q.aborted {
        assert q.layout.orphans == map[l.isize := key];
        assert l.isize in q.layout.orphans;
      } else {
        assert q.layout == Grown(AfterDelete(l, m, key), key, data) && q.m == map[key := data];
      }
    }
  }

  /** On a new database such stores go on until the index passes PTR_MAX; the next one aborts
      and leaves its record behind, which the map does not have. */
  lemma OrphanReached()
    ensures EndsInOrphan(NEW, map[], Flips(PTR_MAX))
    ensures var r := RunAll(NEW, map[], Flips(PTR_MAX)); r.m == map[] && !ScanDumps(r.layout, r.m)
  {
    FlipRun(PTR_MAX);
    hide RunAll, Flips, EndsInOrphan, ScanDumps;
    OrphanIff(NEW, map[], Flips(PTR_MAX));
  }

  // -- A store that loses a record -------------------------------------------------------

  /** A key that just fits an index record. */
  function LongKey(): CString { Repeat(LETTER, IDXLEN_MAX - 5) }

  lemma LongKeyFits(l: Layout, n: nat)
    requires l.isize <= PTR_MAX && l.dsize < 10
    ensures RoomFor(l, LongKey(), Repeat(LETTER, n)) <==> n < 9
  {
    DigitsFit(l.dsize, 1);
    DigitsFit(n + 1, 1);
    assert Pow10(1) == 10 * Pow10(0);
    hide Digits, Pow10;
    var d := Repeat(LETTER, n);
    assert |Body(LongKey(), l.dsize, |d| + 1)| == |LongKey()| + |Digits(l.dsize)| + |Digits(n + 1)| + 3;
  }

  /** Stored with one byte of data, that key is there; a second store of nine bytes under it
      deletes the record, cannot append its own, and aborts: the key is gone. */
  lemma StoreLosesRecord()
    ensures var k, x, y := LongKey(), Repeat(LETTER, 1), Repeat(LETTER, 9);
            var first, second := OpStore(k, x, DB_STORE), OpStore(k, y, DB_STORE);
            var r := RunAll(NEW, map[], [first]);
            var q := RunAll(NEW, map[], [first, second]);
            !r.aborted && r.m == map[k := x] && q.aborted && q.m == map[] && q.outs == r.outs
  {
    var k, x, y := LongKey(), Repeat(LETTER, 1), Repeat(LETTER, 9);
    var first, second := OpStore(k, x, DB_STORE), OpStore(k, y, DB_STORE);
    PlainUnblocked(map[], k);
    PlainUnblocked(map[k := x], k);
    hide RoomFor, RecSize, LongKey, Blocked, BodyLenOk;
    LongKeyFits(NEW, 1);
    assert [first][..0] == [] && [first, second][..1] == [first];
    var r := RunAll(NEW, map[], [first]);
    assert r == Next(RunAll(NEW, map[], []), first);
    assert !r.aborted && r.m == map[k := x] && r.layout == Grown(AfterDelete(NEW, map[], k), k, x);
    LongKeySize();
    LongKeyFits(r.layout, 9);
    assert RunAll(NEW, map[], [first, second]) == Next(r, second);
    assert map[k := x] - {k} == map[];
  }

  lemma LongKeySize()
    ensures RecSize(Rec(0, LongKey(), 0, 2)) <= REC_MAX
  {
    DigitsFit(0, 1);
    DigitsFit(2, 1);
    assert Pow10(1) == 10 * Pow10(0);
    hide Digits, Pow10;
  }

  // -- When no call aborts ---------------------------------------------------------------

  const KEY_MAX := 1000

  /** The most that one store can add to the index. */
  const REC_MAX := PTR_SZ + IDXLEN_SZ + IDXLEN_MAX

  /** Stores have keys of 1 to KEY_MAX bytes without a separator, and data of an allowed length. */
  predicate Modest(op: Op) { op.OpStore? ==> 1 <= |op.key| <= KEY_MAX && SEP !in op.key && LenOk(op.data) }

  function Stores(ops: seq<Op>): (n: nat)
    ensures n <= |ops|
  {
    if ops == [] then 0 else Stores(ops[..|ops| - 1]) + if ops[|ops| - 1].OpStore? then 1 else 0
  }

  predicate Within(l: Layout, n: nat) { l.isize <= BASE + n * REC_MAX && l.dsize <= n * DATLEN_MAX }

  lemma ModestFits(l: Layout, key: CString, data: CString, n: nat)
    requires 1 <= |key| <= KEY_MAX && LenOk(data) && Within(l, n) && BASE + n * REC_MAX <= PTR_MAX
    ensures RoomFor(l, key, data) && Within(Grown(l, key, data), n + 1)
  {
    assert Pow10(2) == 100 && Pow10(4) == 10000 && Pow10(6) == 1000000;
    assert Pow10(7) == 10 * Pow10(6);
    DigitsFit(l.dsize, 7);
    DigitsFit(|data| + 1, 4);
    hide Digits, Pow10;
    assert |Body(key, l.dsize, |data| + 1)| == |key| + |Digits(l.dsize)| + |Digits(|data| + 1)| + 3;
  }

  lemma ModestStep(r: Result, op: Op, n: nat)
    requires !r.aborted && Modest(op) && Within(r.layout, n) && Plain(r.m)
    requires op.OpStore? ==> BASE + n * REC_MAX <= PTR_MAX
    ensures var q := Next(r, op);
            !q.aborted && Within(q.layout, n + if op.OpStore? then 1 else 0) && Plain(q.m)
  {
    PlainUnblocked(r.m, op.key);
    hide Blocked;
    if op.OpStore? && LenOk(op.data) {
      ModestFits(r.layout, op.key, op.data, n);
      hide BodyLenOk, RecSize, Body;
    }
  }

  /** Any sequence of calls on a new database with modest keys and data and at most
      (PTR_MAX - BASE) / REC_MAX stores among them returns what the plain map returns, every
      call. */
  lemma {:induction false} ModestRunsReturn(ops: seq<Op>)
    requires BASE + Stores(ops) * REC_MAX <= PTR_MAX && forall i :: 0 <= i < |ops| ==> Modest(ops[i])
    ensures var r := RunAll(NEW, map[], ops);
            !r.aborted && Within(r.layout, Stores(ops)) && Plain(r.m) && (r.m, r.outs) == SpecRun(map[], ops)
  {
    ModestNoAbort(ops);
    RunIsMap(NEW, map[], ops);
    hide Within, Next, SpecStep, LenOk, Plain;
    assert ops[..|ops|] == ops;
  }

  lemma {:induction false} ModestNoAbort(ops: seq<Op>)
    requires BASE + Stores(ops) * REC_MAX <= PTR_MAX && forall i :: 0 <= i < |ops| ==> Modest(ops[i])
    ensures var r := RunAll(NEW, map[], ops); !r.aborted && Within(r.layout, Stores(ops)) && Plain(r.m)
  {
    if ops != [] {
      var n := |ops| - 1;
      ModestNoAbort(ops[..n]);
      ModestStep(RunAll(NEW, map[], ops[..n]), ops[n], Stores(ops[..n]));
      hide Next, Within, Modest, Plain;
    }
  }
}

/** The plain map that the database library stands for. */
module DbSpec {
  import opened Ascii

  type Contents = map<CString, CString>

  const DB_INSERT := 1
  const DB_REPLACE := 2
  const DB_STORE := 3

  datatype Fetched = Found(data: CString) | NotFound

  function StoreRc(m: Contents, key: CString, flag: int): int {
    if flag != DB_INSERT && flag != DB_REPLACE && flag != DB_STORE then -1
    else if key in m then if flag == DB_INSERT then 1 else 0
    else if flag == DB_REPLACE then -1 else 0
  }

  function StoreMap(m: Contents, key: CString, data: CString, flag: int): Contents {
    if StoreRc(m, key, flag) == 0 then m[key := data] else m
  }

  function FetchMap(m: Contents, key: CString): Fetched {
    if key in m then Found(m[key]) else NotFound
  }

  datatype Op =
    | OpFetch(key: CString)
    | OpDelete(key: CString)
    | OpStore(key: CString, data: CString, flag: int)

  datatype Ret = RetCode(rc: int) | RetData(fetched: Fetched)

  function SpecStep(m: Contents, op: Op): (Contents, Ret) {
    match op
    case OpFetch(key) => (m, RetData(FetchMap(m, key)))
    case OpDelete(key) => (m - {key}, RetCode(if key in m then 0 else -1))
    case OpStore(key, data, flag) => (StoreMap(m, key, data, flag), RetCode(StoreRc(m, key, flag)))
  }

  function SpecRun(m: Contents, ops: seq<Op>): (r: (Contents, seq<Ret>))
    ensures |r.1| == |ops|
  {
    if ops == [] then (m, []) else
    var (n, outs) := SpecRun(m, ops[..|ops| - 1]);
    var (n', out) := SpecStep(n, ops[|ops| - 1]);
    (n', outs + [out])
  }

  // -- What the three calls promise --------------------------------------------------------

  /** What a fetch after some call returns. */
  function FetchAfter(m: Contents, op: Op, key: CString): Ret { SpecStep(SpecStep(m, op).0, OpFetch(key)).1 }

  function FetchNow(m: Contents, key: CString): Ret { SpecStep(m, OpFetch(key)).1 }

  /** db_store inserts with flag 1 (DB_INSERT), replaces with 2 (DB_REPLACE) and does whichever
      is needed with 3 (DB_STORE). It returns 1 for a key that is there already and should not
      be, -1 for one that should be there and is not, and -1 for any other flag, and then
      changes nothing; else it returns 0, and a fetch gives the new data. Other keys fetch as
      before. */
  lemma StoreLaw(m: Contents, key: CString, data: CString, flag: int, other: CString)
    ensures var op := OpStore(key, data, flag);
            var ret, now := SpecStep(m, op).1, FetchAfter(m, op, key);
            && (FetchNow(m, key) == RetData(NotFound) ==>
                  && (ret == RetCode(-1) <==> flag != 1 && flag != 3)
                  && (ret == RetCode(0) <==> flag == 1 || flag == 3))
            && (FetchNow(m, key) != RetData(NotFound) ==>
                  && (ret == RetCode(1) <==> flag == 1)
                  && (ret == RetCode(0) <==> flag == 2 || flag == 3)
                  && (ret == RetCode(-1) <==> flag != 1 && flag != 2 && flag != 3))
            && (ret == RetCode(0) ==> now == RetData(Found(data)))
            && (ret != RetCode(0) ==> SpecStep(m, op).0 == m && now == FetchNow(m, key))
            && (other != key ==> FetchAfter(m, op, other) == FetchNow(m, other))
  {
  }

  /** db_delete returns 0 for a key that is there, -1 for one that is not; in both cases it is
      not found afterwards, and other keys fetch as before. */
  lemma DeleteLaw(m: Contents, key: CString, other: CString)
    ensures var op := OpDelete(key);
            && SpecStep(m, op).1 == RetCode(if FetchNow(m, key) == RetData(NotFound) then -1 else 0)
            && FetchAfter(m, op, key) == RetData(NotFound)
            && (other != key ==> FetchAfter(m, op, other) == FetchNow(m, other))
  {
  }

  // -- What a whole run promises -----------------------------------------------------------

  /** What is stored under a key, told from the calls and their returns alone: the data of the
      last store that returned 0, unless the key was deleted since. */
  function Latest(ops: seq<Op>, rets: seq<Ret>, key: CString): Fetched
    requires |rets| == |ops|
    decreases |ops|
  {
    if ops == [] then NotFound
    else
      var n := |ops| - 1;
      if ops[n].OpDelete? && ops[n].key == key then NotFound
      else if ops[n].OpStore? && ops[n].key == key && rets[n] == RetCode(0) then Found(ops[n].data)
      else Latest(ops[..n], rets[..n], key)
  }

  /** What a call has to return when `was` is stored under its key. */
  predicate Answer(was: Fetched, op: Op, ret: Ret) {
    match op
    case OpFetch(_) => ret == RetData(was)
    case OpDelete(_) => ret == RetCode(if was.Found? then 0 else -1)
    case OpStore(_, _, flag) =>
      if flag == 1 then ret == RetCode(if was.Found? then 1 else 0)
      else if flag == 2 then ret == RetCode(if was.Found? then 0 else -1)
      else if flag == 3 then ret == RetCode(0)
      else ret == RetCode(-1)
  }

  /** Every call returns what the calls before it, and their returns, make it return. */
  predicate Answers(ops: seq<Op>, rets: seq<Ret>) {
    && |rets| == |ops|
    && forall i {:trigger ops[..i]} :: 0 <= i < |ops| ==>
         Answer(Latest(ops[..i], rets[..i], ops[i].key), ops[i], rets[i])
  }

  lemma {:induction false} LatestIs(ops: seq<Op>, key: CString)
    ensures FetchMap(SpecRun(map[], ops).0, key) == Latest(ops, SpecRun(map[], ops).1, key)
  {
    if ops != [] {
      var n := |ops| - 1;
      LatestIs(ops[..n], key);
      var (m, rets) := SpecRun(map[], ops[..n]);
      assert SpecRun(map[], ops).1[..n] == rets;
    }
  }

  lemma AnswerIs(m: Contents, op: Op)
    ensures Answer(FetchMap(m, op.key), op, SpecStep(m, op).1)
  {
  }

  lemma {:induction false} AnswersMap(ops: seq<Op>)
    ensures Answers(ops, SpecRun(map[], ops).1)
  {
    if ops != [] {
      var n := |ops| - 1;
      AnswersMap(ops[..n]);
      var (m, rets) := SpecRun(map[], ops[..n]);
      var all := SpecRun(map[], ops).1;
      assert all == rets + [SpecStep(m, ops[n]).1];
      hide SpecRun, SpecStep, Answer, Latest;
      forall i | 0 <= i < |ops| ensures Answer(Latest(ops[..i], all[..i], ops[i].key), ops[i], all[i]) {
        if i < n {
          assert ops[..n][..i] == ops[..i] && rets[..i] == all[..i];
        } else {
          assert all[..n] == rets;
          LatestNow(ops[..n], m, rets, ops[n].key);
          AnswerIs(m, ops[n]);
        }
      }
    }
  }

  lemma LatestNow(ops: seq<Op>, m: Contents, rets: seq<Ret>, key: CString)
    requires SpecRun(map[], ops) == (m, rets) && |rets| == |ops|
    ensures Latest(ops, rets, key) == FetchMap(m, key)
  {
    LatestIs(ops, key);
  }

  /** Calls that start from an empty map return what Answers says of them, and leave under each
      key what Latest says; nothing here is said in terms of a map. */
  lemma {:induction false} History(ops: seq<Op>)
    ensures Answers(ops, SpecRun(map[], ops).1)
    ensures forall key :: FetchMap(SpecRun(map[], ops).0, key) == Latest(ops, SpecRun(map[], ops).1, key)
  {
    AnswersMap(ops);
    forall key ensures FetchMap(SpecRun(map[], ops).0, key) == Latest(ops, SpecRun(map[], ops).1, key) {
      LatestIs(ops, key);
    }
  }
}

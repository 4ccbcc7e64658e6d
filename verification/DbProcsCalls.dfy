/** Every interleaving is equivalent to its calls made one at a time. */
module DbProcsCalls {
  import opened Ascii
  import opened DbFormat
  import opened Lists
  import opened DbSpec
  import opened DbLayout
  import opened DbHeads
  import opened DbProcs
  import opened DbProcsInv
  import opened DbProcsMoves
  import opened DbProcsRuns
  import opened DbProcsKeys

  /** Process `p` returns from a call, or ends in one, in this step. */
  predicate Returns(s: State, p: nat) { p in s.procs && (s.procs[p].pc.Done? || s.procs[p].pc.Failed?) }

  /** A call that is over: it returned, or ended its process. */
  datatype Call = Returned(op: Op, ret: Ret) | Ended(op: Op, why: Why)

  function CallOf(proc: Proc): Call
    requires proc.pc.Done? || proc.pc.Failed?
  {
    if proc.pc.Done? then Returned(proc.op, proc.pc.ret) else Ended(proc.op, proc.pc.why)
  }

  /** The calls that are over after the first `n` steps, in that order. */
  function Calls(run: seq<State>, who: seq<nat>, n: nat): seq<Call>
    requires |run| == |who| + 1 && n <= |who|
  {
    if n == 0 then [] else
    var s, p := run[n - 1], who[n - 1];
    Calls(run, who, n - 1) + if Returns(s, p) then [CallOf(s.procs[p])] else []
  }

  /** What a call that ends its process does to the map: nothing, on a chain with a key that
      has a separator; else it is a store whose record had a length or an offset that is not
      allowed, and leaves the map without its key. None if it had no reason to end. */
  function EndMap(m: Contents, op: Op, why: Why): Option<Contents> {
    if why.Unreadable? then if Blocked(m.Keys, op.key) then Some(m) else None
    else if op.OpStore? && !Blocked(m.Keys, op.key)
         && (if why.TooLong? then !BodyLenOk(op.key, why.doff, DataLen(op)) else why.off > PTR_MAX)
    then Some(m - {op.key})
    else None
  }

  /** The map after calls made one at a time: a call that returned, on a chain without such a
      key, did and returned what the map does, a call that ended its process did what EndMap
      says. None if some call could not have returned that, or ended. */
  function Replay(cs: seq<Call>): Option<Contents> {
    if cs == [] then Some(map[])
    else
      var m, c := Replay(cs[..|cs| - 1]), cs[|cs| - 1];
      if m.None? then None
      else match c
        case Returned(op, ret) =>
          if !Blocked(m.value.Keys, op.key) && SpecStep(m.value, op).1 == ret then Some(SpecStep(m.value, op).0)
          else None
        case Ended(op, why) => EndMap(m.value, op, why)
  }

  /** A step that returns from no call leaves the map alone. */
  lemma QuietStep(s: State, t: State, p: nat)
    requires Step(s, t, p) && !Returns(s, p)
    ensures t.abs == s.abs
  {
    hide SlotOf;
    if p in s.procs && Enabled(s, p) && t == Exec(s, p) { QuietExec(s, p); }
  }

  lemma QuietExec(s: State, p: nat)
    requires p in s.procs && !Returns(s, p)
    ensures Exec(s, p).abs == s.abs
  {
    hide ExecDelete, ExecStore, ExecAppend, ExecFind;
  }

  /** Every interleaving is equivalent to its calls made one at a time, in the order in
      which they return or end, against a plain map: each returned what the map returns, and
      the database holds what the map holds. */
  lemma {:induction false} Serializable(run: seq<State>, who: seq<nat>, n: nat)
    requires IsRun(run, who) && n <= |who|
    ensures Replay(Calls(run, who, n)) == Some(run[n].abs)
  {
    hide Inv, AllOpen, Init, Exec, SpecStep, Replay, Step, CallOf, Returns;
    if n == 0 {
      InitAbs(run[0]);
    } else {
      var s, t, p := run[n - 1], run[n], who[n - 1];
      Serializable(run, who, n - 1);
      RunInv(run, who, n - 1);
      RunOpen(run, who, n - 1);
      var cs := Calls(run, who, n - 1);
      if Returns(s, p) {
        ReturnStep(s, t, p, cs);
      } else {
        QuietStep(s, t, p);
        assert cs + [] == cs;
      }
    }
  }

  lemma InitAbs(s: State)
    requires Init(s)
    ensures Some(s.abs) == Replay([])
  {
  }

  lemma ReturnStep(s: State, t: State, p: nat, cs: seq<Call>)
    requires Inv(s) && AllOpen(s) && Step(s, t, p) && Returns(s, p) && Replay(cs) == Some(s.abs)
    ensures Replay(cs + [CallOf(s.procs[p])]) == Some(t.abs)
  {
    hide Inv, ExecFind, SlotOf, SpecStep, Blocked, BodyLenOk, HeadsOk;
    assert Open(s, p);
    assert (cs + [CallOf(s.procs[p])])[..|cs|] == cs;
    var pc := s.procs[p].pc;
    if pc.Done? { StepDone(s, p); } else if pc.why.Unreadable? { StepUnreadable(s, p); } else { StepFailed(s, p); }
  }

  function OpsOf(cs: seq<Call>): (ops: seq<Op>)
    ensures |ops| == |cs| && forall i :: 0 <= i < |cs| ==> ops[i] == cs[i].op
  {
    seq(|cs|, i requires 0 <= i < |cs| => cs[i].op)
  }

  /** If no call ended its process, these are the returns and the contents of the plain map. */
  lemma {:induction false} ReplayIsMap(cs: seq<Call>)
    requires Replay(cs).Some? && forall i :: 0 <= i < |cs| ==> cs[i].Returned?
    ensures var (m, rets) := SpecRun(map[], OpsOf(cs));
            Replay(cs) == Some(m) && Answers(OpsOf(cs), rets) && forall i :: 0 <= i < |cs| ==> rets[i] == cs[i].ret
  {
    History(OpsOf(cs));
    if cs != [] {
      var n := |cs| - 1;
      ReplayIsMap(cs[..n]);
      hide SpecStep, Blocked, Answers;
      assert OpsOf(cs)[..n] == OpsOf(cs[..n]);
    }
  }
}

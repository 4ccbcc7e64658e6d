/** Passing a descriptor or an error over a stream: lib/sendfd.c, lib/senderr.c,
    lib/writen.c and the receiving loop of lib/recvfd.c. */
module FdPassing {
  import opened Numbers
  import opened Ascii
  import opened Lists

  const MAXLINE := 4096

  // -- Sending ---------------------------------------------------------------------------

  /** What storing an int in a char keeps of it. */
  function LowByte(n: int): byte { n % 256 }

  /** The second byte of the trailer. */
  function Status(fd: int): byte {
    if fd >= 0 then 0 else if LowByte(-fd) == 0 then 1 else LowByte(-fd)
  }

  function Trailer(fd: int): bytes { [NUL, Status(fd)] }

  /** send_err's own code: whatever is not negative becomes -1. */
  function ErrCode(errcode: int): int { if errcode >= 0 then -1 else errcode }

  /** How much of `len` bytes goes out when the writes from the k-th on answer takes(k), ...: an
      answer below 1 is a failure or a write that takes nothing, and the loop stops there. */
  function Amount(takes: nat -> int, k: nat, len: nat): (n: nat)
    ensures n <= len
    decreases len
  {
    if len == 0 || takes(k) <= 0 then 0
    else if takes(k) >= len then len
    else takes(k) + Amount(takes, k + 1, len - takes(k))
  }

  /** Writes that all take something, however little, send everything. */
  lemma {:induction false} AllTaken(takes: nat -> int, k: nat, len: nat)
    requires forall i :: i >= k ==> takes(i) > 0
    ensures Amount(takes, k, len) == len
    decreases len
  {
    if 0 < takes(k) < len { AllTaken(takes, k + 1, len - takes(k)); }
  }

  /** The sending end: the bytes that went out, and the descriptor passed with them. The
      kernel's answer to the k-th write or sendmsg is takes(k), or less at the end of the
      data. */
  class Socket {
    const takes: nat -> int
    var calls: nat
    var sent: bytes
    var passed: Option<int>

    constructor (takes: nat -> int)
      ensures this.takes == takes && calls == 0 && sent == [] && passed.None?
    {
      this.takes := takes;
      calls, sent, passed := 0, [], None;
    }

    /** write: takes some part of the data, or fails. */
    method Write(data: bytes) returns (n: int)
      modifies this`sent, this`calls
      ensures -1 <= n <= |data|
      ensures calls == old(calls) + 1 && sent == old(sent) + data[..if n < 0 then 0 else n]
      ensures n == if takes(old(calls)) < 0 then -1 else Min(takes(old(calls)), |data|)
    {
      n := takes(calls);
      calls := calls + 1;
      if n < 0 { return -1; }
      n := Min(n, |data|);
      sent := sent + data[..n];
    }

    /** writen: all of the data, however little each write takes, unless a write fails or
        takes nothing; then -1 or the length of what went out. */
    method Writen(data: bytes) returns (r: int)
      modifies this`sent, this`calls
      ensures sent == old(sent) + data[..Amount(takes, old(calls), |data|)] && calls >= old(calls)
      ensures r == if data != [] && takes(old(calls)) < 0 then -1 else Amount(takes, old(calls), |data|)
      ensures r == |data| <==> forall i :: old(calls) <= i < calls ==> takes(i) > 0
    {
      var n, nleft := |data|, |data|;
      while nleft > 0
        invariant 0 <= nleft <= n && sent == old(sent) + data[..n - nleft] && calls >= old(calls)
        invariant Amount(takes, old(calls), n) == n - nleft + Amount(takes, calls, nleft)
        invariant nleft == n <==> calls == old(calls)
        invariant forall i :: old(calls) <= i < calls ==> takes(i) > 0
      {
        var nwritten := Write(data[n - nleft..]);
        if nwritten < 0 {
          if nleft == n { return -1; } else { break; }
        } else if nwritten == 0 {
          break;
        }
        assert data[..n - nleft] + data[n - nleft..][..nwritten] == data[..n - nleft + nwritten];
        nleft := nleft - nwritten;
      }
      r := n - nleft;
    }

    /** send_fd: two bytes, with the descriptor itself alongside when there is one. */
    method SendFd(fd: int) returns (rc: int)
      modifies this
      ensures calls == old(calls) + 1 && rc == if takes(old(calls)) >= 2 then 0 else -1
      ensures rc == 0 ==> sent == old(sent) + Trailer(fd) && passed == (if fd >= 0 then Some(fd) else None)
    {
      var buf := new byte[2];
      var control: Option<int> := None;
      if fd < 0 {
        buf[1] := LowByte(-fd);
        if buf[1] == 0 { buf[1] := 1; }
      } else {
        control := Some(fd);
        buf[1] := 0;
      }
      buf[0] := 0;
      var n := Write(buf[..]);
      if n != 2 { return -1; }
      assert buf[..][..2] == Trailer(fd);
      passed := control;
      rc := 0;
    }

    /** send_err: the message, then the trailer of its code. It succeeds exactly when the
        whole message goes out and the trailer in one piece. */
    method SendErr(errcode: int, msg: CString) returns (rc: int)
      modifies this
      ensures calls >= old(calls) && (rc == 0 || rc == -1)
      ensures rc == 0 <==>
              && Amount(takes, old(calls), |msg|) == |msg|
              && calls > old(calls) && takes(calls - 1) >= 2
      ensures (forall i :: i >= old(calls) ==> takes(i) >= 2) ==> rc == 0
      ensures rc == 0 ==> sent == old(sent) + msg + Trailer(ErrCode(errcode)) && passed.None?
    {
      ghost var k := calls;
      if forall i :: i >= k ==> takes(i) >= 2 { AllTaken(takes, k, |msg|); }
      var n := |msg|;
      if n > 0 {
        var w := Writen(msg);
        if w != n { return -1; }
      }
      var code := errcode;
      if code >= 0 { code := -1; }
      rc := SendFd(code);
      if rc < 0 { return -1; }
      rc := 0;
    }
  }

  // -- Receiving -------------------------------------------------------------------------

  function Negative(b: byte): int { 0 - (b as int) }

  /** One recvmsg: some bytes, with a descriptor or without; no bytes mean that the server
      closed the connection. */
  datatype Recv = Data(data: bytes, fd: Option<int>) | Error

  /** recv_fd returns, or ends the process by err_dump. */
  datatype Outcome = Returned(value: int) | Dumped

  /** What recv_fd makes of what it receives and what it hands to userfunc, whose k-th call
      succeeds when accept(k). */
  function Receive(rs: seq<Recv>, accept: nat -> bool, k: nat): (Outcome, bytes)
    decreases |rs|
  {
    if rs == [] || rs[0].Error? || rs[0].data == [] then (Returned(-1), [])
    else
      var c := rs[0].data;
      var n := Find(c, NUL);
      if n == |c| then
        if !accept(k) then (Returned(-1), c)
        else
          var (o, rest) := Receive(rs[1..], accept, k + 1);
          (o, c + rest)
      else if n + 2 != |c| || (c[n + 1] == 0 && rs[0].fd.None?) then (Dumped, [])
      else if n > 0 && !accept(k) then (Returned(-1), c[..n])
      else (Returned(if c[n + 1] == 0 then rs[0].fd.value else Negative(c[n + 1])), c[..n])
  }

  /** The scan of one buffer: `nr` shrinks by the trailer when it is found. */
  method Scan(buf: bytes, fd: Option<int>) returns (dump: bool, status: int, newfd: int, nr: nat)
    requires 0 < |buf| <= MAXLINE
    ensures var n := Find(buf, NUL);
            && (n == |buf| ==> !dump && status == -1 && nr == n)
            && (n < |buf| ==> (dump <==> n + 2 != |buf| || (buf[n + 1] == 0 && fd.None?)))
            && (n < |buf| && !dump ==>
                  && status == buf[n + 1] && nr == n
                  && newfd == if buf[n + 1] == 0 then fd.value else Negative(buf[n + 1]))
  {
    dump, status, newfd, nr := false, -1, 0, |buf|;
    ghost var n := Find(buf, NUL);
    var ptr := 0;
    while ptr < nr
      invariant 0 <= ptr <= |buf| && !dump
      invariant status == -1 ==> nr == |buf| && ptr <= n
      invariant status != -1 ==> n + 2 == |buf| && nr == n && ptr == n + 1 && status == buf[n + 1]
                                 && newfd == (if status == 0 then (if fd.Some? then fd.value else 0) else -status)
                                 && (status == 0 ==> fd.Some?)
      decreases nr - ptr
    {
      assert ptr < n ==> buf[ptr] == buf[..n][ptr];
      ptr := ptr + 1;
      if buf[ptr - 1] == 0 {
        if ptr != nr - 1 {
          dump := true;
          return;
        }
        status := buf[ptr];
        if status == 0 {
          if fd.None? {
            dump := true;
            return;
          }
          newfd := fd.value;
        } else {
          newfd := -status;
        }
        nr := nr - 2;
      }
    }
  }

  method RecvFd(rs: seq<Recv>, accept: nat -> bool) returns (o: Outcome, passed: bytes)
    requires forall i :: 0 <= i < |rs| && rs[i].Data? ==> |rs[i].data| <= MAXLINE
    ensures (o, passed) == Receive(rs, accept, 0)
  {
    passed := [];
    var i := 0;
    assert rs[0..] == rs;
    while true
      invariant i <= |rs|
      invariant Receive(rs, accept, 0).0 == Receive(rs[i..], accept, i).0
      invariant Receive(rs, accept, 0).1 == passed + Receive(rs[i..], accept, i).1
      decreases |rs| - i
    {
      assert passed + [] == passed && (i < |rs| && rs[i].Data? ==> rs[i].data[..|rs[i].data|] == rs[i].data);
      if i == |rs| || rs[i].Error? || rs[i].data == [] { return Returned(-1), passed; }
      var buf := rs[i].data;
      var dump, status, newfd, nr := Scan(buf, rs[i].fd);
      if dump { return Dumped, passed; }
      if nr > 0 {
        passed := passed + buf[..nr];
        if !accept(i) { return Returned(-1), passed; }
      }
      if status >= 0 { return Returned(newfd), passed; }
      assert rs[i..][1..] == rs[i + 1..];
      i := i + 1;
    }
  }

  // -- Round trips -----------------------------------------------------------------------

  function Stream(rs: seq<Recv>): bytes
  {
    if rs == [] then [] else (if rs[0].Data? then rs[0].data else []) + Stream(rs[1..])
  }

  /** The stream arrives in full, in non-empty pieces. */
  predicate Arrives(rs: seq<Recv>, s: bytes) {
    (forall i :: 0 <= i < |rs| ==> rs[i].Data? && rs[i].data != []) && Stream(rs) == s
  }

  /** The two bytes of the trailer come in one piece. */
  predicate Together(rs: seq<Recv>) { rs != [] && rs[|rs| - 1].Data? && |rs[|rs| - 1].data| >= 2 }

  lemma {:induction false} LastPiece(rs: seq<Recv>, msg: CString, st: byte)
    requires Arrives(rs, msg + [NUL, st]) && rs != []
    ensures |rs| == 1 <==> rs[0].data == msg + [NUL, st]
    ensures |rs| > 1 && NUL !in rs[0].data ==>
              && |rs[0].data| <= |msg| && rs[0].data == msg[..|rs[0].data|]
              && Arrives(rs[1..], msg[|rs[0].data|..] + [NUL, st])
    ensures |rs| > 1 && NUL in rs[0].data ==> rs[0].data == msg + [NUL] && |rs| == 2 && |rs[1].data| == 1
  {
    var c, rest := rs[0].data, Stream(rs[1..]);
    var s := msg + [NUL, st];
    assert c + rest == s;
    assert c == s[..|c|] && rest == s[|c|..];
    if |rs| == 1 {
      assert Stream(rs[1..]) == [];
    } else {
      assert rs[1].data != [] && rs[1..][0] == rs[1];
      assert |rest| == |rs[1].data| + |Stream(rs[1..][1..])|;
      if |c| <= |msg| {
        assert rest == msg[|c|..] + [NUL, st];
        assert forall i :: 0 <= i < |rs[1..]| ==> rs[1..][i] == rs[i + 1];
      } else {
        assert c[|msg|] == NUL;
        assert c == msg + [NUL];
      }
    }
  }

  lemma FirstNul(msg: CString, st: byte)
    ensures Find(msg + [NUL, st], NUL) == |msg| && Find(msg + [NUL], NUL) == |msg| && Find(msg, NUL) == |msg|
  {
    FindFirst(msg, NUL, [st]);
    FindFirst(msg, NUL, []);
    assert msg + [NUL] + [st] == msg + [NUL, st] && msg + [NUL] + [] == msg + [NUL];
    assert forall i :: 0 <= i < |msg| ==> msg[i] != NUL;
  }

  lemma ReceiveMore(rs: seq<Recv>, accept: nat -> bool, k: nat)
    requires rs != [] && rs[0].Data? && rs[0].data != [] && NUL !in rs[0].data && accept(k)
    ensures Receive(rs, accept, k) == (Receive(rs[1..], accept, k + 1).0,
        rs[0].data + Receive(rs[1..], accept, k + 1).1)
  {
    FirstNul(rs[0].data, 0);
  }

  // -- Every way in which it can end -------------------------------------------------------

  /** A piece that is nothing but message. */
  predicate Text(r: Recv) { r.Data? && r.data != [] && NUL !in r.data }

  /** The first `j` pieces are, and userfunc takes them all. */
  predicate Taken(rs: seq<Recv>, accept: nat -> bool, k: nat, j: nat) {
    j <= |rs| && forall i {:trigger rs[i]} :: 0 <= i < j ==> Text(rs[i]) && accept(k + i)
  }

  lemma TakenRest(rs: seq<Recv>, accept: nat -> bool, k: nat, j: nat)
    requires Taken(rs, accept, k, j) && j > 0
    ensures rs != [] && rs[0].Data? && rs[0].data != [] && NUL !in rs[0].data && accept(k)
    ensures Taken(rs[1..], accept, k + 1, j - 1)
  {
    assert Text(rs[0]) && accept(k + 0) && k + 0 == k;
    forall i | 0 <= i < j - 1 ensures Text(rs[1..][i]) && accept(k + 1 + i) {
      assert Text(rs[i + 1]) && accept(k + (i + 1));
    }
  }

  lemma StreamMore(rs: seq<Recv>)
    requires rs != [] && rs[0].Data?
    ensures Stream(rs) == rs[0].data + Stream(rs[1..])
  {
  }

  /** Up to there everything received has been passed on, and the rest decides. */
  lemma {:induction false} PassedOn(rs: seq<Recv>, accept: nat -> bool, k: nat, j: nat)
    requires Taken(rs, accept, k, j)
    ensures Receive(rs, accept, k) ==
            (Receive(rs[j..], accept, k + j).0, Stream(rs[..j]) + Receive(rs[j..], accept, k + j).1)
    decreases j
  {
    hide Receive, Taken, Stream;
    if j == 0 {
      NoStream();
      assert rs[0..] == rs && rs[..0] == [];
      assert [] + Receive(rs, accept, k).1 == Receive(rs, accept, k).1;
    } else {
      TakenRest(rs, accept, k, j);
      ReceiveMore(rs, accept, k);
      PassedOn(rs[1..], accept, k + 1, j - 1);
      assert rs[1..][j - 1..] == rs[j..] && rs[1..][..j - 1] == rs[..j][1..];
      StreamMore(rs[..j]);
      var rest := Receive(rs[j..], accept, k + j).1;
      assert rs[0].data + (Stream(rs[..j][1..]) + rest) == (rs[0].data + Stream(rs[..j][1..])) + rest;
    }
  }

  lemma NoStream()
    ensures Stream([]) == []
  {
  }

  /** What one piece does that ends it all. */
  lemma ClosingPiece(rs: seq<Recv>, accept: nat -> bool, k: nat)
    requires rs == [] || rs[0].Error? || rs[0].data == []
    ensures Receive(rs, accept, k) == (Returned(-1), [])
  {
  }

  lemma RefusedPiece(rs: seq<Recv>, accept: nat -> bool, k: nat)
    requires rs != [] && Text(rs[0]) && !accept(k)
    ensures Receive(rs, accept, k) == (Returned(-1), rs[0].data)
  {
    FirstNul(rs[0].data, 0);
    hide Find;
  }

  lemma TrailerPiece(rs: seq<Recv>, accept: nat -> bool, k: nat, msg: CString, st: byte)
    requires rs != [] && rs[0].Data? && rs[0].data == msg + [NUL, st]
    ensures Receive(rs, accept, k) ==
            if st == 0 && rs[0].fd.None? then (Dumped, [])
            else if msg != [] && !accept(k) then (Returned(-1), msg)
            else (Returned(if st == 0 then rs[0].fd.value else -(st as int)), msg)
  {
    FirstNul(msg, st);
    hide Find;
    assert (msg + [NUL, st])[..|msg|] == msg;
  }

  /** The server closes the connection, recvmsg fails, or nothing more comes, before there was
      a trailer: -1, and all of the message was passed on. */
  lemma Closed(rs: seq<Recv>, accept: nat -> bool, j: nat)
    requires Taken(rs, accept, 0, j) && (j == |rs| || rs[j].Error? || rs[j].data == [])
    ensures Receive(rs, accept, 0) == (Returned(-1), Stream(rs[..j]))
  {
    hide Receive, Stream;
    PassedOn(rs, accept, 0, j);
    ClosingPiece(rs[j..], accept, j);
    assert Stream(rs[..j]) + [] == Stream(rs[..j]);
  }

  /** userfunc refuses a piece of the message, with or without the trailer: -1. */
  lemma Refused(rs: seq<Recv>, accept: nat -> bool, j: nat, msg: CString, st: byte)
    requires Taken(rs, accept, 0, j) && j < |rs| && rs[j].Data? && msg != [] && !accept(j)
    requires rs[j].data == msg || (rs[j].data == msg + [NUL, st] && (st != 0 || rs[j].fd.Some?))
    ensures Receive(rs, accept, 0) == (Returned(-1), Stream(rs[..j]) + msg)
  {
    hide Receive, Taken, Stream;
    PassedOn(rs, accept, 0, j);
    if rs[j].data == msg { RefusedPiece(rs[j..], accept, j); } else { TrailerPiece(rs[j..], accept, j, msg, st); }
  }

  /** The trailer arrives in one piece, after the rest of the message: the descriptor that came
      with it if the status is 0, the negated status if it is not, and err_dump on status 0
      without a descriptor. */
  lemma Answered(rs: seq<Recv>, accept: nat -> bool, j: nat, msg: CString, st: byte)
    requires Taken(rs, accept, 0, j) && j < |rs| && rs[j].Data? && (msg == [] || accept(j))
    requires rs[j].data == msg + [NUL, st]
    ensures st != 0 ==> Receive(rs, accept, 0) == (Returned(-(st as int)), Stream(rs[..j]) + msg)
    ensures st == 0 && rs[j].fd.Some? ==>
              Receive(rs, accept, 0) == (Returned(rs[j].fd.value), Stream(rs[..j]) + msg)
    ensures st == 0 && rs[j].fd.None? ==> Receive(rs, accept, 0) == (Dumped, Stream(rs[..j]))
  {
    hide Receive, Taken, Stream;
    PassedOn(rs, accept, 0, j);
    assert Stream(rs[..j]) + [] == Stream(rs[..j]);
    TrailerPiece(rs[j..], accept, j, msg, st);
  }

  /** A NUL anywhere but next to last: err_dump. */
  lemma Misplaced(rs: seq<Recv>, accept: nat -> bool, j: nat, i: nat)
    requires Taken(rs, accept, 0, j) && j < |rs| && rs[j].Data? && i < |rs[j].data| && i + 2 != |rs[j].data|
    requires rs[j].data[i] == NUL && NUL !in rs[j].data[..i]
    ensures Receive(rs, accept, 0) == (Dumped, Stream(rs[..j]))
  {
    hide Receive, Taken, Stream;
    PassedOn(rs, accept, 0, j);
    assert Stream(rs[..j]) + [] == Stream(rs[..j]);
    MisplacedPiece(rs[j..], accept, j, i);
  }

  lemma MisplacedPiece(rs: seq<Recv>, accept: nat -> bool, k: nat, i: nat)
    requires rs != [] && rs[0].Data? && i < |rs[0].data| && i + 2 != |rs[0].data|
    requires rs[0].data[i] == NUL && NUL !in rs[0].data[..i]
    ensures Receive(rs, accept, k) == (Dumped, [])
  {
    var c := rs[0].data;
    assert c == c[..i] + [NUL] + c[i + 1..];
    FindFirst(c[..i], NUL, c[i + 1..]);
    hide Find;
  }

  predicate Carries(r: Recv, v: int) {
    r.Data? && r.fd == Some(v) && |r.data| >= 2 && r.data[|r.data| - 2] == 0 && r.data[|r.data| - 1] == 0
  }

  /** recv_fd returns no descriptor but one that came with status 0. */
  lemma {:induction false} OnlyPassed(rs: seq<Recv>, accept: nat -> bool, k: nat, v: nat)
    requires Receive(rs, accept, k).0 == Returned(v)
    ensures exists i :: 0 <= i < |rs| && Carries(rs[i], v)
    decreases |rs|
  {
    var c := rs[0].data;
    if Find(c, NUL) == |c| {
      OnlyPassed(rs[1..], accept, k + 1, v);
      var i :| 0 <= i < |rs| - 1 && Carries(rs[1..][i], v);
      assert Carries(rs[i + 1], v);
    } else {
      assert Carries(rs[0], v);
    }
  }

  // -- From one end to the other -----------------------------------------------------------

  lemma TogetherRest(rs: seq<Recv>)
    requires |rs| > 1
    ensures Together(rs) <==> Together(rs[1..])
  {
    assert rs[1..][|rs| - 2] == rs[|rs| - 1];
  }

  lemma ReceiveLast(rs: seq<Recv>, accept: nat -> bool, k: nat, msg: CString, st: byte)
    requires rs != [] && rs[0].Data? && rs[0].data == msg + [NUL, st] && st != 0 && accept(k)
    ensures Receive(rs, accept, k) == (Returned(Negative(st)), msg)
  {
    FirstNul(msg, st);
    hide Find;
    assert (msg + [NUL, st])[..|msg|] == msg;
  }

  lemma ReceiveCut(rs: seq<Recv>, accept: nat -> bool, k: nat, msg: CString)
    requires rs != [] && rs[0].Data? && rs[0].data == msg + [NUL]
    ensures Receive(rs, accept, k).0 == Dumped
  {
    FirstNul(msg, 0);
    hide Find;
  }

  /** However the stream is cut, what arrives is the message and the code when the trailer
      stays in one piece, and only then. */
  lemma {:induction false} Received(rs: seq<Recv>, accept: nat -> bool, k: nat, msg: CString, st: byte)
    requires Arrives(rs, msg + [NUL, st]) && st != 0 && forall i :: accept(i)
    ensures if Together(rs) then Receive(rs, accept, k) == (Returned(Negative(st)), msg)
        else Receive(rs, accept, k).0 == Dumped
    decreases |rs|
  {
    assert |msg + [NUL, st]| >= 2;
    if rs != [] {
      var c := rs[0].data;
      LastPiece(rs, msg, st);
      FirstNul(msg, st);
      hide Arrives, Receive, Find;
      if |rs| == 1 {
        ReceiveLast(rs, accept, k, msg, st);
      } else if NUL in c {
        ReceiveCut(rs, accept, k, msg);
      } else {
        var rest: CString := msg[|c|..];
        ReceiveMore(rs, accept, k);
        Received(rs[1..], accept, k + 1, rest, st);
        TogetherRest(rs);
        assert c + rest == msg;
        hide Together;
      }
    }
  }

  /** send_err to recv_fd: the message reaches userfunc unchanged and the result is
      negative; it is the code that was sent exactly when that was between -255 and -1. */
  lemma ErrorRoundTrip(rs: seq<Recv>, accept: nat -> bool, errcode: int, msg: CString)
    requires Arrives(rs, msg + Trailer(ErrCode(errcode))) && forall i :: accept(i)
    ensures Together(rs) ==>
              && Receive(rs, accept, 0).0.Returned? && Receive(rs, accept, 0).1 == msg
              && -255 <= Receive(rs, accept, 0).0.value <= -1
              && (Receive(rs, accept, 0).0.value == errcode <==> -255 <= errcode <= -1)
              && Receive(rs, accept, 0).0.value ==
                 if errcode >= 0 || errcode % 256 == 0 then -1 else -((-errcode) % 256)
    ensures !Together(rs) ==> Receive(rs, accept, 0).0 == Dumped
  {
    Received(rs, accept, 0, msg, Status(ErrCode(errcode)));
  }

  /** send_fd to recv_fd: the descriptor that was passed comes back. */
  lemma DescriptorRoundTrip(fd: nat, rest: seq<Recv>, accept: nat -> bool)
    ensures Receive([Data(Trailer(fd), Some(fd))] + rest, accept, 0) == (Returned(fd), [])
  {
    FirstNul([], 0);
    assert [] + [NUL, 0] == Trailer(fd);
  }
}

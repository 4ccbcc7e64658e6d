/** filedir/ftw8.c: a walk through a directory tree that spells every pathname in one
    shared buffer, enlarged on the way down and cut back on the way up. */
module Ftw {
  import opened Ascii

  const NAME_MAX := 255
  const SLASH: byte := 47
  const DOT: byte := 46

  /** What lstat, opendir and readdir find under a name. */
  datatype Node = NoStat | Leaf | Dir(readable: bool, entries: seq<Entry>)
  datatype Entry = Entry(name: CString, node: Node)

  predicate IsDot(name: CString) { name == [DOT] || name == [DOT, DOT] }

  /** The third argument of func. */
  datatype Type = FTW_F | FTW_D | FTW_DNR | FTW_NS

  datatype Call = Call(path: bytes, what: Type)

  /** No name is longer than NAME_MAX. */
  predicate NamesFit(node: Node) {
    node.Dir? ==> forall i :: 0 <= i < |node.entries| ==>
        |node.entries[i].name| <= NAME_MAX && NamesFit(node.entries[i].node)
  }

  // -- What a walk is to do --------------------------------------------------------------

  /** All calls for the tree under a path, if none asks to stop: a directory before its
      entries, the entries in the order of readdir. */
  function All(path: CString, node: Node): seq<Call>
    decreases node, 1, 0
  {
    match node
    case NoStat => [Call(path, FTW_NS)]
    case Leaf => [Call(path, FTW_F)]
    case Dir(readable, entries) =>
      [Call(path, FTW_D)] +
      if readable then AllUnder(path + [SLASH], node, |entries|) else [Call(path + [SLASH], FTW_DNR)]
  }

  /** The calls for the first `n` entries of a directory. */
  function AllUnder(prefix: CString, dir: Node, n: nat): seq<Call>
    requires dir.Dir? && n <= |dir.entries|
    decreases dir, 0, n
  {
    if n == 0 then []
    else
      var e := dir.entries[n - 1];
      AllUnder(prefix, dir, n - 1) + if IsDot(e.name) then [] else All(prefix + e.name, e.node)
  }

  /** Of `n` calls the first of which is call number `k` ever, and call number `j` ever
      returns answer(j): how many are made when the first that does not return 0 ends the
      walk, and what the walk returns. */
  function Steps(n: nat, answer: nat -> int, k: nat): (m: nat)
    ensures m <= n
  {
    if n == 0 then 0 else if answer(k) != 0 then 1 else 1 + Steps(n - 1, answer, k + 1)
  }

  function Ret(n: nat, answer: nat -> int, k: nat): int {
    if n == 0 then 0 else if answer(k) != 0 then answer(k) else Ret(n - 1, answer, k + 1)
  }

  function Made(cs: seq<Call>, answer: nat -> int, k: nat): seq<Call> { cs[..Steps(|cs|, answer, k)] }

  /** The walk stops right after the first call that does not return 0. */
  lemma {:induction false} StopsAtFirst(n: nat, answer: nat -> int, k: nat)
    ensures var m := Steps(n, answer, k);
            && (forall j :: k <= j < k + m - 1 ==> answer(j) == 0)
            && (Ret(n, answer, k) != 0 ==> m > 0 && answer(k + m - 1) == Ret(n, answer, k))
            && (Ret(n, answer, k) == 0 ==> m == n && forall j :: k <= j < k + n ==> answer(j) == 0)
  {
    if n > 0 && answer(k) == 0 { StopsAtFirst(n - 1, answer, k + 1); }
  }

  lemma {:induction false} StepsJoin(a: nat, b: nat, answer: nat -> int, k: nat)
    ensures Ret(a, answer, k) != 0 ==>
              Ret(a + b, answer, k) == Ret(a, answer, k) && Steps(a + b, answer, k) == Steps(a, answer, k)
    ensures Ret(a, answer, k) == 0 ==>
              && Steps(a, answer, k) == a && Ret(a + b, answer, k) == Ret(b, answer, k + a)
              && Steps(a + b, answer, k) == a + Steps(b, answer, k + a)
  {
    if a > 0 { StepsJoin(a - 1, b, answer, k + 1); }
  }

  lemma MadeJoin(a: seq<Call>, b: seq<Call>, answer: nat -> int, k: nat)
    ensures Ret(|a|, answer, k) != 0 ==>
              Ret(|a + b|, answer, k) == Ret(|a|, answer, k) && Made(a + b, answer, k) == Made(a, answer, k)
    ensures Ret(|a|, answer, k) == 0 ==>
              && Made(a, answer, k) == a && Ret(|a + b|, answer, k) == Ret(|b|, answer, k + |a|)
              && Made(a + b, answer, k) == a + Made(b, answer, k + |a|)
  {
    StepsJoin(|a|, |b|, answer, k);
  }

  // -- Which nodes are visited -------------------------------------------------------------

  /** Names lead from a node to another: each is the name of an entry of a directory that can
      be read, and none is `.` or `..`. */
  predicate Leads(node: Node, names: seq<CString>, target: Node)
    decreases |names|
  {
    if names == [] then node == target
    else
      && node.Dir? && node.readable && names[0] != [46] && names[0] != [46, 46]
      && exists i :: 0 <= i < |node.entries| && node.entries[i].name == names[0]
                     && Leads(node.entries[i].node, names[1..], target)
  }

  /** A path and then the names, each after a slash. */
  function Spell(path: CString, names: seq<CString>): CString
    decreases |names|
  {
    if names == [] then path else Spell(path + [47] + names[0], names[1..])
  }

  function TypeOf(node: Node): Type {
    match node
    case NoStat => FTW_NS
    case Leaf => FTW_F
    case Dir(_, _) => FTW_D
  }

  lemma HeadCall(path: CString, node: Node)
    ensures |All(path, node)| > 0 && All(path, node)[0] == Call(path, TypeOf(node))
    ensures node.Dir? && !node.readable ==> All(path, node) == [Call(path, FTW_D), Call(path + [47], FTW_DNR)]
  {
  }

  /** The calls for an entry are among those for the first `n`. */
  lemma {:induction false} UnderHas(prefix: CString, dir: Node, n: nat, i: nat, c: Call)
    requires dir.Dir? && i < n <= |dir.entries| && c in All(prefix + dir.entries[i].name, dir.entries[i].node)
    requires dir.entries[i].name != [46] && dir.entries[i].name != [46, 46]
    ensures c in AllUnder(prefix, dir, n)
    decreases n
  {
    hide All;
    if i < n - 1 { UnderHas(prefix, dir, n - 1, i, c); }
  }

  /** func is called for every node that names lead to, with the path that they spell and the
      type of the node; and for a directory that cannot be read once more, after a slash. */
  lemma {:induction false} VisitsAll(path: CString, node: Node, names: seq<CString>, target: Node)
    requires Leads(node, names, target)
    ensures Call(Spell(path, names), TypeOf(target)) in All(path, node)
    ensures target.Dir? && !target.readable ==> Call(Spell(path, names) + [47], FTW_DNR) in All(path, node)
    decreases |names|
  {
    if names == [] {
      HeadCall(path, node);
    } else {
      var i :| 0 <= i < |node.entries| && node.entries[i].name == names[0]
               && Leads(node.entries[i].node, names[1..], target);
      var e, prefix: CString := node.entries[i], path + [47];
      VisitsAll(prefix + e.name, e.node, names[1..], target);
      var c, d := Call(Spell(path, names), TypeOf(target)), Call(Spell(path, names) + [47], FTW_DNR);
      BelowIs(path, node);
      hide All, AllUnder, Leads;
      UnderHas(prefix, node, |node.entries|, i, c);
      if target.Dir? && !target.readable { UnderHas(prefix, node, |node.entries|, i, d); }
    }
  }

  lemma BelowIs(path: CString, dir: Node)
    requires dir.Dir? && dir.readable
    ensures All(path, dir) == [Call(path, FTW_D)] + AllUnder(path + [47], dir, |dir.entries|)
  {
  }

  /** A call among those for the first `n` entries is one for some entry, neither `.` nor `..`. */
  lemma {:induction false} UnderOnly(prefix: CString, dir: Node, n: nat, c: Call) returns (i: nat)
    requires dir.Dir? && n <= |dir.entries| && c in AllUnder(prefix, dir, n)
    ensures i < n && c in All(prefix + dir.entries[i].name, dir.entries[i].node)
    ensures dir.entries[i].name != [46] && dir.entries[i].name != [46, 46]
    decreases n
  {
    hide All;
    if c in AllUnder(prefix, dir, n - 1) { i := UnderOnly(prefix, dir, n - 1, c); } else { i := n - 1; }
  }

  /** What a call is for. */
  predicate IsFor(c: Call, path: CString, names: seq<CString>, target: Node) {
    || c == Call(Spell(path, names), TypeOf(target))
    || (target.Dir? && !target.readable && c == Call(Spell(path, names) + [47], FTW_DNR))
  }

  /** func is called for nothing else. */
  lemma {:induction false} VisitsOnly(path: CString, node: Node, c: Call) returns (names: seq<CString>, target: Node)
    requires c in All(path, node)
    ensures Leads(node, names, target) && IsFor(c, path, names, target)
    decreases node
  {
    HeadCall(path, node);
    if node.Dir? && node.readable && c != Call(path, FTW_D) {
      BelowIs(path, node);
      var i := UnderOnly(path + [47], node, |node.entries|, c);
      var e := node.entries[i];
      hide All, AllUnder;
      var rest;
      rest, target := VisitsOnly(path + [47] + e.name, e.node, c);
      names := [e.name] + rest;
      assert names[1..] == rest;
    } else {
      names, target := [], node;
    }
  }

  /** The calls for an entry come together, and before those for any later entry. */
  lemma {:induction false} InOrder(prefix: CString, dir: Node, n: nat, i: nat) returns (a: seq<Call>, b: seq<Call>)
    requires dir.Dir? && i < n <= |dir.entries|
    requires dir.entries[i].name != [46] && dir.entries[i].name != [46, 46]
    ensures AllUnder(prefix, dir, n) == a + All(prefix + dir.entries[i].name, dir.entries[i].node) + b
    ensures a == AllUnder(prefix, dir, i)
    decreases n
  {
    hide All;
    if i == n - 1 {
      a, b := AllUnder(prefix, dir, i), [];
    } else {
      a, b := InOrder(prefix, dir, n - 1, i);
      b := b + Each(prefix, dir.entries[n - 1]);
    }
  }

  // -- Once per node ---------------------------------------------------------------------

  /** The files and directories of a tree, and the directories that cannot be read. */
  function Size(node: Node): nat
    decreases node, 1, 0
  {
    1 + if node.Dir? && node.readable then SizeUnder(node, |node.entries|) else 0
  }

  function SizeUnder(dir: Node, n: nat): nat
    requires dir.Dir? && n <= |dir.entries|
    decreases dir, 0, n
  {
    if n == 0 then 0 else SizeUnder(dir, n - 1) + if IsDot(dir.entries[n - 1].name) then 0
        else Size(dir.entries[n - 1].node)
  }

  function Unreadable(node: Node): nat
    decreases node, 1, 0
  {
    if !node.Dir? then 0 else if !node.readable then 1 else UnreadableUnder(node, |node.entries|)
  }

  function UnreadableUnder(dir: Node, n: nat): nat
    requires dir.Dir? && n <= |dir.entries|
    decreases dir, 0, n
  {
    if n == 0 then 0
    else UnreadableUnder(dir, n - 1) + if IsDot(dir.entries[n - 1].name) then 0 else Unreadable(dir.entries[n - 1].node)
  }

  /** func is called once for each node, and a second time for a directory that cannot be
      read: once for every node exactly when there is no such directory. */
  lemma {:induction false} CallsCounted(path: CString, node: Node)
    ensures |All(path, node)| == Size(node) + Unreadable(node)
    ensures |All(path, node)| == Size(node) <==> Unreadable(node) == 0
    decreases node, 1, 0
  {
    if node.Dir? && node.readable { UnderCounted(path + [SLASH], node, |node.entries|); }
  }

  lemma {:induction false} UnderCounted(prefix: CString, dir: Node, n: nat)
    requires dir.Dir? && n <= |dir.entries|
    ensures |AllUnder(prefix, dir, n)| == SizeUnder(dir, n) + UnreadableUnder(dir, n)
    decreases dir, 0, n
  {
    if n > 0 {
      var e := dir.entries[n - 1];
      UnderCounted(prefix, dir, n - 1);
      CallsCounted(prefix + e.name, e.node);
    }
  }

  /** Names as a directory has them: none empty, none with a slash, no two the same. */
  predicate Proper(node: Node) {
    node.Dir? ==>
      && (forall i :: 0 <= i < |node.entries| ==>
            node.entries[i].name != [] && SLASH !in node.entries[i].name && Proper(node.entries[i].node))
      && (forall i, j :: 0 <= i < j < |node.entries| ==> node.entries[i].name != node.entries[j].name)
  }

  /** `p` is `q` or lies below it. */
  predicate Starts(p: bytes, q: bytes) { p == q || q + [SLASH] <= p }

  lemma StartsShorter(p: bytes, q: bytes, prefix: bytes)
    requires Starts(p, prefix + q)
    ensures prefix <= p && (q != [] ==> |p| > |prefix|)
  {
    assert prefix <= prefix + q && prefix + q <= prefix + q + [SLASH];
  }

  lemma StartsUnique(p: bytes, prefix: bytes, a: bytes, b: bytes)
    requires Starts(p, prefix + a) && Starts(p, prefix + b) && SLASH !in a && SLASH !in b
    ensures a == b
  {
    var n := |prefix|;
    StartsShorter(p, a, prefix);
    forall i | 0 <= i < |a| ensures p[n + i] == a[i] { assert (prefix + a)[n + i] == a[i]; }
    forall i | 0 <= i < |b| ensures p[n + i] == b[i] { assert (prefix + b)[n + i] == b[i]; }
    if |a| < |b| { SlashAfter(p, prefix + a); }
    if |b| < |a| { SlashAfter(p, prefix + b); }
  }

  lemma Apart(p: bytes, q: bytes, prefix: bytes, a: bytes, b: bytes)
    requires Starts(p, prefix + a) && Starts(q, prefix + b) && SLASH !in a && SLASH !in b && a != b
    ensures p != q
  {
    if p == q { StartsUnique(p, prefix, a, b); }
  }

  lemma SlashAfter(p: bytes, q: bytes)
    requires Starts(p, q) && |p| > |q|
    ensures p[|q|] == SLASH
  {
    assert (q + [SLASH])[|q|] == SLASH;
  }

  /** Every path is that of the walk, or lies below it. */
  lemma {:induction false} PathsStart(path: CString, node: Node, i: nat)
    requires i < |All(path, node)|
    ensures Starts(All(path, node)[i].path, path)
    decreases node, 1, 0
  {
    if node.Dir? && node.readable && i > 0 {
      var p := AllUnder(path + [SLASH], node, |node.entries|)[i - 1].path;
      var m := UnderChild(path + [SLASH], node, |node.entries|, i - 1);
      StartsShorter(p, node.entries[m].name, path + [SLASH]);
    }
  }

  /** Every path below a directory starts with that of one of its entries. */
  lemma {:induction false} UnderChild(prefix: CString, dir: Node, n: nat, i: nat) returns (m: nat)
    requires dir.Dir? && n <= |dir.entries| && i < |AllUnder(prefix, dir, n)|
    ensures m < n && Starts(AllUnder(prefix, dir, n)[i].path, prefix + dir.entries[m].name)
    decreases dir, 0, n
  {
    var k := |AllUnder(prefix, dir, n - 1)|;
    if i < k {
      m := UnderChild(prefix, dir, n - 1, i);
    } else {
      m := n - 1;
      PathsStart(prefix + dir.entries[m].name, dir.entries[m].node, i - k);
    }
  }

  /** The calls for a directory after the first. */
  function Below(path: CString, dir: Node): seq<Call>
    requires dir.Dir?
    ensures All(path, dir) == [Call(path, FTW_D)] + Below(path, dir)
  {
    if dir.readable then AllUnder(path + [SLASH], dir, |dir.entries|) else [Call(path + [SLASH], FTW_DNR)]
  }

  /** The calls for one entry of a directory. */
  function Each(prefix: CString, e: Entry): seq<Call> { if IsDot(e.name) then [] else All(prefix + e.name, e.node) }

  lemma UnderNext(prefix: CString, dir: Node, i: nat)
    requires dir.Dir? && i < |dir.entries|
    ensures AllUnder(prefix, dir, i + 1) == AllUnder(prefix, dir, i) + Each(prefix, dir.entries[i])
  {
  }

  lemma OneNode(path: CString, node: Node)
    ensures !node.Dir? ==> |All(path, node)| == 1
    ensures node.Dir? && !node.readable ==> Below(path, node) == [Call(path + [SLASH], FTW_DNR)]
    ensures node.Dir? && node.readable ==> Below(path, node) == AllUnder(path + [SLASH], node, |node.entries|)
  {
  }

  lemma ProperAt(dir: Node, m: nat, n: nat)
    requires dir.Dir? && Proper(dir) && m < |dir.entries| && n < |dir.entries|
    ensures dir.entries[m].name != [] && SLASH !in dir.entries[m].name && Proper(dir.entries[m].node)
    ensures SLASH !in dir.entries[n].name && Proper(dir.entries[n].node)
        && (m < n ==> dir.entries[m].name != dir.entries[n].name)
  {
  }

  predicate DistinctPaths(cs: seq<Call>) { forall i, j :: 0 <= i < j < |cs| ==> cs[i].path != cs[j].path }

  predicate Different(a: seq<Call>, b: seq<Call>) {
    forall i, j :: 0 <= i < |a| && 0 <= j < |b| ==> a[i].path != b[j].path
  }

  lemma DistinctJoin(a: seq<Call>, b: seq<Call>)
    requires DistinctPaths(a) && DistinctPaths(b) && Different(a, b)
    ensures DistinctPaths(a + b)
  {
  }

  /** No two calls have the same path. */
  lemma {:induction false} PathsDistinct(path: CString, node: Node)
    requires Proper(node)
    ensures DistinctPaths(All(path, node))
    decreases node, 1, 0
  {
    OneNode(path, node);
    hide All, AllUnder, Proper, Starts;
    if node.Dir? {
      var first, under := [Call(path, FTW_D)], Below(path, node);
      if node.readable { UnderDistinct(path + [SLASH], node, |node.entries|); }
      forall j | 0 <= j < |under| ensures path != under[j].path { UnderLonger(path, node, j); }
      DistinctJoin(first, under);
    }
  }

  lemma {:induction false} UnderLonger(path: CString, dir: Node, j: nat)
    requires dir.Dir? && j < |Below(path, dir)|
    ensures |Below(path, dir)[j].path| > |path|
  {
    OneNode(path, dir);
    hide All, AllUnder, Starts;
    if dir.readable {
      var m := UnderChild(path + [SLASH], dir, |dir.entries|, j);
      StartsShorter(Below(path, dir)[j].path, dir.entries[m].name, path + [SLASH]);
    }
  }

  lemma {:induction false} UnderDistinct(prefix: CString, dir: Node, n: nat)
    requires dir.Dir? && Proper(dir) && n <= |dir.entries|
    ensures DistinctPaths(AllUnder(prefix, dir, n))
    decreases dir, 0, n
  {
    hide All, AllUnder, Proper, Each, DistinctPaths, Different;
    if n == 0 {
      NoneDistinct(prefix, dir);
    } else {
      UnderNext(prefix, dir, n - 1);
      UnderDistinct(prefix, dir, n - 1);
      EachDistinct(prefix, dir, n - 1);
      UnderDifferent(prefix, dir, n - 1);
      DistinctJoin(AllUnder(prefix, dir, n - 1), Each(prefix, dir.entries[n - 1]));
    }
  }

  lemma NoneDistinct(prefix: CString, dir: Node)
    requires dir.Dir?
    ensures DistinctPaths(AllUnder(prefix, dir, 0))
  {
  }

  lemma {:induction false} EachDistinct(prefix: CString, dir: Node, m: nat)
    requires dir.Dir? && Proper(dir) && m < |dir.entries|
    ensures DistinctPaths(Each(prefix, dir.entries[m]))
    decreases dir, 0, m
  {
    hide All, Proper;
    var e := dir.entries[m];
    ProperAt(dir, m, m);
    if !IsDot(e.name) { PathsDistinct(prefix + e.name, e.node); }
  }

  lemma UnderDifferent(prefix: CString, dir: Node, n: nat)
    requires dir.Dir? && Proper(dir) && n < |dir.entries|
    ensures Different(AllUnder(prefix, dir, n), Each(prefix, dir.entries[n]))
  {
    hide All, AllUnder, Proper, Each;
    var a, b := AllUnder(prefix, dir, n), Each(prefix, dir.entries[n]);
    forall i, j | 0 <= i < |a| && 0 <= j < |b| ensures a[i].path != b[j].path { UnderCross(prefix, dir, n, i, j); }
  }

  /** Nor do two calls for different entries. */
  lemma {:induction false} UnderCross(prefix: CString, dir: Node, n: nat, i: nat, j: nat)
    requires dir.Dir? && Proper(dir) && n < |dir.entries| && i < |AllUnder(prefix, dir, n)|
        && j < |Each(prefix, dir.entries[n])|
    ensures AllUnder(prefix, dir, n)[i].path != Each(prefix, dir.entries[n])[j].path
  {
    hide All, AllUnder, Proper, Starts;
    var m := UnderChild(prefix, dir, n, i);
    ProperAt(dir, m, n);
    PathsStart(prefix + dir.entries[n].name, dir.entries[n].node, j);
    Apart(AllUnder(prefix, dir, n)[i].path, Each(prefix, dir.entries[n])[j].path, prefix, dir.entries[m].name,
        dir.entries[n].name);
  }

  // -- Room ------------------------------------------------------------------------------

  /** The buffer size after the test at line 97, for a string of length `n`. */
  function Enlarged(cap: nat, n: nat): nat { if n + NAME_MAX + 2 > cap then cap * 2 else cap }

  /** One doubling makes room for a slash, a name and a NUL whatever the length of the path
      exactly when the buffer is larger than NAME_MAX. */
  lemma DoublingEnough(cap: nat)
    ensures cap > NAME_MAX <==> cap > 0 && forall n: nat {:trigger Enlarged(cap, n)} ::
        n < cap ==> n + NAME_MAX + 2 <= Enlarged(cap, n)
  {
    if 0 < cap <= NAME_MAX { assert Enlarged(cap, cap - 1) < cap - 1 + NAME_MAX + 2; }
  }

  // -- The walk --------------------------------------------------------------------------

  lemma CStrIs(s: bytes, p: CString)
    requires |p| < |s| && s[..|p|] == p && s[|p|] == NUL
    ensures CStr(s) == p
  {
    assert s == p + [NUL] + s[|p| + 1..];
    FindFirst(p, NUL, s[|p| + 1..]);
  }

  class Walker {
    var fullpath: array<byte>
    var calls: seq<Call>
    const answer: nat -> int

    /** The buffer begins with `p` and has room for more. */
    ghost predicate Spells(p: CString)
      reads this, fullpath
    {
      fullpath.Length > NAME_MAX && |p| < fullpath.Length && fullpath[..|p|] == p
    }

    constructor (capacity: nat, answer: nat -> int)
      requires capacity > NAME_MAX
      ensures fresh(fullpath) && fullpath.Length == capacity && calls == [] && this.answer == answer
    {
      fullpath := new byte[capacity];
      calls := [];
      this.answer := answer;
    }

    /** A call of func with the buffer as its first argument. */
    method Func(what: Type, ghost p: CString) returns (r: int)
      requires Spells(p) && fullpath[|p|] == NUL
      modifies this`calls
      ensures calls == old(calls) + [Call(p, what)] && r == answer(old(|calls|))
    {
      CStrIs(fullpath[..], p);
      r := answer(|calls|);
      calls := calls + [Call(CStr(fullpath[..]), what)];
    }

    /** realloc to a larger size. */
    method Grow(size: nat)
      requires size >= fullpath.Length
      modifies this`fullpath
      ensures fresh(fullpath) && fullpath.Length == size
      ensures fullpath[..old(fullpath.Length)] == old(fullpath[..])
    {
      var from, f := fullpath, new byte[size];
      var i := 0;
      while i < from.Length
        invariant i <= from.Length && f[..i] == from[..i]
      {
        f[i] := from[i];
        i := i + 1;
      }
      fullpath := f;
    }

    /** strcpy(&fullpath[n], s) */
    method CopyAt(n: nat, s: CString)
      requires n + |s| < fullpath.Length
      modifies fullpath
      ensures fullpath[..n] == old(fullpath[..n]) && fullpath[n..n + |s|] == s && fullpath[n + |s|] == NUL
    {
      var i := 0;
      while i < |s|
        invariant i <= |s| && fullpath[..n] == old(fullpath[..n]) && fullpath[n..n + i] == s[..i]
      {
        fullpath[n + i] := s[i];
        i := i + 1;
      }
      fullpath[n + i] := NUL;
    }

    /** Lines 96-103: room for an entry, and the slash. */
    method AddSlash(ghost path: CString) returns (n: nat)
      requires Spells(path) && fullpath[|path|] == NUL
      modifies this`fullpath, fullpath
      ensures fresh(fullpath) || fullpath == old(fullpath)
      ensures Spells(path + [SLASH]) && fullpath[|path| + 1] == NUL && n == |path| + 1
      ensures n + NAME_MAX + 1 <= fullpath.Length && fullpath.Length >= old(fullpath.Length)
    {
      CStrIs(fullpath[..], path);
      n := |CStr(fullpath[..])|;
      DoublingEnough(fullpath.Length);
      ghost var before := fullpath[..];
      if n + NAME_MAX + 2 > fullpath.Length { Grow(fullpath.Length * 2); }
      assert fullpath[..n] == before[..n];
      fullpath[n] := SLASH;
      n := n + 1;
      fullpath[n] := NUL;
      assert fullpath[..n] == path + [SLASH];
    }

    /** dopath: makes the calls of the tree up to the first that returns other than 0, and
        leaves the path it was given at the front of the buffer. */
    method DoPath(node: Node, ghost path: CString) returns (ret: int)
      requires NamesFit(node) && Spells(path) && fullpath[|path|] == NUL
      modifies this`fullpath, this`calls, fullpath
      ensures fresh(fullpath) || fullpath == old(fullpath)
      ensures Spells(path) && fullpath.Length >= old(fullpath.Length)
      ensures calls == old(calls) + Made(All(path, node), answer, old(|calls|))
      ensures ret == Ret(|All(path, node)|, answer, old(|calls|))
      decreases node, 2
    {
      match node {
        case NoStat =>
          MadeOne(Call(path, FTW_NS), answer, |calls|);
          ret := Func(FTW_NS, path);
        case Leaf =>
          MadeOne(Call(path, FTW_F), answer, |calls|);
          ret := Func(FTW_F, path);
        case Dir(_, _) =>
          ret := Directory(node, path);
      }
    }

    method Directory(node: Node, ghost path: CString) returns (ret: int)
      requires node.Dir? && NamesFit(node) && Spells(path) && fullpath[|path|] == NUL
      modifies this`fullpath, this`calls, fullpath
      ensures fresh(fullpath) || fullpath == old(fullpath)
      ensures Spells(path) && fullpath.Length >= old(fullpath.Length)
      ensures calls == old(calls) + Made(All(path, node), answer, old(|calls|))
      ensures ret == Ret(|All(path, node)|, answer, old(|calls|))
      decreases node, 1
    {
      ghost var k, under := |calls|, Below(path, node);
      MadeOne(Call(path, FTW_D), answer, k);
      MadeJoin([Call(path, FTW_D)], under, answer, k);
      hide Made, Ret, All, NamesFit;
      ret := Func(FTW_D, path);
      if ret != 0 { return; }
      var n := AddSlash(path);
      ghost var prefix: CString := path + [SLASH];
      if !node.readable {
        MadeOne(Call(prefix, FTW_DNR), answer, |calls|);
        ret := Func(FTW_DNR, prefix);
      } else {
        ret := Entries(node, n, prefix);
        fullpath[n - 1] := NUL;
      }
      assert prefix[..|path|] == path;
    }

    /** Lines 108-115: the loop over the entries, each name going after the slash. */
    method Entries(dir: Node, n: nat, ghost prefix: CString) returns (ret: int)
      requires dir.Dir? && NamesFit(dir) && Spells(prefix) && n == |prefix| && n + NAME_MAX + 1 <= fullpath.Length
      modifies this`fullpath, this`calls, fullpath
      ensures fresh(fullpath) || fullpath == old(fullpath)
      ensures Spells(prefix) && fullpath.Length >= old(fullpath.Length)
      ensures calls == old(calls) + Made(AllUnder(prefix, dir, |dir.entries|), answer, old(|calls|))
      ensures ret == Ret(|AllUnder(prefix, dir, |dir.entries|)|, answer, old(|calls|))
      decreases dir, 0, 1
    {
      hide Made, Ret, All, AllUnder, Each;
      ret := 0;
      ghost var k := |calls|;
      var i := 0;
      MadeNone(prefix, dir, answer, k);
      while i < |dir.entries|
        invariant i <= |dir.entries| && ret == 0
        invariant fresh(fullpath) || fullpath == old(fullpath)
        invariant Spells(prefix) && fullpath.Length >= old(fullpath.Length)
        invariant Ret(|AllUnder(prefix, dir, i)|, answer, k) == 0
        invariant calls == old(calls) + AllUnder(prefix, dir, i)
      {
        ghost var before, each := AllUnder(prefix, dir, i), Each(prefix, dir.entries[i]);
        UnderNext(prefix, dir, i);
        MadeJoin(before, each, answer, k);
        MadeAll(each, answer, |calls|);
        ret := OneEntry(dir, i, n, prefix);
        if ret != 0 {
          MadeStops(prefix, dir, i + 1, |dir.entries|, answer, k);
          return;
        }
        i := i + 1;
      }
      MadeAll(AllUnder(prefix, dir, i), answer, k);
    }

    method OneEntry(dir: Node, i: nat, n: nat, ghost prefix: CString) returns (ret: int)
      requires dir.Dir? && i < |dir.entries|
      requires NamesFit(dir) && Spells(prefix) && n == |prefix| && n + NAME_MAX + 1 <= fullpath.Length
      modifies this`fullpath, this`calls, fullpath
      ensures fresh(fullpath) || fullpath == old(fullpath)
      ensures Spells(prefix) && fullpath.Length >= old(fullpath.Length)
      ensures calls == old(calls) + Made(Each(prefix, dir.entries[i]), answer, old(|calls|))
      ensures ret == Ret(|Each(prefix, dir.entries[i])|, answer, old(|calls|))
      decreases dir, 0, 0
    {
      var e := dir.entries[i];
      if IsDot(e.name) { return 0; }
      CopyAt(n, e.name);
      assert fullpath[..n + |e.name|] == prefix + e.name;
      ret := DoPath(e.node, prefix + e.name);
      assert (prefix + e.name)[..n] == prefix;
    }
  }

  lemma MadeNone(prefix: CString, dir: Node, answer: nat -> int, k: nat)
    requires dir.Dir?
    ensures AllUnder(prefix, dir, 0) == [] && Ret(0, answer, k) == 0
  {
  }

  lemma MadeAll(cs: seq<Call>, answer: nat -> int, k: nat)
    ensures Ret(|cs|, answer, k) == 0 ==> Made(cs, answer, k) == cs
  {
    StepsJoin(|cs|, 0, answer, k);
  }

  lemma MadeOne(c: Call, answer: nat -> int, k: nat)
    ensures Made([c], answer, k) == [c] && Ret(1, answer, k) == answer(k)
  {
  }

  /** Once a call among the first `i` entries ends the walk, later entries add nothing. */
  lemma {:induction false} MadeStops(prefix: CString, dir: Node, i: nat, n: nat, answer: nat -> int, k: nat)
    requires dir.Dir? && i <= n <= |dir.entries| && Ret(|AllUnder(prefix, dir, i)|, answer, k) != 0
    ensures Made(AllUnder(prefix, dir, n), answer, k) == Made(AllUnder(prefix, dir, i), answer, k)
    ensures Ret(|AllUnder(prefix, dir, n)|, answer, k) == Ret(|AllUnder(prefix, dir, i)|, answer, k)
    decreases n - i
  {
    hide Made, Ret, All, AllUnder, Each;
    if i < n {
      MadeStops(prefix, dir, i, n - 1, answer, k);
      UnderNext(prefix, dir, n - 1);
      MadeJoin(AllUnder(prefix, dir, n - 1), Each(prefix, dir.entries[n - 1]), answer, k);
    }
  }

  /** myftw: whatever the length of the starting path, its buffer is large enough. */
  method MyFtw(pathname: CString, node: Node, capacity: nat, answer: nat -> int) returns (calls: seq<Call>, ret: int)
    requires capacity > NAME_MAX && NamesFit(node)
    ensures calls == Made(All(pathname, node), answer, 0) && ret == Ret(|All(pathname, node)|, answer, 0)
  {
    var w := new Walker(if capacity <= |pathname| then |pathname| * 2 else capacity, answer);
    w.CopyAt(0, pathname);
    assert w.fullpath[..|pathname|] == w.fullpath[0..0 + |pathname|];
    ret := w.DoPath(node, pathname);
    calls := w.calls;
  }
}

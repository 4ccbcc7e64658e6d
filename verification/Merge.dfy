/** threads/barrier.c: workers sort the segments of one array, and when all have passed
    the barrier the segments are merged. Segment count and size are parameters. */
module Merge {

  const LONG_MAX := 0x7fff_ffff_ffff_ffff

  predicate Sorted(s: seq<int>) { forall i, j :: 0 <= i <= j < |s| ==> s[i] <= s[j] }

  // -- Segments --------------------------------------------------------------------------

  /** Where segment `i` of segments of length `t` begins. */
  function Lo(t: nat, i: nat): nat { i * t }

  lemma LoNext(t: nat, i: nat)
    ensures Lo(t, i + 1) == Lo(t, i) + t
  {
  }

  lemma LoMono(t: nat, i: nat, j: nat)
    requires i <= j
    ensures Lo(t, i) <= Lo(t, j)
  {
    assert j * t == i * t + (j - i) * t;
  }

  function Segment(s: seq<int>, t: nat, i: nat): (r: seq<int>)
    requires Lo(t, i) + t <= |s|
    ensures |r| == t
  {
    s[Lo(t, i)..Lo(t, i) + t]
  }

  lemma SegmentsFit(t: nat, i: nat, n: nat)
    requires i < n
    ensures Lo(t, i) + t <= Lo(t, n)
  {
    LoNext(t, i);
    LoMono(t, i + 1, n);
  }

  // -- The workers -----------------------------------------------------------------------

  function Insert(x: int, s: seq<int>): (r: seq<int>)
    requires Sorted(s)
    ensures Sorted(r) && multiset(r) == multiset(s) + multiset{x} && |r| == |s| + 1
  {
    if s == [] then [x]
    else if x <= s[0] then [x] + s
    else
      assert s == [s[0]] + s[1..];
      var r := [s[0]] + Insert(x, s[1..]);
      InsertSorted(x, s, Insert(x, s[1..]));
      r
  }

  lemma InsertSorted(x: int, s: seq<int>, r: seq<int>)
    requires s != [] && Sorted(s) && s[0] < x && Sorted(r) && multiset(r) == multiset(s[1..]) + multiset{x}
    ensures Sorted([s[0]] + r)
  {
    forall k | 0 <= k < |r| ensures s[0] <= r[k] {
      assert r[k] in multiset(r);
      assert r[k] == x || r[k] in s[1..];
    }
  }

  /** What heapsort promises: the same numbers, in order. */
  function Sort(s: seq<int>): (r: seq<int>)
    ensures Sorted(r) && multiset(r) == multiset(s) && |r| == |s|
  {
    if s == [] then [] else assert s == s[..|s| - 1] + [s[|s| - 1]]; Insert(s[|s| - 1], Sort(s[..|s| - 1]))
  }

  /** `r` written over `s` at `lo`. */
  function Splice(s: seq<int>, lo: nat, r: seq<int>): (s': seq<int>)
    requires lo + |r| <= |s|
    ensures |s'| == |s|
  {
    s[..lo] + r + s[lo + |r|..]
  }

  /** One worker: its own segment is sorted in place, the rest is untouched. */
  method SortSegment(nums: array<int>, lo: nat, t: nat)
    requires lo + t <= nums.Length
    modifies nums
    ensures nums[..] == Splice(old(nums[..]), lo, Sort(old(nums[..])[lo..lo + t]))
  {
    hide Sort, Sorted, Splice;
    ghost var s := nums[..];
    var r := Sort(nums[..][lo..lo + t]);
    var k := 0;
    while k < t
      invariant k <= t
      invariant forall i :: 0 <= i < k ==> nums[lo + i] == r[i]
      invariant forall i :: 0 <= i < nums.Length && !(lo <= i < lo + k) ==> nums[i] == s[i]
    {
      nums[lo + k] := r[k];
      k := k + 1;
    }
    Spliced(s, nums[..], lo, r);
  }

  lemma Spliced(s: seq<int>, s': seq<int>, lo: nat, r: seq<int>)
    requires |s'| == |s| && lo + |r| <= |s|
    requires forall i :: 0 <= i < |r| ==> s'[lo + i] == r[i]
    requires forall i :: 0 <= i < |s| && !(lo <= i < lo + |r|) ==> s'[i] == s[i]
    ensures s' == Splice(s, lo, r)
  {
    var e := Splice(s, lo, r);
    forall i | 0 <= i < |s| ensures s'[i] == e[i] {
      if lo <= i < lo + |r| { assert s'[lo + (i - lo)] == r[i - lo]; }
    }
  }

  predicate IsOrder(order: seq<nat>, n: nat) {
    (forall k :: 0 <= k < |order| ==> order[k] < n) && forall i :: 0 <= i < n ==> i in order
  }

  predicate SegmentSorted(s: seq<int>, t: nat, i: nat) {
    Lo(t, i) + t <= |s| && Sorted(Segment(s, t, i))
  }

  lemma OtherSegment(s: seq<int>, r: seq<int>, s': seq<int>, t: nat, i: nat, j: nat, n: nat)
    requires i < n && j < n && i != j && |s| == Lo(t, n) && |r| == t && Lo(t, i) + t <= |s|
    requires s' == Splice(s, Lo(t, i), r)
    ensures SegmentSorted(s', t, j) == SegmentSorted(s, t, j)
    ensures Lo(t, j) + t <= |s| == |s'| && Segment(s', t, j) == Segment(s, t, j)
  {
    SegmentsFit(t, j, n);
    if i < j { SegmentsFit(t, i, j); } else { SegmentsFit(t, j, i); }
    hide Lo;
    assert Segment(s', t, j) == Segment(s, t, j);
  }

  lemma SortedOne(s: seq<int>, s': seq<int>, t: nat, i: nat)
    requires Lo(t, i) + t <= |s| && s' == Splice(s, Lo(t, i), Sort(Segment(s, t, i)))
    ensures multiset(s') == multiset(s) && SegmentSorted(s', t, i)
    ensures |s'| == |s| && multiset(Segment(s', t, i)) == multiset(Segment(s, t, i))
  {
    hide Sort, Lo;
    var a, g, c := s[..Lo(t, i)], Segment(s, t, i), s[Lo(t, i) + t..];
    assert s == a + g + c;
    assert Segment(s', t, i) == Sort(g);
  }

  /** The segments named in `done` are sorted and no number is lost. */
  predicate Progress(s0: seq<int>, s: seq<int>, t: nat, done: seq<nat>) {
    && |s| == |s0| && multiset(s) == multiset(s0)
    && (forall k :: 0 <= k < |done| ==> SegmentSorted(s, t, done[k]))
  }

  /** Each segment keeps its own numbers. */
  predicate OwnNumbers(s0: seq<int>, s: seq<int>, t: nat, n: nat) {
    |s| == |s0| && forall i :: 0 <= i < n ==> SegmentKept(s0, s, t, i)
  }

  predicate SegmentKept(s0: seq<int>, s: seq<int>, t: nat, i: nat) {
    |s| == |s0| && Lo(t, i) + t <= |s| && multiset(Segment(s, t, i)) == multiset(Segment(s0, t, i))
  }

  lemma ProgressNext(s0: seq<int>, s: seq<int>, s': seq<int>, t: nat, n: nat, done: seq<nat>, i: nat)
    requires Progress(s0, s, t, done) && |s| == Lo(t, n) && i < n && forall k :: 0 <= k < |done| ==> done[k] < n
    requires Lo(t, i) + t <= |s| && s' == Splice(s, Lo(t, i), Sort(Segment(s, t, i)))
    ensures Progress(s0, s', t, done + [i])
  {
    hide Lo, Sort, Sorted, Splice, SegmentSorted;
    SortedOne(s, s', t, i);
    var d := done + [i];
    forall k | 0 <= k < |d| ensures SegmentSorted(s', t, d[k]) {
      if d[k] != i {
        assert d[k] == done[k];
        OtherSegment(s, Sort(Segment(s, t, i)), s', t, i, d[k], n);
      }
    }
  }

  lemma OwnNext(s0: seq<int>, s: seq<int>, s': seq<int>, t: nat, n: nat, i: nat)
    requires OwnNumbers(s0, s, t, n) && |s| == Lo(t, n) && i < n
    requires Lo(t, i) + t <= |s| && s' == Splice(s, Lo(t, i), Sort(Segment(s, t, i)))
    ensures OwnNumbers(s0, s', t, n)
  {
    hide Lo, Sort, Sorted, Splice, SegmentSorted;
    SortedOne(s, s', t, i);
    forall j | 0 <= j < n ensures SegmentKept(s0, s', t, j) {
      assert SegmentKept(s0, s, t, j);
      if j != i { OtherSegment(s, Sort(Segment(s, t, i)), s', t, i, j, n); }
    }
  }

  lemma OwnStart(s: seq<int>, t: nat, n: nat)
    requires |s| == Lo(t, n)
    ensures OwnNumbers(s, s, t, n)
  {
    forall i | 0 <= i < n ensures SegmentKept(s, s, t, i) { SegmentsFit(t, i, n); }
  }

  /** All workers, finishing in any order: every segment has its own numbers, sorted. */
  method SortSegments(nums: array<int>, t: nat, n: nat, order: seq<nat>)
    requires nums.Length == Lo(t, n) && IsOrder(order, n)
    modifies nums
    ensures multiset(nums[..]) == multiset(old(nums[..])) && OwnNumbers(old(nums[..]), nums[..], t, n)
    ensures forall i :: 0 <= i < n ==> SegmentSorted(nums[..], t, i)
  {
    hide OwnNumbers, Progress, Sort, Splice, Lo, SegmentSorted;
    ghost var s0 := nums[..];
    var k := 0;
    ProgressStart(s0, t);
    OwnStart(s0, t, n);
    while k < |order|
      invariant k <= |order| && Progress(s0, nums[..], t, order[..k]) && OwnNumbers(s0, nums[..], t, n)
    {
      ghost var s := nums[..];
      var i := order[k];
      SegmentsFit(t, i, n);
      SortSegment(nums, Lo(t, i), t);
      ProgressNext(s0, s, nums[..], t, n, order[..k], i);
      OwnNext(s0, s, nums[..], t, n, i);
      assert order[..k] + [i] == order[..k + 1];
      k := k + 1;
    }
    assert order[..k] == order;
    ProgressDone(s0, nums[..], t, n, order);
  }

  lemma ProgressStart(s: seq<int>, t: nat)
    ensures Progress(s, s, t, [])
  {
  }

  lemma ProgressDone(s0: seq<int>, s: seq<int>, t: nat, n: nat, order: seq<nat>)
    requires Progress(s0, s, t, order) && IsOrder(order, n)
    ensures multiset(s) == multiset(s0) && forall i :: 0 <= i < n ==> SegmentSorted(s, t, i)
  {
    hide SegmentSorted;
    forall i | 0 <= i < n ensures SegmentSorted(s, t, i) {
      assert i in order;
      var k :| 0 <= k < |order| && order[k] == i;
    }
  }

  // -- Merging ---------------------------------------------------------------------------

  /** `idx[i]` is within segment `i`, or at its end. */
  predicate CursorOk(s: seq<int>, t: nat, idx: seq<nat>, i: nat)
    requires i < |idx|
  {
    Lo(t, i) <= idx[i] <= Lo(t, i) + t <= |s|
  }

  predicate Cursors(s: seq<int>, t: nat, idx: seq<nat>) {
    && |s| == Lo(t, |idx|)
    && forall i {:trigger CursorOk(s, t, idx, i)} :: 0 <= i < |idx| ==> CursorOk(s, t, idx, i)
  }

  /** Segment `i` has numbers left. */
  predicate Open(s: seq<int>, t: nat, idx: seq<nat>, i: nat)
    requires i < |idx|
  {
    CursorOk(s, t, idx, i) && idx[i] < Lo(t, i) + t
  }

  /** The numbers that segment `i` has given up. */
  ghost function Part(s: seq<int>, t: nat, idx: seq<nat>, i: nat): (m: multiset<int>)
    requires i < |idx| && CursorOk(s, t, idx, i)
  {
    multiset(s[Lo(t, i)..idx[i]])
  }

  /** The numbers before the cursors of the first `k` segments. */
  ghost function Taken(s: seq<int>, t: nat, idx: seq<nat>, k: nat): multiset<int>
    requires Cursors(s, t, idx) && k <= |idx|
  {
    if k == 0 then multiset{} else assert CursorOk(s, t, idx, k - 1); Taken(s, t, idx, k - 1) + Part(s, t, idx, k - 1)
  }

  lemma PartNext(s: seq<int>, t: nat, idx: seq<nat>, m: nat, i: nat)
    requires i < |idx| && CursorOk(s, t, idx, i) && m < |idx| && Open(s, t, idx, m)
    ensures CursorOk(s, t, idx[m := idx[m] + 1], i)
    ensures Part(s, t, idx[m := idx[m] + 1], i) == Part(s, t, idx, i) + (if m == i then multiset{s[idx[m]]}
        else multiset{})
  {
    hide Lo;
    var l := Lo(t, i);
    if m == i { assert s[l..idx[m] + 1] == s[l..idx[m]] + [s[idx[m]]]; }
  }

  lemma CursorsNext(s: seq<int>, t: nat, idx: seq<nat>, m: nat)
    requires Cursors(s, t, idx) && m < |idx| && Open(s, t, idx, m)
    ensures Cursors(s, t, idx[m := idx[m] + 1])
  {
    hide Lo;
    var idx' := idx[m := idx[m] + 1];
    forall i | 0 <= i < |idx| ensures CursorOk(s, t, idx', i) { assert CursorOk(s, t, idx, i); }
  }

  lemma Swap(a: multiset<int>, b: multiset<int>, c: multiset<int>)
    ensures (a + c) + b == (a + b) + c && a + (b + c) == (a + b) + c
  {
  }

  lemma TakenMore(s: seq<int>, t: nat, idx: seq<nat>, k: nat)
    requires Cursors(s, t, idx) && k < |idx| && CursorOk(s, t, idx, k)
    ensures Taken(s, t, idx, k + 1) == Taken(s, t, idx, k) + Part(s, t, idx, k)
  {
    hide Lo, Part;
  }

  lemma {:induction false} TakenNext(s: seq<int>, t: nat, idx: seq<nat>, idx': seq<nat>, m: nat, k: nat)
    requires Cursors(s, t, idx) && k <= |idx| && m < |idx| && Open(s, t, idx, m)
    requires idx' == idx[m := idx[m] + 1] && Cursors(s, t, idx')
    ensures Taken(s, t, idx', k) == Taken(s, t, idx, k) + (if m < k then multiset{s[idx[m]]} else multiset{})
  {
    if k > 0 {
      assert CursorOk(s, t, idx, k - 1) && CursorOk(s, t, idx', k - 1);
      hide Lo, Part, Taken, Cursors, CursorOk, Open;
      TakenNext(s, t, idx, idx', m, k - 1);
      PartNext(s, t, idx, m, k - 1);
      TakenMore(s, t, idx, k - 1);
      TakenMore(s, t, idx', k - 1);
      Swap(Taken(s, t, idx, k - 1), Part(s, t, idx, k - 1), multiset{s[idx[m]]});
    }
  }

  lemma {:induction false} TakenNone(s: seq<int>, t: nat, idx: seq<nat>, k: nat)
    requires Cursors(s, t, idx) && k <= |idx| && forall i :: 0 <= i < |idx| ==> idx[i] == Lo(t, i)
    ensures Taken(s, t, idx, k) == multiset{}
  {
    if k > 0 {
      assert CursorOk(s, t, idx, k - 1);
      hide Cursors, Taken, Lo;
      TakenNone(s, t, idx, k - 1);
      TakenMore(s, t, idx, k - 1);
    }
  }

  /** How many numbers the first `k` segments have given up. */
  function Passed(t: nat, idx: seq<nat>, k: nat): int
    requires k <= |idx|
  {
    if k == 0 then 0 else Passed(t, idx, k - 1) + idx[k - 1] - Lo(t, k - 1)
  }

  lemma {:induction false} TakenSize(s: seq<int>, t: nat, idx: seq<nat>, k: nat)
    requires Cursors(s, t, idx) && k <= |idx|
    ensures |Taken(s, t, idx, k)| == Passed(t, idx, k)
  {
    if k > 0 {
      assert CursorOk(s, t, idx, k - 1);
      hide Lo, Cursors;
      TakenSize(s, t, idx, k - 1);
      assert |Part(s, t, idx, k - 1)| == idx[k - 1] - Lo(t, k - 1);
    }
  }

  lemma {:induction false} PassedBound(s: seq<int>, t: nat, idx: seq<nat>, k: nat)
    requires Cursors(s, t, idx) && k <= |idx|
    ensures Passed(t, idx, k) <= Lo(t, k)
  {
    if k > 0 {
      assert CursorOk(s, t, idx, k - 1);
      hide Cursors;
      PassedBound(s, t, idx, k - 1);
      LoNext(t, k - 1);
    }
  }

  /** While a segment is not used up, not everything is taken. */
  lemma {:induction false} PassedShort(s: seq<int>, t: nat, idx: seq<nat>, k: nat, i: nat)
    requires Cursors(s, t, idx) && i < k <= |idx| && Open(s, t, idx, i)
    ensures Passed(t, idx, k) < Lo(t, k)
  {
    assert CursorOk(s, t, idx, k - 1);
    hide Cursors;
    LoNext(t, k - 1);
    if i == k - 1 { PassedBound(s, t, idx, k - 1); } else { PassedShort(s, t, idx, k - 1, i); }
  }

  lemma {:induction false} TakenAll(s: seq<int>, t: nat, idx: seq<nat>, k: nat)
    requires Cursors(s, t, idx) && k <= |idx| && forall i :: 0 <= i < |idx| ==> !Open(s, t, idx, i)
    ensures Lo(t, k) <= |s| && Taken(s, t, idx, k) == multiset(s[..Lo(t, k)])
  {
    hide Cursors, Lo, Taken, Part, Open, CursorOk;
    LoMono(t, k, |idx|);
    AtEnd(s, t, idx);
    if k > 0 {
      CursorAt(s, t, idx, k - 1);
      PartFull(s, t, idx, k - 1);
      TakenAll(s, t, idx, k - 1);
      TakenMore(s, t, idx, k - 1);
      LoNext(t, k - 1);
      Joined(s, Lo(t, k - 1), t);
    }
  }

  lemma AtEnd(s: seq<int>, t: nat, idx: seq<nat>)
    requires Cursors(s, t, idx)
    ensures |s| == Lo(t, |idx|) && Lo(t, 0) == 0 && Taken(s, t, idx, 0) == multiset{}
  {
  }

  lemma CursorAt(s: seq<int>, t: nat, idx: seq<nat>, i: nat)
    requires Cursors(s, t, idx) && i < |idx|
    ensures CursorOk(s, t, idx, i)
  {
  }

  lemma PartFull(s: seq<int>, t: nat, idx: seq<nat>, i: nat)
    requires i < |idx| && CursorOk(s, t, idx, i) && !Open(s, t, idx, i)
    ensures Lo(t, i) + t <= |s| && Part(s, t, idx, i) == multiset(s[Lo(t, i)..Lo(t, i) + t])
  {
    hide Lo;
  }

  lemma Joined(s: seq<int>, l: nat, t: nat)
    requires l + t <= |s|
    ensures multiset(s[..l + t]) == multiset(s[..l]) + multiset(s[l..l + t])
  {
    assert s[..l + t] == s[..l] + s[l..l + t];
  }

  /** The first segment with the smallest number at its cursor, if that is below LONG_MAX. */
  predicate Least(s: seq<int>, t: nat, idx: seq<nat>, m: nat) {
    && m < |idx| && Open(s, t, idx, m) && s[idx[m]] < LONG_MAX
    && (forall i :: 0 <= i < |idx| && Open(s, t, idx, i) ==> s[idx[m]] <= s[idx[i]])
    && (forall i :: 0 <= i < m && Open(s, t, idx, i) ==> s[idx[m]] < s[idx[i]])
  }

  /** `idx[i]` is in segment `i` or beyond. */
  predicate StartOk(s: seq<int>, t: nat, idx: seq<nat>, i: nat)
    requires i < |idx|
  {
    Lo(t, i) <= idx[i] && Lo(t, i) + t <= |s|
  }

  ghost predicate Scannable(s: seq<int>, t: nat, idx: seq<nat>) {
    forall i {:trigger StartOk(s, t, idx, i)} :: 0 <= i < |idx| ==> StartOk(s, t, idx, i)
  }

  /** Every number at a cursor is LONG_MAX. */
  predicate AtMax(s: seq<int>, t: nat, idx: seq<nat>) {
    forall i :: 0 <= i < |idx| && Open(s, t, idx, i) ==> s[idx[i]] >= LONG_MAX
  }

  /** The scan for it; it can only see numbers below LONG_MAX, and otherwise leaves minidx
      as it was. */
  method Smallest(nums: array<int>, t: nat, idx: seq<nat>, before: nat) returns (found: bool, minidx: nat)
    requires Scannable(nums[..], t, idx)
    ensures found ==> Least(nums[..], t, idx, minidx)
    ensures !found ==> minidx == before && AtMax(nums[..], t, idx)
  {
    hide Lo;
    var num := LONG_MAX;
    found, minidx := false, before;
    var i := 0;
    while i < |idx|
      invariant i <= |idx|
      invariant found ==> minidx < i && Open(nums[..], t, idx, minidx) && nums[idx[minidx]] == num < LONG_MAX
      invariant !found ==> num == LONG_MAX && minidx == before
      invariant forall j :: 0 <= j < i && Open(nums[..], t, idx, j) ==> num <= nums[idx[j]]
      invariant found ==> forall j :: 0 <= j < minidx && Open(nums[..], t, idx, j) ==> num < nums[idx[j]]
    {
      assert StartOk(nums[..], t, idx, i);
      if idx[i] < Lo(t, i) + t && nums[idx[i]] < num {
        num, minidx, found := nums[idx[i]], i, true;
      }
      i := i + 1;
    }
  }

  /** No number before a cursor exceeds one at or after a cursor. */
  predicate Below(x: seq<int>, s: seq<int>, t: nat, idx: seq<nat>) {
    forall j, i :: 0 <= j < |x| && 0 <= i < |idx| && Open(s, t, idx, i) ==> x[j] <= s[idx[i]]
  }

  lemma BelowNext(x: seq<int>, s: seq<int>, t: nat, idx: seq<nat>, m: nat)
    requires Below(x, s, t, idx) && Least(s, t, idx, m) && SegmentSorted(s, t, m)
    ensures Below(x + [s[idx[m]]], s, t, idx[m := idx[m] + 1])
  {
    hide Lo;
    var idx', g := idx[m := idx[m] + 1], Segment(s, t, m);
    assert g[idx[m] - Lo(t, m)] == s[idx[m]];
    assert idx'[m] < Lo(t, m) + t ==> g[idx'[m] - Lo(t, m)] == s[idx'[m]];
    forall j, i | 0 <= j < |x| + 1 && 0 <= i < |idx| && Open(s, t, idx', i) ensures (x + [s[idx[m]]])[j] <= s[idx'[i]] {
      assert i != m ==> Open(s, t, idx, i);
    }
  }

  /** `x` is what the cursors have passed, merged. */
  ghost predicate Merged(x: seq<int>, s: seq<int>, t: nat, idx: seq<nat>) {
    && Cursors(s, t, idx) && multiset(x) == Taken(s, t, idx, |idx|)
    && Sorted(x) && Below(x, s, t, idx) && forall j :: 0 <= j < |x| ==> x[j] < LONG_MAX
  }

  lemma MergedStart(s: seq<int>, t: nat, idx: seq<nat>)
    requires |s| == Lo(t, |idx|) && forall i :: 0 <= i < |idx| ==> idx[i] == Lo(t, i)
    ensures Merged([], s, t, idx)
  {
    forall i | 0 <= i < |idx| ensures CursorOk(s, t, idx, i) { SegmentsFit(t, i, |idx|); }
    TakenNone(s, t, idx, |idx|);
  }

  lemma MergedNext(x: seq<int>, s: seq<int>, t: nat, idx: seq<nat>, m: nat)
    requires Merged(x, s, t, idx) && Least(s, t, idx, m) && SegmentSorted(s, t, m)
    ensures Merged(x + [s[idx[m]]], s, t, idx[m := idx[m] + 1])
  {
    hide Lo, Cursors, Taken, CursorOk, SegmentSorted;
    var idx' := idx[m := idx[m] + 1];
    CursorsNext(s, t, idx, m);
    TakenNext(s, t, idx, idx', m, |idx|);
    BelowNext(x, s, t, idx, m);
    hide Below;
    LastSorted(x, s, t, idx, m);
  }

  lemma LastSorted(x: seq<int>, s: seq<int>, t: nat, idx: seq<nat>, m: nat)
    requires Sorted(x) && Below(x, s, t, idx) && m < |idx| && Open(s, t, idx, m)
    ensures Sorted(x + [s[idx[m]]])
  {
    hide Lo;
  }

  /** The cursors are at the end exactly when everything is merged. */
  lemma MergedAll(x: seq<int>, s: seq<int>, t: nat, idx: seq<nat>)
    requires Merged(x, s, t, idx)
    ensures |x| <= |s|
    ensures |x| == |s| ==> multiset(x) == multiset(s) && forall k :: 0 <= k < |s| ==> s[k] < LONG_MAX
    ensures |x| < |s| ==> exists i :: 0 <= i < |idx| && Open(s, t, idx, i)
  {
    assert |multiset(x)| == |x|;
    TakenSize(s, t, idx, |idx|);
    PassedBound(s, t, idx, |idx|);
    if i :| 0 <= i < |idx| && Open(s, t, idx, i) {
      PassedShort(s, t, idx, |idx|, i);
    } else {
      TakenAll(s, t, idx, |idx|);
      assert s[..|s|] == s;
      assert |multiset(s)| == |s|;
      SameBound(x, s, LONG_MAX);
    }
  }

  lemma SameBound(a: seq<int>, b: seq<int>, m: int)
    requires multiset(a) == multiset(b)
    ensures (forall k :: 0 <= k < |a| ==> a[k] < m) <==> forall k :: 0 <= k < |b| ==> b[k] < m
  {
    forall x ensures x in a <==> x in b { assert x in multiset(a) <==> x in multiset(b); }
    if forall k :: 0 <= k < |a| ==> a[k] < m {
      forall k | 0 <= k < |b| ensures b[k] < m { assert b[k] in a; }
    }
    if forall k :: 0 <= k < |b| ==> b[k] < m {
      forall k | 0 <= k < |a| ensures a[k] < m { assert a[k] in b; }
    }
  }
}

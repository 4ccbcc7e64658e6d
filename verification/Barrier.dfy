/** The merge of threads/barrier.c as it runs: when every number at a cursor is LONG_MAX the
    scan finds nothing and the loop goes on with the segment that it took from last. */
module Barrier {
  import opened Merge

  // -- The segment taken last ------------------------------------------------------------

  /** Number `v` of segment `i` is taken no later than `w` of segment `m`. */
  predicate NoLater(v: int, i: nat, w: int, m: nat) { v < w || (v == w && i <= m) }

  predicate PassedOk(s: seq<int>, t: nat, idx: seq<nat>, i: nat, p: nat, w: int, m: nat) {
    i < |idx| && Lo(t, i) <= p < idx[i] <= |s| ==> NoLater(s[p], i, w, m)
  }

  predicate AheadOk(s: seq<int>, t: nat, idx: seq<nat>, i: nat, w: int, m: nat) {
    i < |idx| && Open(s, t, idx, i) ==> NoLater(w, m, s[idx[i]], i)
  }

  /** Segment `m` was the last to give up a number: that number comes after all others that
      are passed, and before all that are ahead, counting equal numbers by segment. */
  ghost predicate Led(s: seq<int>, t: nat, idx: seq<nat>, m: nat) {
    && m < |idx| && Lo(t, m) < idx[m] <= |s| && s[idx[m] - 1] < LONG_MAX
    && (forall i, p {:trigger PassedOk(s, t, idx, i, p, s[idx[m] - 1], m)} :: PassedOk(s, t, idx, i, p, s[idx[m] - 1],
        m))
    && (forall i {:trigger AheadOk(s, t, idx, i, s[idx[m] - 1], m)} :: AheadOk(s, t, idx, i, s[idx[m] - 1], m))
  }

  predicate Fresh(t: nat, idx: seq<nat>) { forall i :: 0 <= i < |idx| ==> idx[i] == Lo(t, i) }

  lemma NextInSegment(s: seq<int>, t: nat, m: nat, p: nat, q: nat)
    requires SegmentSorted(s, t, m) && Lo(t, m) <= p <= q < Lo(t, m) + t
    ensures s[p] <= s[q]
  {
    hide Lo;
    var g := Segment(s, t, m);
    assert g[p - Lo(t, m)] == s[p] && g[q - Lo(t, m)] == s[q];
  }

  /** Taking the least number makes its segment the last. */
  lemma LedNext(s: seq<int>, t: nat, idx: seq<nat>, m: nat, m0: nat)
    requires Cursors(s, t, idx) && Least(s, t, idx, m) && SegmentSorted(s, t, m)
    requires Fresh(t, idx) || Led(s, t, idx, m0)
    ensures Led(s, t, idx[m := idx[m] + 1], m)
  {
    hide Lo;
    var idx', w := idx[m := idx[m] + 1], s[idx[m]];
    assert CursorOk(s, t, idx, m);
    assert idx'[m] - 1 == idx[m];
    forall i: nat, p: nat ensures PassedOk(s, t, idx', i, p, w, m) { PassedNext(s, t, idx, m, m0, i, p); }
    forall i: nat ensures AheadOk(s, t, idx', i, w, m) {
      if i < |idx| && Open(s, t, idx', i) {
        if i == m { NextInSegment(s, t, m, idx[m], idx[m] + 1); } else { assert Open(s, t, idx, i); }
      }
    }
  }

  lemma PassedNext(s: seq<int>, t: nat, idx: seq<nat>, m: nat, m0: nat, i: nat, p: nat)
    requires Cursors(s, t, idx) && Least(s, t, idx, m)
    requires Fresh(t, idx) || Led(s, t, idx, m0)
    ensures PassedOk(s, t, idx[m := idx[m] + 1], i, p, s[idx[m]], m)
  {
    hide Lo;
    if i < |idx| && Lo(t, i) <= p < idx[i] {
      assert Led(s, t, idx, m0);
      assert PassedOk(s, t, idx, i, p, s[idx[m0] - 1], m0);
      assert AheadOk(s, t, idx, m, s[idx[m0] - 1], m0);
      assert CursorOk(s, t, idx, i);
    }
  }

  // -- Going on with it ------------------------------------------------------------------

  /** Everything below LONG_MAX is merged in `x`, the last of it from segment `m`. */
  ghost predicate Stuck(x: seq<int>, s: seq<int>, t: nat, idx: seq<nat>, m: nat) {
    Merged(x, s, t, idx) && Led(s, t, idx, m) && AtMax(s, t, idx)
  }

  /** However far it goes on, the scan finds nothing. */
  lemma StuckStays(x: seq<int>, s: seq<int>, t: nat, idx: seq<nat>, m: nat, q: nat)
    requires Stuck(x, s, t, idx, m) && SegmentSorted(s, t, m)
    ensures m < |idx| && AtMax(s, t, idx[m := idx[m] + q])
    ensures forall i {:trigger StartOk(s, t, idx[m := idx[m] + q], i)} ::
        0 <= i < |idx| ==> StartOk(s, t, idx[m := idx[m] + q], i)
  {
    hide Lo, Taken;
    var idx' := idx[m := idx[m] + q];
    forall i | 0 <= i < |idx| ensures StartOk(s, t, idx', i) { assert CursorOk(s, t, idx, i); }
    forall i | 0 <= i < |idx| && Open(s, t, idx', i) ensures s[idx'[i]] >= LONG_MAX {
      assert CursorOk(s, t, idx, i);
      if i == m { assert Open(s, t, idx, m); NextInSegment(s, t, m, idx[m], idx[m] + q); }
          else { assert Open(s, t, idx, i); }
    }
  }

  // -- When that is right ----------------------------------------------------------------

  predicate SmallOk(s: seq<int>, t: nat, n: nat, i: nat, p: nat, w: int, m: nat) {
    i < n && Lo(t, i) <= p < Lo(t, i) + t && p < |s| && s[p] < LONG_MAX ==> NoLater(s[p], i, w, m)
  }

  /** Of the numbers below LONG_MAX the largest, in the highest segment that has it, is at
      `c - 1` in segment `m`, and the rest of that segment is LONG_MAX. */
  ghost predicate LastSmall(s: seq<int>, t: nat, n: nat, m: nat, c: nat) {
    && m < n && Lo(t, m) < c <= Lo(t, m) + t <= |s|
    && (forall p :: Lo(t, m) <= p < c ==> s[p] < LONG_MAX)
    && (forall p :: c <= p < Lo(t, m) + t ==> s[p] == LONG_MAX)
    && (forall i, p {:trigger SmallOk(s, t, n, i, p, s[c - 1], m)} :: SmallOk(s, t, n, i, p, s[c - 1], m))
  }

  /** The numbers equal to LONG_MAX are those from `c` up to `e`. */
  predicate MaxFrom(s: seq<int>, c: nat, e: nat) {
    c <= e <= |s| && forall k :: 0 <= k < |s| ==> (s[k] == LONG_MAX <==> c <= k < e)
  }

  /** No number is LONG_MAX, or they all follow, without a gap, on the last number below it. */
  ghost predicate Mergeable(s: seq<int>, t: nat, n: nat) {
    (forall k :: 0 <= k < |s| ==> s[k] < LONG_MAX) || exists m, c, e :: LastSmall(s, t, n, m, c) && MaxFrom(s, c, e)
  }

  predicate Longs(s: seq<int>) { forall k :: 0 <= k < |s| ==> s[k] <= LONG_MAX }

  lemma StuckLast(x: seq<int>, s: seq<int>, t: nat, idx: seq<nat>, m: nat)
    requires Stuck(x, s, t, idx, m) && Longs(s) && forall i :: 0 <= i < |idx| ==> SegmentSorted(s, t, i)
    ensures LastSmall(s, t, |idx|, m, idx[m])
  {
    hide Lo, Taken;
    var c, w := idx[m], s[idx[m] - 1];
    assert CursorOk(s, t, idx, m);
    forall p | Lo(t, m) <= p < c ensures s[p] < LONG_MAX { assert PassedOk(s, t, idx, m, p, w, m); }
    forall p | c <= p < Lo(t, m) + t ensures s[p] == LONG_MAX {
      assert Open(s, t, idx, m);
      NextInSegment(s, t, m, c, p);
    }
    forall i: nat, p: nat ensures SmallOk(s, t, |idx|, i, p, w, m) {
      if i < |idx| && Lo(t, i) <= p < Lo(t, i) + t && p < |s| && s[p] < LONG_MAX {
        assert CursorOk(s, t, idx, i);
        assert PassedOk(s, t, idx, i, p, w, m);
        if p >= idx[i] { assert Open(s, t, idx, i); NextInSegment(s, t, i, idx[i], p); }
      }
    }
  }

  lemma LastUnique(s: seq<int>, t: nat, n: nat, m: nat, c: nat, m': nat, c': nat)
    requires LastSmall(s, t, n, m, c) && LastSmall(s, t, n, m', c')
    ensures m == m' && c == c'
  {
    hide Lo;
    assert SmallOk(s, t, n, m', c' - 1, s[c - 1], m);
    assert SmallOk(s, t, n, m, c - 1, s[c' - 1], m');
  }

  // -- Counting --------------------------------------------------------------------------

  predicate AllMax(m: multiset<int>) { forall x :: x in m ==> x == LONG_MAX }

  lemma {:induction false} AllMaxCount(m: multiset<int>)
    requires AllMax(m)
    ensures m[LONG_MAX] == |m|
    decreases |m|
  {
    if LONG_MAX in m {
      AllMaxCount(m - multiset{LONG_MAX});
    } else {
      assert forall x :: x !in m;
      assert m == multiset{};
    }
  }

  lemma AllMaxSame(a: multiset<int>, b: multiset<int>)
    requires AllMax(a) && |a| == |b|
    ensures AllMax(b) <==> a == b
  {
    AllMaxCount(a);
    if AllMax(b) {
      AllMaxCount(b);
      assert forall x :: a[x] == b[x];
    }
  }

  lemma NoneCount(s: seq<int>)
    requires LONG_MAX !in s
    ensures multiset(s)[LONG_MAX] == 0
  {
  }

  /** How many numbers are LONG_MAX, counting those from `c` to `e` as such. */
  lemma CountAround(s: seq<int>, c: nat, e: nat)
    requires c <= e <= |s| && AllMax(multiset(s[c..e]))
    ensures multiset(s)[LONG_MAX] == multiset(s[..c])[LONG_MAX] + (e - c) + multiset(s[e..])[LONG_MAX]
  {
    assert s == s[..c] + s[c..e] + s[e..];
    AllMaxCount(multiset(s[c..e]));
    assert |multiset(s[c..e])| == e - c;
  }

  lemma MaxFromCount(s: seq<int>, c: nat, e: nat)
    requires MaxFrom(s, c, e)
    ensures multiset(s)[LONG_MAX] == e - c && AllMax(multiset(s[c..e]))
  {
    forall x | x in multiset(s[c..e]) ensures x == LONG_MAX {
      assert x in s[c..e];
      var k :| 0 <= k < e - c && s[c..e][k] == x;
    }
    CountAround(s, c, e);
    forall k | 0 <= k < c ensures s[..c][k] != LONG_MAX {}
    forall k | 0 <= k < |s| - e ensures s[e..][k] != LONG_MAX {}
    NoneCount(s[..c]);
    NoneCount(s[e..]);
  }

  /** If the `r` numbers from `c` on are LONG_MAX and no others can be, there are no gaps. */
  lemma CountMaxFrom(s: seq<int>, c: nat, r: nat)
    requires c + r <= |s| && AllMax(multiset(s[c..c + r])) && multiset(s)[LONG_MAX] == r
    ensures MaxFrom(s, c, c + r)
  {
    var e := c + r;
    CountAround(s, c, e);
    forall k | 0 <= k < |s| ensures s[k] == LONG_MAX <==> c <= k < e {
      if c <= k < e {
        assert s[c..e][k - c] in multiset(s[c..e]);
      } else if k < c {
        assert s[..c][k] in multiset(s[..c]);
      } else {
        assert s[e..][k - e] in multiset(s[e..]);
      }
    }
  }

  // -- What is left ----------------------------------------------------------------------

  /** The numbers from the cursors of the first `k` segments on. */
  ghost function Rest(s: seq<int>, t: nat, idx: seq<nat>, k: nat): multiset<int>
    requires Cursors(s, t, idx) && k <= |idx|
  {
    if k == 0 then multiset{}
    else
      assert CursorOk(s, t, idx, k - 1);
      Rest(s, t, idx, k - 1) + multiset(s[idx[k - 1]..Lo(t, k - 1) + t])
  }

  lemma RestMore(s: seq<int>, t: nat, idx: seq<nat>, k: nat)
    requires Cursors(s, t, idx) && k < |idx| && CursorOk(s, t, idx, k)
    ensures Rest(s, t, idx, k + 1) == Rest(s, t, idx, k) + multiset(s[idx[k]..Lo(t, k) + t])
    ensures Rest(s, t, idx, 0) == multiset{}
  {
    hide Lo;
  }

  lemma SplitSegment(s: seq<int>, t: nat, idx: seq<nat>, i: nat)
    requires i < |idx| && CursorOk(s, t, idx, i)
    ensures idx[i] <= Lo(t, i) + t
    ensures multiset(s[Lo(t, i)..Lo(t, i) + t]) == Part(s, t, idx, i) + multiset(s[idx[i]..Lo(t, i) + t])
  {
    hide Lo;
    var l := Lo(t, i);
    assert s[l..l + t] == s[l..idx[i]] + s[idx[i]..l + t];
  }

  lemma Regroup(a: multiset<int>, b: multiset<int>, c: multiset<int>, d: multiset<int>)
    ensures (a + b) + (c + d) == (a + c) + (b + d)
  {
  }

  lemma {:induction false} TakenAndRest(s: seq<int>, t: nat, idx: seq<nat>, k: nat)
    requires Cursors(s, t, idx) && k <= |idx|
    ensures Lo(t, k) <= |s| && multiset(s[..Lo(t, k)]) == Taken(s, t, idx, k) + Rest(s, t, idx, k)
  {
    hide Lo, Taken, Part, Rest, Cursors, CursorOk;
    LoMono(t, k, |idx|);
    AtEnd(s, t, idx);
    if k == 0 {
      NoRest(s, t, idx);
    } else {
      CursorAt(s, t, idx, k - 1);
      LoNext(t, k - 1);
      TakenAndRest(s, t, idx, k - 1);
      TakenMore(s, t, idx, k - 1);
      RestMore(s, t, idx, k - 1);
      RestPart(s, t, idx, k - 1);
    }
  }

  lemma NoRest(s: seq<int>, t: nat, idx: seq<nat>)
    requires Cursors(s, t, idx)
    ensures Rest(s, t, idx, 0) == multiset{}
  {
  }

  lemma RestPart(s: seq<int>, t: nat, idx: seq<nat>, i: nat)
    requires Cursors(s, t, idx) && i < |idx| && CursorOk(s, t, idx, i)
    requires Lo(t, i) + t <= |s| && multiset(s[..Lo(t, i)]) == Taken(s, t, idx, i) + Rest(s, t, idx, i)
    ensures idx[i] <= Lo(t, i) + t
    ensures multiset(s[..Lo(t, i) + t]) ==
            (Taken(s, t, idx, i) + Part(s, t, idx, i)) + (Rest(s, t, idx, i) + multiset(s[idx[i]..Lo(t, i) + t]))
  {
    hide Lo, Taken, Part, Rest, Cursors;
    SplitSegment(s, t, idx, i);
    Joined(s, Lo(t, i), t);
    Regroup(Taken(s, t, idx, i), Rest(s, t, idx, i), Part(s, t, idx, i), multiset(s[idx[i]..Lo(t, i) + t]));
  }

  lemma {:induction false} RestMax(s: seq<int>, t: nat, idx: seq<nat>, k: nat)
    requires Cursors(s, t, idx) && k <= |idx| && AtMax(s, t, idx) && Longs(s)
    requires forall i :: 0 <= i < |idx| ==> SegmentSorted(s, t, i)
    ensures AllMax(Rest(s, t, idx, k))
  {
    hide Rest, Lo, Cursors, CursorOk, AllMax, AtMax, Longs, SegmentSorted;
    if k > 0 {
      CursorAt(s, t, idx, k - 1);
      RestMax(s, t, idx, k - 1);
      SegmentMax(s, t, idx, k - 1);
      RestMore(s, t, idx, k - 1);
      MaxJoin(Rest(s, t, idx, k - 1), multiset(s[idx[k - 1]..Lo(t, k - 1) + t]));
    } else {
      NoRest(s, t, idx);
      NoMax();
    }
  }

  lemma NoMax()
    ensures AllMax(multiset{})
  {
  }

  lemma MaxJoin(a: multiset<int>, b: multiset<int>)
    requires AllMax(a) && AllMax(b)
    ensures AllMax(a + b)
  {
  }

  lemma SegmentMax(s: seq<int>, t: nat, idx: seq<nat>, i: nat)
    requires i < |idx| && CursorOk(s, t, idx, i) && AtMax(s, t, idx) && Longs(s) && SegmentSorted(s, t, i)
    ensures idx[i] <= Lo(t, i) + t && AllMax(multiset(s[idx[i]..Lo(t, i) + t]))
  {
    hide Lo;
    var a, b := idx[i], Lo(t, i) + t;
    forall x | x in multiset(s[a..b]) ensures x == LONG_MAX {
      var k := WhereIn(s, a, b, x);
      assert Open(s, t, idx, i);
      NextInSegment(s, t, i, a, k);
    }
  }

  lemma WhereIn(s: seq<int>, a: nat, b: nat, x: int) returns (k: nat)
    requires a <= b <= |s| && x in multiset(s[a..b])
    ensures a <= k < b && s[k] == x
  {
    var g := s[a..b];
    assert x in g;
    var j :| 0 <= j < |g| && g[j] == x;
    k := a + j;
  }

  /** All that is not merged is LONG_MAX. */
  lemma StuckRest(x: seq<int>, s: seq<int>, t: nat, idx: seq<nat>, m: nat)
    requires Stuck(x, s, t, idx, m) && Longs(s) && forall i :: 0 <= i < |idx| ==> SegmentSorted(s, t, i)
    ensures |x| <= |s| && multiset(s) == multiset(x) + Rest(s, t, idx, |idx|)
    ensures AllMax(Rest(s, t, idx, |idx|)) && |Rest(s, t, idx, |idx|)| == |s| - |x|
    ensures multiset(s)[LONG_MAX] == |s| - |x|
  {
    var n := |idx|;
    TakenAndRest(s, t, idx, n);
    AtEnd(s, t, idx);
    RestMax(s, t, idx, n);
    hide Lo, Taken, Rest, Led, AtMax;
    assert s[..|s|] == s;
    assert |multiset(s)| == |s| && |multiset(x)| == |x|;
    AllMaxCount(Rest(s, t, idx, n));
    assert LONG_MAX !in x;
    NoneCount(x);
  }

  // -- The verdict -----------------------------------------------------------------------

  /** The output after going on to the end is right exactly when the input is mergeable. */
  lemma Verdict(x: seq<int>, s: seq<int>, t: nat, idx: seq<nat>, m: nat)
    requires Stuck(x, s, t, idx, m) && Longs(s) && |x| < |s| && forall i :: 0 <= i < |idx| ==> SegmentSorted(s, t, i)
    ensures |x| <= |s|
    ensures var c, r := idx[m], |s| - |x|;
            if c + r <= |s| then
              Sorted(x + s[c..c + r]) && multiset(x + s[c..c + r]) == multiset(s) <==> Mergeable(s, t, |idx|)
            else !Mergeable(s, t, |idx|)
  {
    LedIndex(s, t, idx, m);
    hide Lo, Merged, Led, AtMax, LastSmall, Mergeable, Rest, SegmentSorted, MaxFrom, Longs, AllMax, Sorted;
    var c, r := idx[m], |s| - |x|;
    StuckRest(x, s, t, idx, m);
    StuckLast(x, s, t, idx, m);
    SomeMax(s, r);
    MergeableIff(s, t, |idx|, m, c, r);
    if c + r <= |s| { TailRight(x, s, t, idx, s[c..c + r], Rest(s, t, idx, |idx|)); }
  }

  lemma LedIndex(s: seq<int>, t: nat, idx: seq<nat>, m: nat)
    requires Led(s, t, idx, m)
    ensures m < |idx|
  {
  }

  /** Numbers `b` after the merged `x` are right exactly when they are all LONG_MAX. */
  lemma TailRight(x: seq<int>, s: seq<int>, t: nat, idx: seq<nat>, b: seq<int>, rest: multiset<int>)
    requires Merged(x, s, t, idx) && multiset(s) == multiset(x) + rest && AllMax(rest) && |rest| == |b|
    ensures Sorted(x + b) && multiset(x + b) == multiset(s) <==> AllMax(multiset(b))
  {
    hide Merged, AllMax, Sorted;
    assert |multiset(b)| == |b|;
    AllMaxSame(rest, multiset(b));
    assert multiset(x + b) == multiset(x) + multiset(b);
    if AllMax(multiset(b)) { TailSorted(x, s, t, idx, b); }
    Cancel(multiset(x), multiset(b), rest);
  }

  lemma Cancel(a: multiset<int>, b: multiset<int>, c: multiset<int>)
    ensures a + b == a + c <==> b == c
  {
    if a + b == a + c {
      forall x ensures b[x] == c[x] { assert (a + b)[x] == (a + c)[x]; }
      assert b == c;
    }
  }

  lemma SomeMax(s: seq<int>, r: nat)
    requires r > 0 && multiset(s)[LONG_MAX] == r
    ensures !(forall k :: 0 <= k < |s| ==> s[k] < LONG_MAX)
  {
    assert LONG_MAX in multiset(s);
  }

  lemma TailSorted(x: seq<int>, s: seq<int>, t: nat, idx: seq<nat>, b: seq<int>)
    requires Merged(x, s, t, idx) && AllMax(multiset(b))
    ensures Sorted(x + b)
  {
    forall k | 0 <= k < |b| ensures b[k] == LONG_MAX { assert b[k] in multiset(b); }
  }

  /** Mergeable, for the one place where the last number below LONG_MAX can be. */
  lemma MergeableIff(s: seq<int>, t: nat, n: nat, m: nat, c: nat, r: nat)
    requires LastSmall(s, t, n, m, c) && r > 0 && multiset(s)[LONG_MAX] == r
    requires !(forall k :: 0 <= k < |s| ==> s[k] < LONG_MAX)
    ensures Mergeable(s, t, n) <==> c + r <= |s| && AllMax(multiset(s[c..c + r]))
  {
    hide LastSmall, MaxFrom;
    if Mergeable(s, t, n) {
      var m', c', e :| LastSmall(s, t, n, m', c') && MaxFrom(s, c', e);
      LastUnique(s, t, n, m, c, m', c');
      MaxFromCount(s, c, e);
      MaxFromBound(s, c, e);
      assert e == c + r;
    }
    if c + r <= |s| && AllMax(multiset(s[c..c + r])) {
      CountMaxFrom(s, c, r);
      assert LastSmall(s, t, n, m, c) && MaxFrom(s, c, c + r);
    }
  }

  lemma MaxFromBound(s: seq<int>, c: nat, e: nat)
    requires MaxFrom(s, c, e)
    ensures c <= e <= |s|
  {
  }

  /** If the very first scan finds nothing, every number is LONG_MAX. */
  lemma NothingSmall(s: seq<int>, t: nat, idx: seq<nat>)
    requires Merged([], s, t, idx) && Fresh(t, idx) && AtMax(s, t, idx) && |s| > 0 && Longs(s)
    requires forall i :: 0 <= i < |idx| ==> SegmentSorted(s, t, i)
    ensures !Mergeable(s, t, |idx|)
  {
    MergedAll([], s, t, idx);
    var i :| 0 <= i < |idx| && Open(s, t, idx, i);
    assert s[idx[i]] >= LONG_MAX;
    forall m: nat, c: nat ensures !LastSmall(s, t, |idx|, m, c) {
      if m < |idx| && t > 0 {
        CursorAt(s, t, idx, m);
        assert Open(s, t, idx, m) && s[Lo(t, m)] >= LONG_MAX;
      }
    }
  }

  // -- The loop --------------------------------------------------------------------------

  /** Every segment is sorted, and its numbers are longs. */
  predicate Input(s: seq<int>, t: nat, n: nat) {
    |s| == Lo(t, n) && Longs(s) && forall i :: 0 <= i < n ==> SegmentSorted(s, t, i)
  }

  /** While numbers below LONG_MAX are left; `m` is minidx once it is set. */
  ghost predicate Merging(out: seq<int>, s: seq<int>, t: nat, idx: seq<nat>, inited: bool, m: nat) {
    Merged(out, s, t, idx) && if inited then Led(s, t, idx, m) else Fresh(t, idx) && out == []
  }

  /** After that: the numbers from the cursor of segment `m` on follow `x`. */
  ghost predicate GoingOn(out: seq<int>, x: seq<int>, s: seq<int>, t: nat, idx0: seq<nat>, idx: seq<nat>, m: nat) {
    && m < |idx0| && Stuck(x, s, t, idx0, m) && |x| <= |out| && |x| < |s|
    && idx0[m] + |out| - |x| <= |s|
    && idx == idx0[m := idx0[m] + |out| - |x|]
    && out == x + s[idx0[m]..idx0[m] + |out| - |x|]
  }

  lemma MergingScans(out: seq<int>, s: seq<int>, t: nat, idx: seq<nat>, inited: bool, m: nat)
    requires Merging(out, s, t, idx, inited, m)
    ensures Scannable(s, t, idx)
  {
    hide Taken, Lo;
    forall i | 0 <= i < |idx| ensures StartOk(s, t, idx, i) { CursorAt(s, t, idx, i); }
  }

  lemma MergingTakes(out: seq<int>, s: seq<int>, t: nat, idx: seq<nat>, inited: bool, m0: nat, m: nat)
    requires Merging(out, s, t, idx, inited, m0) && Least(s, t, idx, m) && Input(s, t, |idx|)
    ensures idx[m] < |s| && Merging(out + [s[idx[m]]], s, t, idx[m := idx[m] + 1], true, m)
  {
    MergedNext(out, s, t, idx, m);
    hide Taken, Below, Sorted;
    LedNext(s, t, idx, m, m0);
  }

  lemma MergingStops(out: seq<int>, s: seq<int>, t: nat, idx: seq<nat>, m: nat)
    requires Merging(out, s, t, idx, true, m) && AtMax(s, t, idx) && |out| < |s|
    ensures GoingOn(out, out, s, t, idx, idx, m) && m < |idx|
  {
    hide Merged;
    assert idx[m := idx[m]] == idx && out + s[idx[m]..idx[m]] == out;
  }

  lemma GoingOnScans(out: seq<int>, x: seq<int>, s: seq<int>, t: nat, idx0: seq<nat>, idx: seq<nat>, m: nat)
    requires GoingOn(out, x, s, t, idx0, idx, m) && Input(s, t, |idx0|)
    ensures Scannable(s, t, idx) && m < |idx| && forall k :: !Least(s, t, idx, k)
  {
    StuckStays(x, s, t, idx0, m, |out| - |x|);
  }

  lemma GoingOnTakes(out: seq<int>, x: seq<int>, s: seq<int>, t: nat, idx0: seq<nat>, idx: seq<nat>, m: nat)
    requires GoingOn(out, x, s, t, idx0, idx, m) && m < |idx| && idx[m] < |s|
    ensures GoingOn(out + [s[idx[m]]], x, s, t, idx0, idx[m := idx[m] + 1], m)
  {
    hide Stuck;
    var c, e := idx0[m], idx[m];
    assert s[c..e + 1] == s[c..e] + [s[e]];
  }

  // -- The program -----------------------------------------------------------------------

  /** The merge came to its end, or used minidx before setting it, or read past the array. */
  datatype Outcome = Finished | Undefined

  ghost predicate Right(r: Outcome, snums: seq<int>, nums: seq<int>) {
    r.Finished? && Sorted(snums) && multiset(snums) == multiset(nums)
  }

  lemma MergingEnds(out: seq<int>, s: seq<int>, t: nat, idx: seq<nat>, inited: bool, m: nat)
    requires Merging(out, s, t, idx, inited, m) && |out| == |s|
    ensures Right(Finished, out, s) && Mergeable(s, t, |idx|)
  {
    MergedAll(out, s, t, idx);
  }

  lemma GoingOnEnds(out: seq<int>, x: seq<int>, s: seq<int>, t: nat, idx0: seq<nat>, idx: seq<nat>, m: nat)
    requires GoingOn(out, x, s, t, idx0, idx, m) && Input(s, t, |idx0|)
    ensures |out| == |s| ==> (Right(Finished, out, s) <==> Mergeable(s, t, |idx0|))
    ensures |out| < |s| && m < |idx| && idx[m] >= |s| ==> !Mergeable(s, t, |idx0|)
  {
    Verdict(x, s, t, idx0, m);
    hide Stuck, Mergeable, Sorted, Longs, SegmentSorted;
  }

  lemma NeverSet(s: seq<int>, t: nat, idx: seq<nat>, m: nat)
    requires Merging([], s, t, idx, false, m) && AtMax(s, t, idx) && |s| > 0 && Input(s, t, |idx|)
    ensures !Mergeable(s, t, |idx|)
  {
    NothingSmall(s, t, idx);
  }

  /** What holds before each round: `inited` says whether minidx `m` is set, and `stale` that
      a scan has found nothing, after `x` and at cursors `idx0`. */
  ghost predicate Loop(out: seq<int>, x: seq<int>, s: seq<int>, t: nat, idx0: seq<nat>, idx: seq<nat>,
                       inited: bool, m: nat, stale: bool) {
    |idx0| == |idx| && if stale then inited && GoingOn(out, x, s, t, idx0, idx, m)
        else Merging(out, s, t, idx, inited, m)
  }

  lemma LoopScans(out: seq<int>, x: seq<int>, s: seq<int>, t: nat, idx0: seq<nat>, idx: seq<nat>,
                  inited: bool, m: nat, stale: bool)
    requires Loop(out, x, s, t, idx0, idx, inited, m, stale) && Input(s, t, |idx|)
    ensures Scannable(s, t, idx) && (stale ==> forall k :: !Least(s, t, idx, k))
  {
    hide GoingOn, Merging, Input, Least, Scannable;
    if stale { GoingOnScans(out, x, s, t, idx0, idx, m); } else { MergingScans(out, s, t, idx, inited, m); }
  }

  /** One round, `found` and `m` being what the scan returned and `m0` the old minidx. */
  lemma LoopNext(out: seq<int>, x: seq<int>, s: seq<int>, t: nat, idx0: seq<nat>, idx: seq<nat>,
                 inited: bool, m0: nat, stale: bool, found: bool, m: nat)
    returns (x': seq<int>, idx0': seq<nat>, stale': bool)
    requires Loop(out, x, s, t, idx0, idx, inited, m0, stale) && Input(s, t, |idx|) && |out| < |s|
    requires found ==> Least(s, t, idx, m) && !stale
    requires !found ==> m == m0 && AtMax(s, t, idx)
    ensures inited || found ==> m < |idx|
    ensures (inited || found) && idx[m] < |s| ==>
              Loop(out + [s[idx[m]]], x', s, t, idx0', idx[m := idx[m] + 1], true, m, stale')
    ensures !(inited || found) || idx[m] >= |s| ==> !Mergeable(s, t, |idx|)
  {
    hide GoingOn, Merging, Input, Mergeable, AtMax;
    x', idx0', stale' := x, idx0, stale;
    if found {
      MergingTakes(out, s, t, idx, inited, m0, m);
    } else if !stale && inited {
      MergingStops(out, s, t, idx, m);
      x', idx0', stale' := out, idx, true;
    } else if !stale {
      MergingUnset(out, s, t, idx, m);
      NeverSet(s, t, idx, m);
    } else {
      GoingOnScans(out, x, s, t, idx0, idx, m);
    }
    if stale' {
      GoingOnEnds(out, x', s, t, idx0', idx, m);
      if idx[m] < |s| { GoingOnTakes(out, x', s, t, idx0', idx, m); }
    }
  }

  lemma LoopEnds(out: seq<int>, x: seq<int>, s: seq<int>, t: nat, idx0: seq<nat>, idx: seq<nat>,
                 inited: bool, m: nat, stale: bool)
    requires Loop(out, x, s, t, idx0, idx, inited, m, stale) && Input(s, t, |idx|) && |out| == |s|
    ensures Right(Finished, out, s) <==> Mergeable(s, t, |idx|)
  {
    hide GoingOn, Merging, Input, Mergeable, Right;
    if stale { GoingOnEnds(out, x, s, t, idx0, idx, m); } else { MergingEnds(out, s, t, idx, inited, m); }
  }

  lemma MergingUnset(out: seq<int>, s: seq<int>, t: nat, idx: seq<nat>, m: nat)
    requires Merging(out, s, t, idx, false, m)
    ensures out == []
  {
  }

  lemma LoopStarts(s: seq<int>, t: nat, idx: seq<nat>)
    requires Input(s, t, |idx|) && Fresh(t, idx)
    ensures Loop([], [], s, t, idx, idx, false, 0, false)
  {
    MergedStart(s, t, idx);
  }

  /** Lines 69-70: a cursor at the start of each segment. */
  method Starts(t: nat, n: nat) returns (idx: seq<nat>)
    ensures |idx| == n && Fresh(t, idx)
  {
    hide Lo;
    idx := [];
    while |idx| < n
      invariant |idx| <= n && Fresh(t, idx)
    {
      idx := idx + [Lo(t, |idx|)];
    }
  }

  /** One round of the merge; it fails on a minidx that is not set or a read past the array. */
  method Round(nums: array<int>, snums: array<int>, t: nat, idx: seq<nat>, sidx: nat, before: nat, set0: bool,
               ghost x0: seq<int>, ghost start0: seq<nat>, ghost stale0: bool)
    returns (ok: bool, idx': seq<nat>, minidx: nat, inited: bool,
             ghost x: seq<int>, ghost start: seq<nat>, ghost stale: bool)
    requires nums != snums && nums.Length == snums.Length && sidx < snums.Length && Input(nums[..], t, |idx|)
    requires Loop(snums[..sidx], x0, nums[..], t, start0, idx, set0, before, stale0)
    modifies snums
    ensures |idx'| == |idx|
    ensures ok ==> Loop(snums[..sidx + 1], x, nums[..], t, start, idx', inited, minidx, stale)
    ensures !ok ==> !Mergeable(nums[..], t, |idx|)
  {
    hide Loop, Least, Lo, Mergeable, Input, AtMax, Scannable;
    ghost var s, out := nums[..], snums[..sidx];
    LoopScans(out, x0, s, t, start0, idx, set0, before, stale0);
    var found;
    found, minidx := Smallest(nums, t, idx, before);
    x, start, stale := LoopNext(out, x0, s, t, start0, idx, set0, before, stale0, found, minidx);
    inited := set0 || found;
    ok := inited && idx[minidx] < nums.Length;
    idx' := idx;
    if ok {
      snums[sidx] := nums[idx[minidx]];
      assert snums[..sidx + 1] == out + [s[idx[minidx]]];
      idx' := idx[minidx := idx[minidx] + 1];
    }
  }

  /** merge leaves snums sorted and a permutation of nums exactly when nums is mergeable. */
  method MergeAll(nums: array<int>, snums: array<int>, t: nat, n: nat) returns (r: Outcome)
    requires nums != snums && nums.Length == snums.Length && Input(nums[..], t, n)
    modifies snums
    ensures Right(r, snums[..], nums[..]) <==> Mergeable(nums[..], t, n)
  {
    hide Fresh, Loop, Mergeable, Right, Input, Lo;
    ghost var s := nums[..];
    var idx := Starts(t, n);
    var minidx, inited := 0, false;
    LoopStarts(s, t, idx);
    ghost var x, start, stale := [], idx, false;
    var sidx := 0;
    assert snums[..0] == [];
    while sidx < snums.Length
      invariant sidx <= snums.Length && |idx| == n && nums[..] == s
      invariant Loop(snums[..sidx], x, s, t, start, idx, inited, minidx, stale)
    {
      var ok;
      ok, idx, minidx, inited, x, start, stale := Round(nums, snums, t, idx, sidx, minidx, inited, x, start, stale);
      if !ok {
        RightFinished(snums[..], s);
        return Undefined;
      }
      sidx := sidx + 1;
    }
    assert snums[..sidx] == snums[..];
    LoopEnds(snums[..], x, s, t, start, idx, inited, minidx, stale);
    r := Finished;
  }

  lemma RightFinished(snums: seq<int>, nums: seq<int>)
    ensures !Right(Undefined, snums, nums)
  {
  }

  /** Two segments of one number: the larger first is right, LONG_MAX first is not. */
  lemma MaxLast()
    ensures Mergeable([5, LONG_MAX], 1, 2) && !Mergeable([LONG_MAX, 5], 1, 2)
  {
    var s, b := [5, LONG_MAX], [LONG_MAX, 5];
    assert LastSmall(s, 1, 2, 0, 1) && MaxFrom(s, 1, 2);
    assert b[0] == LONG_MAX;
    forall m: nat, c: nat, e: nat | LastSmall(b, 1, 2, m, c) ensures !MaxFrom(b, c, e) {}
  }

  /** The program: the workers, then the merge. It is right exactly when the segments, each
      sorted, are mergeable, and so whenever every number is below LONG_MAX. */
  method SortParallel(nums: array<int>, snums: array<int>, t: nat, n: nat, order: seq<nat>) returns (r: Outcome)
    requires nums != snums && nums.Length == snums.Length == Lo(t, n) && IsOrder(order, n) && Longs(nums[..])
    modifies nums, snums
    ensures OwnNumbers(old(nums[..]), nums[..], t, n) && Input(nums[..], t, n)
    ensures Right(r, snums[..], old(nums[..])) <==> Mergeable(nums[..], t, n)
    ensures (forall k :: 0 <= k < nums.Length ==> old(nums[k]) < LONG_MAX) ==> Right(r, snums[..], old(nums[..]))
  {
    hide Mergeable, Lo, OwnNumbers, SegmentSorted, IsOrder, Sorted;
    ghost var s := nums[..];
    SortSegments(nums, t, n, order);
    SortedInput(s, nums[..], t, n);
    hide Input, Longs;
    r := MergeAll(nums, snums, t, n);
    assert forall k :: 0 <= k < |s| ==> s[k] == old(nums[k]);
  }

  lemma SortedInput(s0: seq<int>, s: seq<int>, t: nat, n: nat)
    requires multiset(s) == multiset(s0) && |s0| == |s| == Lo(t, n) && Longs(s0)
    requires forall i :: 0 <= i < n ==> SegmentSorted(s, t, i)
    ensures Input(s, t, n) && ((forall k :: 0 <= k < |s0| ==> s0[k] < LONG_MAX) ==> Mergeable(s, t, n))
  {
    SameBound(s0, s, LONG_MAX);
    SameBound(s0, s, LONG_MAX + 1);
    hide SegmentSorted, Lo;
    assert Longs(s) by { assert forall k :: 0 <= k < |s0| ==> s0[k] < LONG_MAX + 1; }
  }
}

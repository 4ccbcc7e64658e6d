/** The pointer structure of the index file: SLOTS singly linked lists (list 0 is the
    free list, list h + 1 the chain of hash value h) threaded through pointer fields.
    Every pure operation below is one pointer or record write of db.c; the lemmas say
    what each write keeps. Both the sequential and the multi-process model use them. */
module DbLinks {
  import opened Lists
  import opened DbFormat

  /** `home` of a record that no list holds: being filled in, or being deleted. */
  const LIMBO := SLOTS

  /** `ptrs` maps the offset of each pointer field to its value; `lists` and `home` say
      which records form which list, and are what the pointers are meant to encode. */
  datatype Links = Links(ptrs: map<nat, nat>, lists: seq<seq<nat>>, home: map<nat, nat>)

  function Slot(i: nat): nat { i * PTR_SZ }

  /** Offset of the pointer field that leads to position `j` of a list rooted at slot `i`. */
  function Field(s: seq<nat>, i: nat, j: nat): nat
    requires j <= |s|
  {
    if j == 0 then Slot(i) else s[j - 1]
  }

  predicate LinkOk(ptrs: map<nat, nat>, s: seq<nat>, i: nat, j: nat)
    requires j <= |s|
  {
    Field(s, i, j) in ptrs && ptrs[Field(s, i, j)] == At(s, j)
  }

  predicate MemberOk(home: map<nat, nat>, s: seq<nat>, i: nat, j: nat)
    requires j < |s|
  {
    s[j] in home && home[s[j]] == i
  }

  predicate HomeOk(l: Links, o: nat)
    requires o in l.home && |l.lists| == SLOTS
  {
    o >= BASE && o in l.ptrs && l.home[o] <= LIMBO && (l.home[o] < LIMBO ==> o in l.lists[l.home[o]])
  }

  ghost predicate ListOk(l: Links, i: nat, stale: map<nat, nat>)
    requires i < |l.lists|
  {
    var s := l.lists[i];
    && NoDup(s)
    && (forall j {:trigger MemberOk(l.home, s, i, j)} :: 0 <= j < |s| ==> MemberOk(l.home, s, i, j))
    && (forall j {:trigger LinkOk(l.ptrs, s, i, j)} ::
          0 <= j <= |s| && !(i in stale && stale[i] == j) ==> LinkOk(l.ptrs, s, i, j))
  }

  /** The pointers encode the lists, except that list `i` of `stale` has one out-of-date
      pointer, the one leading to position `stale[i]`. */
  ghost predicate Wf(l: Links, stale: map<nat, nat>) {
    && |l.lists| == SLOTS
    && (forall i {:trigger ListOk(l, i, stale)} :: 0 <= i < SLOTS ==> ListOk(l, i, stale))
    && (forall o {:trigger HomeOk(l, o)} :: o in l.home ==> HomeOk(l, o))
  }

  // -- The writes ----------------------------------------------------------------------

  /** One pointer write takes position `j` out of list `i`. */
  function Unlink(l: Links, i: nat, j: nat): Links
    requires i < |l.lists| && j < |l.lists[i]|
  {
    var s := l.lists[i];
    Links(l.ptrs[Field(s, i, j) := At(s, j + 1)], l.lists[i := Without(s, j)], l.home[s[j] := LIMBO])
  }

  /** The record write of a deletion: the record's own pointer becomes `v`, so the
      pointer that led to it no longer leads along list `i`. */
  function Divert(l: Links, i: nat, j: nat, v: nat): Links
    requires i < |l.lists| && j < |l.lists[i]|
  {
    var s := l.lists[i];
    Links(l.ptrs[s[j] := v], l.lists[i := Without(s, j)], l.home[s[j] := LIMBO])
  }

  /** The pointer write that ends a deletion. */
  function Repair(l: Links, i: nat, j: nat): Links
    requires i < |l.lists| && j <= |l.lists[i]|
  {
    var s := l.lists[i];
    l.(ptrs := l.ptrs[Field(s, i, j) := At(s, j)])
  }

  /** A pointer write at the root makes `o` the first record of list `i`. */
  function Push(l: Links, i: nat, o: nat): Links
    requires i < |l.lists|
  {
    Links(l.ptrs[Slot(i) := o], l.lists[i := [o] + l.lists[i]], l.home[o := i])
  }

  /** A record outside every list gets a pointer, or comes into being. */
  function Place(l: Links, o: nat, v: nat): Links {
    l.(ptrs := l.ptrs[o := v], home := l.home[o := LIMBO])
  }

  // -- What they keep ------------------------------------------------------------------

  lemma MemberFacts(l: Links, i: nat, j: nat, stale: map<nat, nat>)
    requires Wf(l, stale) && i < SLOTS && j < |l.lists[i]|
    ensures var o := l.lists[i][j]; o in l.home && l.home[o] == i && o >= BASE && o in l.ptrs
  {
    assert ListOk(l, i, stale);
    assert MemberOk(l.home, l.lists[i], i, j);
    assert HomeOk(l, l.lists[i][j]);
  }

  lemma LinkFacts(l: Links, i: nat, j: nat, stale: map<nat, nat>)
    requires Wf(l, stale) && i < SLOTS && j <= |l.lists[i]|
    requires i in stale ==> stale[i] != j
    ensures Field(l.lists[i], i, j) in l.ptrs
    ensures l.ptrs[Field(l.lists[i], i, j)] == At(l.lists[i], j)
  {
    assert ListOk(l, i, stale);
    assert LinkOk(l.ptrs, l.lists[i], i, j);
  }

  /** Two fields that lead to different places are different fields. */
  lemma FieldsDiffer(l: Links, i: nat, j: nat, i': nat, j': nat, stale: map<nat, nat>)
    requires Wf(l, stale) && i < SLOTS && i' < SLOTS
    requires j <= |l.lists[i]| && j' <= |l.lists[i']|
    requires i != i' || j != j'
    ensures Field(l.lists[i], i, j) != Field(l.lists[i'], i', j')
  {
    if j > 0 { MemberFacts(l, i, j - 1, stale); }
    if j' > 0 { MemberFacts(l, i', j' - 1, stale); }
    assert ListOk(l, i, stale);
  }

  /** A list keeps when its pointers, its members' homes and its staleness keep. */
  lemma ListKept(l: Links, m: Links, i: nat, stale: map<nat, nat>, stale': map<nat, nat>)
    requires i < SLOTS && |l.lists| == |m.lists| == SLOTS && ListOk(l, i, stale)
    requires m.lists[i] == l.lists[i]
    requires i in stale ==> i in stale' && stale'[i] == stale[i]
    requires forall j :: 0 <= j < |l.lists[i]| && l.lists[i][j] in l.home ==>
               l.lists[i][j] in m.home && m.home[l.lists[i][j]] == l.home[l.lists[i][j]]
    requires forall j :: 0 <= j <= |l.lists[i]| && Field(l.lists[i], i, j) in l.ptrs ==>
               Field(l.lists[i], i, j) in m.ptrs && m.ptrs[Field(l.lists[i], i, j)] == l.ptrs[Field(l.lists[i], i, j)]
    ensures ListOk(m, i, stale')
  {
    var s := l.lists[i];
    forall j | 0 <= j < |s| ensures MemberOk(m.home, s, i, j) {
      assert MemberOk(l.home, s, i, j);
    }
    forall j | 0 <= j <= |s| && !(i in stale' && stale'[i] == j) ensures LinkOk(m.ptrs, s, i, j) {
      assert LinkOk(l.ptrs, s, i, j);
    }
  }

  /** Taking a record out of its list keeps every other list and every other home. */
  lemma RemovalHomes(l: Links, m: Links, i: nat, j: nat, stale: map<nat, nat>)
    requires Wf(l, stale) && i < SLOTS && j < |l.lists[i]|
    requires m.lists == l.lists[i := Without(l.lists[i], j)]
    requires m.home == l.home[l.lists[i][j] := LIMBO]
    requires l.ptrs.Keys <= m.ptrs.Keys
    ensures forall o {:trigger HomeOk(m, o)} :: o in m.home ==> HomeOk(m, o)
  {
    assert ListOk(l, i, stale);
    MemberFacts(l, i, j, stale);
    forall o | o in m.home ensures HomeOk(m, o) {
      assert HomeOk(l, o);
      WithoutMember(l.lists[i], j, o);
    }
  }

  lemma UnlinkWf(l: Links, i: nat, j: nat, stale: map<nat, nat>)
    requires Wf(l, stale) && i < SLOTS && j < |l.lists[i]| && i !in stale
    ensures Wf(Unlink(l, i, j), stale)
  {
    var m := Unlink(l, i, j);
    var s, t := l.lists[i], m.lists[i];
    assert ListOk(l, i, stale);
    RemovalHomes(l, m, i, j, stale);
    MemberFacts(l, i, j, stale);
    forall k | 0 <= k < SLOTS ensures ListOk(m, k, stale) {
      assert ListOk(l, k, stale);
      if k == i {
        WithoutMember(s, j, 0);
        forall n | 0 <= n < |t| ensures MemberOk(m.home, t, i, n) {
          assert MemberOk(l.home, s, i, if n < j then n else n + 1);
        }
        forall n | 0 <= n <= |t| ensures LinkOk(m.ptrs, t, i, n) {
          var n' := if n <= j then n else n + 1;
          assert LinkOk(l.ptrs, s, i, n');
          if n != j { FieldsDiffer(l, i, j, i, n', stale); }
        }
      } else {
        forall n | 0 <= n <= |l.lists[k]| ensures Field(l.lists[k], k, n) != Field(s, i, j) {
          FieldsDiffer(l, i, j, k, n, stale);
        }
        forall n | 0 <= n < |l.lists[k]| ensures l.lists[k][n] != s[j] { MemberFacts(l, k, n, stale); }
        ListKept(l, m, k, stale, stale);
      }
    }
  }

  lemma DivertWf(l: Links, i: nat, j: nat, v: nat, stale: map<nat, nat>)
    requires Wf(l, stale) && i < SLOTS && j < |l.lists[i]| && i !in stale
    ensures Wf(Divert(l, i, j, v), stale[i := j])
    ensures Field(l.lists[i], i, j) == Field(Without(l.lists[i], j), i, j)
    ensures At(Without(l.lists[i], j), j) == At(l.lists[i], j + 1)
  {
    var m := Divert(l, i, j, v);
    var s, t := l.lists[i], m.lists[i];
    var stale' := stale[i := j];
    assert ListOk(l, i, stale);
    RemovalHomes(l, m, i, j, stale);
    MemberFacts(l, i, j, stale);
    forall k | 0 <= k < SLOTS ensures ListOk(m, k, stale') {
      assert ListOk(l, k, stale);
      if k == i {
        WithoutMember(s, j, 0);
        forall n | 0 <= n < |t| ensures MemberOk(m.home, t, i, n) {
          assert MemberOk(l.home, s, i, if n < j then n else n + 1);
        }
        forall n | 0 <= n <= |t| && n != j ensures LinkOk(m.ptrs, t, i, n) {
          var n' := if n < j then n else n + 1;
          assert LinkOk(l.ptrs, s, i, n');
          FieldsDiffer(l, i, j + 1, i, n', stale);
        }
      } else {
        forall n | 0 <= n <= |l.lists[k]| ensures Field(l.lists[k], k, n) != s[j] {
          FieldsDiffer(l, i, j + 1, k, n, stale);
        }
        forall n | 0 <= n < |l.lists[k]| ensures l.lists[k][n] != s[j] { MemberFacts(l, k, n, stale); }
        ListKept(l, m, k, stale, stale');
      }
    }
  }

  lemma RepairWf(l: Links, i: nat, j: nat, stale: map<nat, nat>)
    requires Wf(l, stale) && i < SLOTS && i in stale && stale[i] == j && j <= |l.lists[i]|
    ensures Wf(Repair(l, i, j), stale - {i})
  {
    var m := Repair(l, i, j);
    forall k | 0 <= k < SLOTS ensures ListOk(m, k, stale - {i}) {
      assert ListOk(l, k, stale);
      forall n | 0 <= n <= |l.lists[k]| && (k != i || n != j)
        ensures Field(l.lists[k], k, n) != Field(l.lists[i], i, j)
      {
        FieldsDiffer(l, i, j, k, n, stale);
      }
      if k != i {
        ListKept(l, m, k, stale, stale - {i});
      } else {
        forall n | 0 <= n < |l.lists[i]| ensures MemberOk(m.home, l.lists[i], i, n) {
          assert MemberOk(l.home, l.lists[i], i, n);
        }
        forall n | 0 <= n <= |l.lists[i]| ensures LinkOk(m.ptrs, l.lists[i], i, n) {
          if n != j { assert LinkOk(l.ptrs, l.lists[i], i, n); }
        }
      }
    }
    forall o | o in m.home ensures HomeOk(m, o) { assert HomeOk(l, o); }
  }

  lemma PushWf(l: Links, i: nat, o: nat, stale: map<nat, nat>)
    requires Wf(l, stale) && i < SLOTS && i !in stale
    requires o in l.home && l.home[o] == LIMBO && o in l.ptrs && l.ptrs[o] == At(l.lists[i], 0)
    ensures Wf(Push(l, i, o), stale)
  {
    var m := Push(l, i, o);
    var s, t := l.lists[i], m.lists[i];
    assert HomeOk(l, o);
    forall k, n | 0 <= k < SLOTS && 0 <= n < |l.lists[k]| ensures l.lists[k][n] != o && l.lists[k][n] >= BASE {
      MemberFacts(l, k, n, stale);
    }
    forall k | 0 <= k < SLOTS ensures ListOk(m, k, stale) {
      assert ListOk(l, k, stale);
      if k == i {
        forall n | 0 <= n < |t| ensures MemberOk(m.home, t, i, n) {
          if n > 0 { assert MemberOk(l.home, s, i, n - 1); }
        }
        forall n | 0 <= n <= |t| ensures LinkOk(m.ptrs, t, i, n) {
          if n > 1 { assert LinkOk(l.ptrs, s, i, n - 1); }
        }
      } else {
        ListKept(l, m, k, stale, stale);
      }
    }
    forall p | p in m.home ensures HomeOk(m, p) {
      assert HomeOk(l, p);
      if p == o { assert t[0] == o; }
      else if l.home[p] == i {
        var n :| 0 <= n < |s| && s[n] == p;
        assert t[n + 1] == p;
      }
    }
  }

  lemma PlaceWf(l: Links, o: nat, v: nat, stale: map<nat, nat>)
    requires Wf(l, stale) && o >= BASE
    requires o in l.home ==> l.home[o] == LIMBO
    ensures Wf(Place(l, o, v), stale)
  {
    var m := Place(l, o, v);
    forall k | 0 <= k < SLOTS ensures ListOk(m, k, stale) {
      assert ListOk(l, k, stale);
      forall n | 0 <= n < |l.lists[k]| ensures l.lists[k][n] != o { MemberFacts(l, k, n, stale); }
      ListKept(l, m, k, stale, stale);
    }
    forall p | p in m.home ensures HomeOk(m, p) {
      if p != o { assert HomeOk(l, p); }
    }
  }

  /** In a well-formed structure a list holds exactly the records at home in it. */
  lemma ListIsHome(l: Links, i: nat, o: nat, stale: map<nat, nat>)
    requires Wf(l, stale) && i < SLOTS
    ensures o in l.lists[i] <==> o in l.home && l.home[o] == i
  {
    if o in l.lists[i] {
      var j :| 0 <= j < |l.lists[i]| && l.lists[i][j] == o;
      MemberFacts(l, i, j, stale);
    }
    if o in l.home && l.home[o] == i { assert HomeOk(l, o); }
  }

  /** `hops` pointers followed from field `f`; 0 ends a list and stays 0. */
  function Follow(ptrs: map<nat, nat>, f: nat, hops: nat): nat {
    if hops == 0 then f else
    var g := Follow(ptrs, f, hops - 1);
    if (hops == 1 || g != 0) && g in ptrs then ptrs[g] else 0
  }

  /** Following pointers from the root of an up-to-date list visits its records in
      order, each once, and then ends: the physical chain is acyclic. */
  lemma {:induction false} FollowList(l: Links, i: nat, hops: nat, stale: map<nat, nat>)
    requires Wf(l, stale) && i < SLOTS && i !in stale && hops <= |l.lists[i]|
    ensures Follow(l.ptrs, Slot(i), hops + 1) == At(l.lists[i], hops)
  {
    LinkFacts(l, i, hops, stale);
    if hops > 0 {
      FollowList(l, i, hops - 1, stale);
      MemberFacts(l, i, hops - 1, stale);
    }
  }
}

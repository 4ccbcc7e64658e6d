/** Keys with a separator: each heads its chain, so that every search of the chain meets it. */
module DbHeads {
  import opened Ascii
  import opened DbFormat
  import opened Lists
  import opened DbLinks
  import opened DbBytes
  import opened DbView
  import opened DbLayout

  predicate HeadOk(lists: seq<seq<nat>>, loc: map<CString, nat>, k: CString)
    requires k in loc
  {
    SlotOf(k) < |lists| && At(lists[SlotOf(k)], 0) == loc[k]
  }

  /** A key with a separator heads its chain. */
  ghost predicate HeadsOk(lists: seq<seq<nat>>, loc: map<CString, nat>) {
    forall k {:trigger HeadOk(lists, loc, k)} :: k in loc && SEP in k ==> HeadOk(lists, loc, k)
  }

  /** A record on a chain; only at the head can its key have a separator. */
  lemma ChainReadable(l: Links, es: map<nat, Entry>, loc: map<CString, nat>, i: nat, j: nat,
                      stale: map<nat, nat>)
    requires Wf(l, stale) && KeysOk(l.home, es, loc) && HeadsOk(l.lists, loc) && 1 <= i < SLOTS && j < |l.lists[i]|
    ensures var o := l.lists[i][j];
            && o in es && es[o].key in loc && loc[es[o].key] == o && SlotOf(es[o].key) == i
            && (SEP in es[o].key ==> j == 0)
  {
    hide SlotOf;
    var o := l.lists[i][j];
    MemberFacts(l, i, j, stale);
    assert NameOk(l.home, es, loc, o);
    assert LocOk(l.home, es, loc, es[o].key);
    if SEP in es[o].key {
      assert HeadOk(l.lists, loc, es[o].key);
      assert ListOk(l, i, stale);
    }
  }

  lemma FreeReadable(l: Links, es: map<nat, Entry>, loc: map<CString, nat>, j: nat, stale: map<nat, nat>)
    requires Wf(l, stale) && KeysOk(l.home, es, loc) && j < |l.lists[0]|
    ensures var o := l.lists[0][j]; o in es && Blank(es[o].key) && SEP !in es[o].key
  {
    MemberFacts(l, 0, j, stale);
    assert NameOk(l.home, es, loc, l.lists[0][j]);
  }

  /** A chain is blocked exactly by its head. */
  lemma BlockedHead(l: Links, es: map<nat, Entry>, loc: map<CString, nat>, key: CString, stale: map<nat, nat>)
    requires Wf(l, stale) && KeysOk(l.home, es, loc) && HeadsOk(l.lists, loc)
    ensures var s := l.lists[SlotOf(key)];
            Blocked(loc.Keys, key) <==> |s| > 0 && s[0] in es && SEP in es[s[0]].key
  {
    hide SlotOf;
    var i := SlotOf(key);
    var s := l.lists[i];
    if |s| > 0 { ChainReadable(l, es, loc, i, 0, stale); }
    if k :| k in loc.Keys && SEP in k && SlotOf(k) == i {
      assert HeadOk(l.lists, loc, k) && LocOk(l.home, es, loc, k);
      ListIsHome(l, i, loc[k], stale);
    }
  }

  lemma BlockedLess(all: set<CString>, some: set<CString>, key: CString)
    requires some <= all && !Blocked(all, key)
    ensures !Blocked(some, key)
  {
  }

  lemma HeadsKept(lists: seq<seq<nat>>, lists': seq<seq<nat>>, loc: map<CString, nat>)
    requires HeadsOk(lists, loc) && |lists'| == |lists| == SLOTS
    requires forall i :: 1 <= i < SLOTS ==> lists'[i] == lists[i]
    ensures HeadsOk(lists', loc)
  {
    hide SlotOf;
    forall k | k in loc && SEP in k ensures HeadOk(lists', loc, k) { assert HeadOk(lists, loc, k); }
  }

  lemma HeadsDropped(lists: seq<seq<nat>>, lists': seq<seq<nat>>, loc: map<CString, nat>, key: CString)
    requires HeadsOk(lists, loc) && |lists'| == |lists| == SLOTS && !Blocked(loc.Keys, key)
    requires forall i :: 1 <= i < SLOTS && i != SlotOf(key) ==> lists'[i] == lists[i]
    ensures HeadsOk(lists', loc - {key})
  {
    hide SlotOf;
    var loc' := loc - {key};
    forall k | k in loc' && SEP in k ensures HeadOk(lists', loc', k) {
      assert HeadOk(lists, loc, k);
      assert k in loc.Keys;
    }
  }

  lemma HeadsAdded(lists: seq<seq<nat>>, lists': seq<seq<nat>>, loc: map<CString, nat>, key: CString, o: nat)
    requires HeadsOk(lists, loc) && |lists'| == |lists| == SLOTS && !Blocked(loc.Keys, key)
    requires forall i :: 1 <= i < SLOTS && i != SlotOf(key) ==> lists'[i] == lists[i]
    requires At(lists'[SlotOf(key)], 0) == o
    ensures HeadsOk(lists', loc[key := o])
  {
    hide SlotOf;
    var loc' := loc[key := o];
    forall k | k in loc' && SEP in k ensures HeadOk(lists', loc', k) {
      if k != key {
        assert HeadOk(lists, loc, k);
        assert k in loc.Keys;
      }
    }
  }
}

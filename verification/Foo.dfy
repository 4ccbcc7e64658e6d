/** The reference-counted hash table of mutex2.c and mutex3.c as a value, and its four
    operations, each as one atomic change: what mutex3.c does under its single lock. */
module Foo {
  import opened Numbers
  import opened Lists

  const NHASH := 29

  /** HASH(id): the int is converted to unsigned long first. */
  function HashId(id: int): (h: nat)
    ensures h < NHASH
  {
    id % TWO64 % NHASH
  }

  /** `chains[h]` lists the objects on hash chain `h`, first to last. */
  datatype Table = Table(chains: seq<seq<nat>>, cnt: map<nat, int>, ids: map<nat, int>)

  function Empty(): Table { Table(seq(NHASH, _ => []), map[], map[]) }

  function IndexOf(s: seq<nat>, o: nat): (j: nat)
    ensures j <= |s|
    ensures j < |s| ==> s[j] == o
    ensures j == |s| ==> o !in s
  {
    if s == [] || s[0] == o then 0 else 1 + IndexOf(s[1..], o)
  }

  /** The first object of a chain with a given id. */
  function FirstWith(s: seq<nat>, ids: map<nat, int>, id: int): (j: nat)
    ensures j <= |s|
    ensures j < |s| ==> s[j] in ids && ids[s[j]] == id
    ensures forall k :: 0 <= k < j ==> !(s[k] in ids && ids[s[k]] == id)
  {
    if s == [] || (s[0] in ids && ids[s[0]] == id) then 0 else 1 + FirstWith(s[1..], ids, id)
  }

  function Alloc(t: Table, id: int, o: nat): Table
    requires |t.chains| == NHASH
  {
    var h := HashId(id);
    Table(t.chains[h := [o] + t.chains[h]], t.cnt[o := 1], t.ids[o := id])
  }

  function Hold(t: Table, o: nat): Table
    requires o in t.cnt
  {
    t.(cnt := t.cnt[o := t.cnt[o] + 1])
  }

  function Find(t: Table, id: int): (Table, Option<nat>)
    requires |t.chains| == NHASH
  {
    var s := t.chains[HashId(id)];
    var j := FirstWith(s, t.ids, id);
    if j < |s| && s[j] in t.cnt then (Hold(t, s[j]), Some(s[j])) else (t, None)
  }

  function Rele(t: Table, o: nat): Table
    requires |t.chains| == NHASH && o in t.cnt && o in t.ids
  {
    if t.cnt[o] != 1 then t.(cnt := t.cnt[o := t.cnt[o] - 1])
    else
      var h := HashId(t.ids[o]);
      var j := IndexOf(t.chains[h], o);
      Table(if j < |t.chains[h]| then t.chains[h := Without(t.chains[h], j)] else t.chains, t.cnt - {o}, t.ids - {o})
  }
}

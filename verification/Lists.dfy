/** Optional values, and sequences seen as linked lists whose end is marked by 0. */
module Lists {

  datatype Option<+T> = None | Some(value: T)

  /** The j-th element of a list, or 0 past its end. */
  function At(s: seq<nat>, j: nat): nat { if j < |s| then s[j] else 0 }

  predicate NoDup(s: seq<nat>) { forall j, k :: 0 <= j < k < |s| ==> s[j] != s[k] }

  function Without(s: seq<nat>, j: nat): (t: seq<nat>)
    requires j < |s|
    ensures |t| == |s| - 1
  {
    s[..j] + s[j + 1..]
  }

  lemma WithoutMember(s: seq<nat>, j: nat, o: nat)
    requires j < |s| && NoDup(s)
    ensures NoDup(Without(s, j))
    ensures o in Without(s, j) <==> o in s && o != s[j]
  {
    var t := Without(s, j);
    assert forall k :: 0 <= k < |t| ==> t[k] == s[if k < j then k else k + 1];
    if o in s && o != s[j] {
      var k :| 0 <= k < |s| && s[k] == o;
      assert t[if k < j then k else k - 1] == o;
    }
  }
}

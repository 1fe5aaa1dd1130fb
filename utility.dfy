/** Index helpers: the half-open integer range and the re-indexing of a list
    of positions into a list of particle numbers. */
module Utility {
  import opened Base

  /** The integers start, start+1, ..., end-1. */
  function Interval(start: int, end: int): (r: seq<int>)
    requires start <= end
  {
    seq(end - start, k => start + k)
  }

  /** range(start, end). The loop stops on i != end, so it terminates only
      when start <= end. */
  method Range(start: int, end: int) returns (ret: seq<int>)
    requires start <= end
    ensures |ret| == end - start
    ensures forall k :: 0 <= k < |ret| ==> ret[k] == start + k
    ensures StrictlyAscending(ret)
    ensures ret == Interval(start, end)
  {
    ret := [];
    var i := start;
    while i != end
      invariant start <= i <= end
      invariant |ret| == i - start
      invariant forall k :: 0 <= k < |ret| ==> ret[k] == start + k
    {
      ret := ret + [i];
      i := i + 1;
    }
  }

  /** Every entry of indx1 is a valid position in indx2. */
  predicate IndexesInto(indx1: seq<int>, indx2: seq<int>)
  {
    forall i :: 0 <= i < |indx1| ==> 0 <= indx1[i] < |indx2|
  }

  /** indx1 with each entry replaced by indx2 at that position. */
  function Reindexed(indx1: seq<int>, indx2: seq<int>): (r: seq<int>)
    requires IndexesInto(indx1, indx2)
  {
    seq(|indx1|, i requires 0 <= i < |indx1| => indx2[indx1[i]])
  }

  /** reindex(indx1, indx2): overwrites indx1[i] with indx2[indx1[i]] in place. */
  method Reindex(indx1: array<int>, indx2: seq<int>)
    requires IndexesInto(indx1[..], indx2)
    modifies indx1
    ensures indx1[..] == Reindexed(old(indx1[..]), indx2)
  {
    var i := 0;
    while i != indx1.Length
      invariant 0 <= i <= indx1.Length
      invariant forall k :: 0 <= k < i ==> indx1[k] == indx2[old(indx1[k])]
      invariant forall k :: i <= k < indx1.Length ==> indx1[k] == old(indx1[k])
    {
      indx1[i] := indx2[indx1[i]];
      i := i + 1;
    }
  }

  /** Re-indexing keeps the length; an ascending list of positions into an
      ascending list gives an ascending list of its elements. */
  lemma ReindexAscending(indx1: seq<int>, indx2: seq<int>)
    requires IndexesInto(indx1, indx2)
    requires StrictlyAscending(indx1) && StrictlyAscending(indx2)
    ensures |Reindexed(indx1, indx2)| == |indx1|
    ensures StrictlyAscending(Reindexed(indx1, indx2))
    ensures forall x :: x in Reindexed(indx1, indx2) ==> x in indx2
  {
    var r := Reindexed(indx1, indx2);
    forall x | x in r ensures x in indx2 {
      var i :| 0 <= i < |r| && r[i] == x;
      assert indx2[indx1[i]] == x;
    }
  }

  /** Re-indexing through range(0, n) is the identity. */
  lemma ReindexThroughRange(indx1: seq<int>, n: nat)
    requires forall i :: 0 <= i < |indx1| ==> 0 <= indx1[i] < n
    ensures IndexesInto(indx1, Interval(0, n))
    ensures Reindexed(indx1, Interval(0, n)) == indx1
  {
  }
}

// Sequence helpers for the singly linked device lists and message queues of
// the SPI and TWI buses. A linked list is described by the sequence of its
// nodes in link order; these functions say how that sequence changes when a
// node is unlinked or moved to the head.

module Chains {

  import opened Wrappers

  /** No node appears twice: a well-formed singly linked list has no cycle. */
  ghost predicate Distinct<T>(s: seq<T>)
  {
    forall i, j :: 0 <= i < j < |s| ==> s[i] != s[j]
  }

  /** A tail of a list without repeats has none. */
  lemma DistinctSuffix<T>(s: seq<T>, d: nat)
    requires Distinct(s) && d <= |s|
    ensures Distinct(s[d..])
  {
    forall i, j | 0 <= i < j < |s| - d ensures s[d..][i] != s[d..][j] {
      assert s[d..][i] == s[d + i] && s[d..][j] == s[d + j];
    }
  }

  /** The list with every occurrence of x unlinked, the others kept in order. */
  function Without<T(==)>(s: seq<T>, x: T): (r: seq<T>)
    ensures |r| <= |s|
  {
    if s == [] then []
    else if s[0] == x then Without(s[1..], x)
    else [s[0]] + Without(s[1..], x)
  }

  /** Unlinking x removes it and nothing else. */
  lemma {:induction false} WithoutMembers<T>(s: seq<T>, x: T)
    ensures x !in Without(s, x)
    ensures forall y :: y in Without(s, x) <==> y in s && y != x
  {
    if s != [] {
      WithoutMembers(s[1..], x);
      assert s == [s[0]] + s[1..];
    }
  }

  lemma {:induction false} WithoutAbsent<T>(s: seq<T>, x: T)
    requires x !in s
    ensures Without(s, x) == s
  {
    if s != [] {
      WithoutAbsent(s[1..], x);
    }
  }

  /** Unlinking the node at position i of a list without repeats drops exactly that slot. */
  lemma {:induction false} WithoutAt<T>(s: seq<T>, i: nat)
    requires Distinct(s) && i < |s|
    ensures Without(s, s[i]) == s[..i] + s[i+1..]
  {
    if i == 0 {
      assert s[0] !in s[1..];
      WithoutAbsent(s[1..], s[0]);
    } else {
      assert Distinct(s[1..]);
      WithoutAt(s[1..], i - 1);
      assert s[1..][i-1] == s[i];
      assert s[1..][..i-1] + s[1..][i..] == s[1..i] + s[i+1..];
      assert [s[0]] + (s[1..i] + s[i+1..]) == s[..i] + s[i+1..];
    }
  }

  /** Appending a node and then removing it gives the list back. */
  lemma AppendThenRemove<T>(s: seq<T>, x: T)
    requires x !in s
    ensures Without(s + [x], x) == s
  {
    var t := s + [x];
    if s == [] {
      assert t == [x];
    } else {
      assert t[1..] == s[1..] + [x];
      AppendThenRemove(s[1..], x);
    }
  }

  lemma {:induction false} WithoutKeepsDistinct<T>(s: seq<T>, x: T)
    requires Distinct(s)
    ensures Distinct(Without(s, x))
  {
    if s != [] {
      assert Distinct(s[1..]);
      WithoutKeepsDistinct(s[1..], x);
      if s[0] != x {
        var r := [s[0]] + Without(s[1..], x);
        assert s[0] !in s[1..];
        forall i, j | 0 <= i < j < |r| ensures r[i] != r[j] {
          if i == 0 {
            WithoutMembers(s[1..], x);
            assert r[j] in Without(s[1..], x);
          }
        }
      }
    }
  }

  /** The list with its k-th node relinked to the front. */
  function MoveToFront<T>(s: seq<T>, k: nat): (r: seq<T>)
    requires k < |s|
    ensures |r| == |s|
  {
    seq(|s|, i requires 0 <= i < |s| => s[Source(i, k)])
  }

  /** Moving a node to the head is a permutation, and the identity for the head itself. */
  lemma MoveToFrontPermutes<T>(s: seq<T>, k: nat)
    requires k < |s|
    ensures multiset(MoveToFront(s, k)) == multiset(s)
    ensures MoveToFront(s, k)[0] == s[k]
    ensures MoveToFront(s, 0) == s
  {
    assert MoveToFront(s, k) == [s[k]] + s[..k] + s[k+1..];
    assert s == s[..k] + [s[k]] + s[k+1..];
    assert MoveToFront(s, 0) == s;
  }

  /** The position in s of the node at position i of MoveToFront(s, k). */
  function Source(i: nat, k: nat): nat
  {
    if i == 0 then k else if i <= k then i - 1 else i
  }

  lemma MoveToFrontAt<T>(s: seq<T>, k: nat, i: nat)
    requires k < |s| && i < |s|
    ensures MoveToFront(s, k)[i] == s[Source(i, k)]
  {
    if 0 < i <= k {
      assert MoveToFront(s, k)[i] == s[..k][i - 1];
    } else if i > k {
      assert MoveToFront(s, k)[i] == s[k + 1..][i - k - 1];
    }
  }

  /**
   * In a list without repeats, the nodes behind the moved one are the others
   * in their original relative order, and there are still no repeats.
   */
  lemma MoveToFrontKeepsOrder<T>(s: seq<T>, k: nat)
    requires k < |s| && Distinct(s)
    ensures MoveToFront(s, k)[1..] == Without(s, s[k])
    ensures Distinct(MoveToFront(s, k))
  {
    WithoutAt(s, k);
    var r := MoveToFront(s, k);
    var t := s[..k] + s[k+1..];
    forall i | 0 <= i < |t|
      ensures r[1..][i] == t[i]
    {
      if i < k {
        assert t[i] == s[i];
      } else {
        assert t[i] == s[i + 1];
      }
    }
    assert r[1..] == t;
    MoveToFrontDistinct(s, k);
  }

  lemma MoveToFrontDistinct<T>(s: seq<T>, k: nat)
    requires k < |s| && Distinct(s)
    ensures Distinct(MoveToFront(s, k))
  {
    var r := MoveToFront(s, k);
    forall i, j | 0 <= i < j < |r| ensures r[i] != r[j] {
      MoveToFrontAt(s, k, i);
      MoveToFrontAt(s, k, j);
      assert Source(i, k) != Source(j, k);
    }
  }

  /**
   * The successor of each node once node k (not the head) is moved to the
   * front: the moved node is followed by the old head, its old predecessor by
   * its old successor, and every other node by the node that followed it before.
   */
  lemma MoveToFrontNext<T>(s: seq<T>, k: nat, i: nat) returns (j: nat)
    requires Distinct(s) && 1 <= k < |s| && i < |s| - 1
    ensures var r := MoveToFront(s, k);
      if i == 0 then r[0] == s[k] && r[1] == s[0]
      else if i == k then r[k] == s[k - 1] && r[k + 1] == s[k + 1]
      else j + 1 < |s| && r[i] == s[j] && r[i + 1] == s[j + 1] && s[j] != s[k - 1] && s[j] != s[k]
  {
    MoveToFrontAt(s, k, i);
    MoveToFrontAt(s, k, i + 1);
    j := Source(i, k);
  }

  /** The first position at or after from that holds x. */
  function IndexFrom<T(==)>(s: seq<T>, x: T, from: nat): (r: Option<nat>)
    decreases |s| - from
    ensures r.Some? ==> from <= r.value < |s| && s[r.value] == x
    ensures r.Some? ==> forall j :: from <= j < r.value ==> s[j] != x
    ensures r.None? <==> forall j :: from <= j < |s| ==> s[j] != x
  {
    if from >= |s| then None
    else if s[from] == x then Some(from)
    else IndexFrom(s, x, from + 1)
  }

  /**
   * Transaction affinity on a non-empty queue whose entries are the owners of
   * the queued messages: with no owner the head goes next; with an owner, that
   * owner's first message goes next, and nothing goes when it has none queued.
   */
  function Affinity<T(==)>(s: seq<T>, owner: Option<T>): (r: Option<nat>)
    requires s != []
    ensures owner.None? ==> r == Some(0)
    ensures owner.Some? ==> (r.None? <==> owner.value !in s)
    ensures r.Some? ==> r.value < |s| && (owner.None? || s[r.value] == owner.value)
    ensures r.Some? ==> forall j :: 0 <= j < r.value ==> owner.Some? && s[j] != owner.value
  {
    if owner.None? || s[0] == owner.value then Some(0)
    else IndexFrom(s, owner.value, 1)
  }
}

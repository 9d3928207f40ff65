/** Order-preserving filtering of sequences (Swift `filter`, `removeAll(where:)`). */
module Sequences {

  /** The elements of `s` that satisfy `keep`, in their original order. */
  function Filter<T>(s: seq<T>, keep: T -> bool): (r: seq<T>)
    ensures |r| <= |s|
    ensures forall i :: 0 <= i < |r| ==> r[i] in s && keep(r[i])
    ensures forall i :: 0 <= i < |s| && keep(s[i]) ==> s[i] in r
    decreases |s|
  {
    if s == [] then []
    else
      var rest := Filter(s[1..], keep);
      assert forall i :: 1 <= i < |s| ==> s[i] == s[1..][i - 1];
      if keep(s[0]) then [s[0]] + rest else rest
  }

  /** Filtering distributes over concatenation: what is kept keeps its relative order. */
  lemma {:induction false} FilterAppend<T>(a: seq<T>, b: seq<T>, keep: T -> bool)
    ensures Filter(a + b, keep) == Filter(a, keep) + Filter(b, keep)
    decreases |a|
  {
    if a != [] {
      var ab := a + b;
      assert ab != [] && ab[0] == a[0] && ab[1..] == a[1..] + b;
      FilterAppend(a[1..], b, keep);
      if keep(a[0]) {
        assert Filter(ab, keep) == [a[0]] + Filter(a[1..] + b, keep);
      } else {
        assert Filter(ab, keep) == Filter(a[1..] + b, keep);
      }
    } else {
      assert a + b == b;
    }
  }

  /** A sequence whose every element is kept is left as it is. */
  lemma {:induction false} FilterKeepsAll<T>(s: seq<T>, keep: T -> bool)
    requires forall i :: 0 <= i < |s| ==> keep(s[i])
    ensures Filter(s, keep) == s
    decreases |s|
  {
    if s != [] {
      FilterKeepsAll(s[1..], keep);
    }
  }

  /** What a filter keeps and what the opposite filter keeps together make up the sequence. */
  lemma {:induction false} FilterPartition<T>(s: seq<T>, keep: T -> bool, drop: T -> bool)
    requires forall i :: 0 <= i < |s| ==> drop(s[i]) == !keep(s[i])
    ensures multiset(Filter(s, keep)) + multiset(Filter(s, drop)) == multiset(s)
    ensures |Filter(s, keep)| + |Filter(s, drop)| == |s|
    decreases |s|
  {
    if s != [] {
      FilterPartition(s[1..], keep, drop);
      assert s == [s[0]] + s[1..];
      assert drop(s[0]) == !keep(s[0]);
      if keep(s[0]) {
        assert Filter(s, keep) == [s[0]] + Filter(s[1..], keep);
        assert Filter(s, drop) == Filter(s[1..], drop);
      } else {
        assert Filter(s, keep) == Filter(s[1..], keep);
        assert Filter(s, drop) == [s[0]] + Filter(s[1..], drop);
      }
    }
  }

  /** A sequence none of whose elements is kept filters to nothing. */
  lemma {:induction false} FilterDropsAll<T>(s: seq<T>, keep: T -> bool)
    requires forall i :: 0 <= i < |s| ==> !keep(s[i])
    ensures Filter(s, keep) == []
    decreases |s|
  {
    if s != [] {
      FilterDropsAll(s[1..], keep);
    }
  }

  /** The elements of `s` whose offset, counted from `base`, is in `offsets`, in order. */
  function Picked<T>(s: seq<T>, offsets: set<int>, base: int): seq<T>
    decreases |s|
  {
    if s == [] then []
    else (if base in offsets then [s[0]] else []) + Picked(s[1..], offsets, base + 1)
  }

  /** The elements of `s` whose offset, counted from `base`, is not in `offsets`, in order. */
  function Unpicked<T>(s: seq<T>, offsets: set<int>, base: int): seq<T>
    decreases |s|
  {
    if s == [] then []
    else (if base in offsets then [] else [s[0]]) + Unpicked(s[1..], offsets, base + 1)
  }

  /** Picking splits a sequence into two parts that together hold every element exactly as often. */
  lemma {:induction false} PickedPartition<T>(s: seq<T>, offsets: set<int>, base: int)
    ensures multiset(Picked(s, offsets, base)) + multiset(Unpicked(s, offsets, base)) == multiset(s)
    decreases |s|
  {
    if s != [] {
      PickedPartition(s[1..], offsets, base + 1);
      assert s == [s[0]] + s[1..];
    }
  }

  /** Unpicking distributes over concatenation, the second part's offsets continuing the first's. */
  lemma {:induction false} UnpickedAppend<T>(a: seq<T>, b: seq<T>, offsets: set<int>, base: int)
    ensures Unpicked(a + b, offsets, base) == Unpicked(a, offsets, base) + Unpicked(b, offsets, base + |a|)
    decreases |a|
  {
    if a == [] {
      assert a + b == b;
    } else {
      assert (a + b)[0] == a[0] && (a + b)[1..] == a[1..] + b;
      UnpickedAppend(a[1..], b, offsets, base + 1);
    }
  }

  /** With no offset picked, nothing is picked and everything stays. */
  lemma {:induction false} PickedNone<T>(s: seq<T>, offsets: set<int>, base: int)
    requires forall i :: base <= i < base + |s| ==> i !in offsets
    ensures Picked(s, offsets, base) == [] && Unpicked(s, offsets, base) == s
    decreases |s|
  {
    if s != [] {
      PickedNone(s[1..], offsets, base + 1);
    }
  }

  /**
   * Swift's `move(fromOffsets:toOffset:)`: the elements at `offsets` are taken out and put,
   * in their order, before the element that was at `destination`.
   */
  function Move<T>(s: seq<T>, offsets: set<int>, destination: int): seq<T>
    requires 0 <= destination <= |s|
  {
    Unpicked(s[..destination], offsets, 0) + Picked(s, offsets, 0) + Unpicked(s[destination..], offsets, destination)
  }

  /** A move only reorders: the result holds the same elements, each as often. */
  lemma MovePermutes<T>(s: seq<T>, offsets: set<int>, destination: int)
    requires 0 <= destination <= |s|
    ensures multiset(Move(s, offsets, destination)) == multiset(s)
    ensures |Move(s, offsets, destination)| == |s|
  {
    var before, after := s[..destination], s[destination..];
    var u1, p, u2 := Unpicked(before, offsets, 0), Picked(s, offsets, 0), Unpicked(after, offsets, destination);
    assert s == before + after;
    UnpickedAppend(before, after, offsets, 0);
    assert Unpicked(s, offsets, 0) == u1 + u2;
    PickedPartition(s, offsets, 0);
    assert Move(s, offsets, destination) == u1 + p + u2;
    calc {
      multiset(u1 + p + u2);
      multiset(u1) + multiset(p) + multiset(u2);
      multiset(p) + multiset(u1 + u2);
      multiset(s);
    }
    assert |multiset(u1 + p + u2)| == |u1 + p + u2|;
  }

  /** Moving nothing leaves the sequence as it is. */
  lemma MoveNothing<T>(s: seq<T>, offsets: set<int>, destination: int)
    requires 0 <= destination <= |s|
    requires forall i :: 0 <= i < |s| ==> i !in offsets
    ensures Move(s, offsets, destination) == s
  {
    var before, after := s[..destination], s[destination..];
    PickedNone(before, offsets, 0);
    PickedNone(s, offsets, 0);
    PickedNone(after, offsets, destination);
    assert Move(s, offsets, destination) == before + [] + after;
    assert s == before + after;
  }
}

/** Sequence helpers standing for the JavaScript array methods the source relies on. */
module Seqs {
  import opened Wrappers

  /** `s.map(f)` */
  function MapSeq<A, B>(s: seq<A>, f: A -> B): (r: seq<B>)
    ensures |r| == |s|
    ensures forall i :: 0 <= i < |s| ==> r[i] == f(s[i])
  {
    seq(|s|, i requires 0 <= i < |s| => f(s[i]))
  }

  /** Appending is associative; stated as a lemma so that proofs about recursively defined
      sequences need not reason about their elements. */
  lemma ConcatAssoc<T>(u: seq<T>, v: seq<T>, w: seq<T>)
    ensures u + (v + w) == (u + v) + w
  {
  }

  /** Mapping distributes over appending one element at the end. */
  lemma MapSnoc<A, B>(s: seq<A>, x: A, f: A -> B)
    ensures MapSeq(s + [x], f) == MapSeq(s, f) + [f(x)]
  {
    assert forall i :: 0 <= i < |s| ==> (s + [x])[i] == s[i];
  }

  /** `s.filter(keep)`: the elements satisfying `keep`, in their original order. */
  function Filter<T>(s: seq<T>, keep: T -> bool): (r: seq<T>)
    ensures |r| <= |s|
    ensures forall i :: 0 <= i < |r| ==> keep(r[i])
    ensures forall i :: 0 <= i < |r| ==> r[i] in s
    ensures forall i :: 0 <= i < |s| && keep(s[i]) ==> s[i] in r
  {
    if s == [] then []
    else
      var rest := Filter(s[1..], keep);
      assert s == [s[0]] + s[1..];
      if keep(s[0]) then [s[0]] + rest else rest
  }

  /** The kept elements keep their order: `Filter(s, keep)` reads `s` at strictly increasing
      positions, and these are all the positions whose element passes. */
  lemma {:induction false} FilterInOrder<T>(s: seq<T>, keep: T -> bool) returns (idx: seq<nat>)
    ensures Positions(s, keep, Filter(s, keep), idx)
  {
    if s == [] {
      idx := [];
    } else {
      var tail := FilterInOrder(s[1..], keep);
      assert s == [s[0]] + s[1..];
      idx := ConsPositions(s[0], s[1..], keep, Filter(s[1..], keep), tail);
    }
  }

  /** `idx` lists, in increasing order, every position of `s` whose element passes `keep`,
      and `r` holds the elements at those positions. */
  ghost predicate Positions<T>(s: seq<T>, keep: T -> bool, r: seq<T>, idx: seq<nat>) {
    && |idx| == |r|
    && (forall i :: 0 <= i < |idx| ==> idx[i] < |s| && r[i] == s[idx[i]])
    && (forall i, j :: 0 <= i < j < |idx| ==> idx[i] < idx[j])
    && (forall k :: 0 <= k < |s| && keep(s[k]) ==> k in idx)
  }

  /** One step of `FilterInOrder`: `x`'s own position, when it passes, before the others. */
  lemma {:induction false} ConsPositions<T>(x: T, t: seq<T>, keep: T -> bool, rest: seq<T>, tail: seq<nat>)
    returns (idx: seq<nat>)
    requires Positions(t, keep, rest, tail)
    ensures Positions([x] + t, keep, if keep(x) then [x] + rest else rest, idx)
  {
    var s := [x] + t;
    var shifted := ShiftPositions(x, t, keep, rest, tail);
    if keep(x) {
      idx := [0] + shifted;
      var r := [x] + rest;
      forall i | 1 <= i < |idx| ensures idx[i] < |s| && r[i] == s[idx[i]] {
        assert idx[i] == shifted[i - 1];
      }
      forall i, j | 0 <= i < j < |idx| ensures idx[i] < idx[j] {
        assert idx[j] == shifted[j - 1];
        if i > 0 {
          assert idx[i] == shifted[i - 1];
        }
      }
    } else {
      idx := shifted;
    }
  }

  /** The positions of `rest` in `t`, moved up by one to be positions in `[x] + t`. */
  lemma {:induction false} ShiftPositions<T>(x: T, t: seq<T>, keep: T -> bool, rest: seq<T>, tail: seq<nat>)
    returns (shifted: seq<nat>)
    requires Positions(t, keep, rest, tail)
    ensures |shifted| == |rest|
    ensures forall i :: 0 <= i < |shifted| ==> 1 <= shifted[i] <= |t| && rest[i] == ([x] + t)[shifted[i]]
    ensures forall i, j :: 0 <= i < j < |shifted| ==> shifted[i] < shifted[j]
    ensures forall k :: 1 <= k <= |t| && keep(([x] + t)[k]) ==> k in shifted
  {
    var s := [x] + t;
    shifted := seq(|tail|, i requires 0 <= i < |tail| => tail[i] + 1);
    forall k | 1 <= k <= |t| && keep(s[k]) ensures k in shifted {
      assert s[k] == t[k - 1];
      var i :| 0 <= i < |tail| && tail[i] == k - 1;
      assert shifted[i] == k;
    }
  }

  /** An element of `s` is among the kept ones exactly when it passes. */
  lemma FilterKeeps<T>(s: seq<T>, keep: T -> bool)
    ensures forall i :: 0 <= i < |s| ==> (s[i] in Filter(s, keep) <==> keep(s[i]))
  {
    var r := Filter(s, keep);
    forall i | 0 <= i < |s| && s[i] in r ensures keep(s[i]) {
      var k :| 0 <= k < |r| && r[k] == s[i];
    }
  }

  /** Filtering distributes over appending one element at the end. */
  lemma {:induction false} FilterSnoc<T>(s: seq<T>, x: T, keep: T -> bool)
    ensures Filter(s + [x], keep) == Filter(s, keep) + (if keep(x) then [x] else [])
  {
    if s == [] {
      assert [x][1..] == [];
    } else {
      assert (s + [x])[1..] == s[1..] + [x];
      FilterSnoc(s[1..], x, keep);
    }
  }

  /** Filtering by a predicate and by its negation splits `s` without loss. */
  lemma {:induction false} FilterPartition<T>(s: seq<T>, keep: T -> bool, drop: T -> bool)
    requires forall x :: drop(x) == !keep(x)
    ensures multiset(Filter(s, keep)) + multiset(Filter(s, drop)) == multiset(s)
    ensures |Filter(s, keep)| + |Filter(s, drop)| == |s|
  {
    if s != [] {
      FilterPartition(s[1..], keep, drop);
      assert s == [s[0]] + s[1..];
    }
  }

  /** Filtering keeps everything when every element passes. */
  lemma {:induction false} FilterAll<T>(s: seq<T>, keep: T -> bool)
    requires forall i :: 0 <= i < |s| ==> keep(s[i])
    ensures Filter(s, keep) == s
  {
    if s != [] {
      FilterAll(s[1..], keep);
    }
  }

  /** `s.findIndex(x => idOf(x) === id)`, with `None` for JavaScript's `-1`. */
  function FindIndex<T>(s: seq<T>, idOf: T -> string, id: string): (r: Option<nat>)
    ensures r.None? <==> forall i :: 0 <= i < |s| ==> idOf(s[i]) != id
    ensures r.Some? ==> r.value < |s| && idOf(s[r.value]) == id
    ensures r.Some? ==> forall j :: 0 <= j < r.value ==> idOf(s[j]) != id
  {
    if s == [] then None
    else if idOf(s[0]) == id then Some(0)
    else
      match FindIndex(s[1..], idOf, id)
      case None => None
      case Some(k) => Some(k + 1)
  }

  /** The complement of a predicate, for the kept half of a partition. */
  function Not<T>(p: T -> bool): T -> bool {
    x => !p(x)
  }

  /** An element appended under a fresh id is found at the end, and removing it gives the
      original sequence back. */
  lemma FindAppended<T>(s: seq<T>, x: T, idOf: T -> string)
    requires forall i :: 0 <= i < |s| ==> idOf(s[i]) != idOf(x)
    ensures FindIndex(s + [x], idOf, idOf(x)) == Some(|s|)
    ensures (s + [x])[..|s|] + (s + [x])[|s| + 1..] == s
  {
    var t := s + [x];
    assert idOf(t[|s|]) == idOf(x);
    assert forall i :: 0 <= i < |s| ==> t[i] == s[i];
  }

  function Min(a: int, b: int): int { if a <= b then a else b }
  function Max(a: int, b: int): int { if a >= b then a else b }

  /** `s.slice(start, end)` for non-negative bounds: both are clamped to the length. */
  function Slice<T>(s: seq<T>, start: nat, end: nat): (r: seq<T>)
    ensures |r| == (if start < end && start < |s| then Min(end, |s|) - start else 0)
    ensures forall i :: 0 <= i < |r| ==> start + i < |s| && r[i] == s[start + i]
  {
    if start < end && start < |s| then s[start..Min(end, |s|)] else []
  }

  /** No element occurs twice. */
  predicate Distinct<T(==)>(s: seq<T>) {
    forall i, j :: 0 <= i < j < |s| ==> s[i] != s[j]
  }

  /** `Array.from(new Set(s))`: first occurrences, in order. */
  function Dedupe<T(==)>(s: seq<T>): (r: seq<T>)
    ensures Distinct(r)
    ensures forall i :: 0 <= i < |r| ==> r[i] in s
    ensures forall i :: 0 <= i < |s| ==> s[i] in r
    ensures |r| <= |s|
  {
    if s == [] then []
    else
      var init := s[..|s| - 1];
      var r := Dedupe(init);
      assert s == init + [s[|s| - 1]];
      if s[|s| - 1] in r then r else r + [s[|s| - 1]]
  }

  /** A sequence without repetitions is its own set in insertion order. */
  lemma {:induction false} DedupeOfDistinct<T>(s: seq<T>)
    requires Distinct(s)
    ensures Dedupe(s) == s
  {
    if s != [] {
      var init := s[..|s| - 1];
      DedupeOfDistinct(init);
      assert s[|s| - 1] !in init;
      assert s == init + [s[|s| - 1]];
    }
  }

  /** An element at two positions occurs at least twice in the multiset. */
  lemma CountTwo<T>(s: seq<T>, i: nat, j: nat)
    requires i < j < |s| && s[i] == s[j]
    ensures multiset(s)[s[i]] >= 2
  {
    assert s == s[..j] + [s[j]] + s[j + 1..];
    assert s[i] in s[..j];
  }

  /** In a sequence without repetitions every element occurs at most once. */
  lemma {:induction false} DistinctCount<T>(s: seq<T>, x: T)
    requires Distinct(s)
    ensures multiset(s)[x] <= 1
    ensures x in s ==> multiset(s)[x] == 1
  {
    if s != [] {
      assert s == [s[0]] + s[1..];
      assert Distinct(s[1..]);
      DistinctCount(s[1..], x);
      if x == s[0] {
        assert x !in s[1..];
      }
    }
  }

  /** Being free of repetitions depends only on the multiset. */
  lemma DistinctPermutation<T>(a: seq<T>, b: seq<T>)
    requires Distinct(a) && multiset(a) == multiset(b)
    ensures Distinct(b)
  {
    forall i, j | 0 <= i < j < |b| ensures b[i] != b[j] {
      if b[i] == b[j] {
        CountTwo(b, i, j);
        DistinctCount(a, b[i]);
      }
    }
  }

  /** Two repetition-free sequences with the same elements have the same multiset. */
  lemma DistinctSameElements<T>(a: seq<T>, b: seq<T>)
    requires Distinct(a) && Distinct(b)
    requires forall i :: 0 <= i < |a| ==> a[i] in b
    requires forall i :: 0 <= i < |b| ==> b[i] in a
    ensures multiset(a) == multiset(b)
  {
    forall x ensures multiset(a)[x] == multiset(b)[x] {
      DistinctCount(a, x);
      DistinctCount(b, x);
    }
  }

  /** Two sequences whose ranks strictly increase and that hold the same elements are equal. */
  lemma {:induction false} StrictlyRankedUnique<T>(a: seq<T>, b: seq<T>, rank: T -> int)
    requires forall i, j :: 0 <= i < j < |a| ==> rank(a[i]) < rank(a[j])
    requires forall i, j :: 0 <= i < j < |b| ==> rank(b[i]) < rank(b[j])
    requires forall x :: x in a <==> x in b
    ensures a == b
  {
    assert a != [] ==> a[0] in b;
    assert b != [] ==> b[0] in a;
    if a != [] && b != [] {
      assert b[0] in b && a[0] in a;
      var ka :| 0 <= ka < |a| && a[ka] == b[0];
      var kb :| 0 <= kb < |b| && b[kb] == a[0];
      assert rank(a[0]) <= rank(a[ka]) && rank(b[0]) <= rank(b[kb]);
      assert ka == 0;
      forall x ensures x in a[1..] <==> x in b[1..] {
        if x in a[1..] {
          var i :| 1 <= i < |a| && a[i] == x;
          assert x != a[0];
          assert x in b;
          var j :| 0 <= j < |b| && b[j] == x;
          assert j != 0;
        }
        if x in b[1..] {
          var j :| 1 <= j < |b| && b[j] == x;
          assert x != b[0];
          assert x in a;
          var i :| 0 <= i < |a| && a[i] == x;
          assert i != 0;
        }
      }
      StrictlyRankedUnique(a[1..], b[1..], rank);
      assert a == [a[0]] + a[1..] && b == [b[0]] + b[1..];
    }
  }
}

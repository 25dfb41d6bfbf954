/** The two orderings the source sorts by: strings ascending (tags, field names) and a
    stable descending sort by a numeric key (priority scores, hypothesis confidence). */
module Sorting {
  import opened Seqs

  // ---------------------------------------------------------------- strings

  /** `a` sorts at or before `b`: lexicographic order of code points. */
  predicate StrAtMost(a: string, b: string) {
    if a == [] then true
    else if b == [] then false
    else if a[0] != b[0] then a[0] < b[0]
    else StrAtMost(a[1..], b[1..])
  }

  lemma {:induction false} StrAtMostTotal(a: string, b: string)
    ensures StrAtMost(a, b) || StrAtMost(b, a)
  {
    if a != [] && b != [] && a[0] == b[0] {
      StrAtMostTotal(a[1..], b[1..]);
    }
  }

  lemma {:induction false} StrAtMostReflexive(a: string)
    ensures StrAtMost(a, a)
  {
    if a != [] {
      StrAtMostReflexive(a[1..]);
    }
  }

  lemma {:induction false} StrAtMostAntisymmetric(a: string, b: string)
    requires StrAtMost(a, b) && StrAtMost(b, a)
    ensures a == b
  {
    if a != [] && b != [] {
      StrAtMostAntisymmetric(a[1..], b[1..]);
      assert a == [a[0]] + a[1..] && b == [b[0]] + b[1..];
    }
  }

  lemma {:induction false} StrAtMostTransitive(a: string, b: string, c: string)
    requires StrAtMost(a, b) && StrAtMost(b, c)
    ensures StrAtMost(a, c)
  {
    if a != [] && b != [] && c != [] && a[0] == b[0] && b[0] == c[0] {
      StrAtMostTransitive(a[1..], b[1..], c[1..]);
    }
  }

  predicate SortedStrings(s: seq<string>) {
    forall i, j :: 0 <= i < j < |s| ==> StrAtMost(s[i], s[j])
  }

  /** Puts `x` before the first element it sorts at or before. */
  function InsertString(x: string, s: seq<string>): (r: seq<string>)
    ensures |r| == |s| + 1
  {
    if s == [] then [x]
    else if StrAtMost(x, s[0]) then [x] + s
    else [s[0]] + InsertString(x, s[1..])
  }

  lemma {:induction false} InsertStringPermutation(x: string, s: seq<string>)
    ensures multiset(InsertString(x, s)) == multiset(s) + multiset{x}
  {
    if s != [] && !StrAtMost(x, s[0]) {
      InsertStringPermutation(x, s[1..]);
      assert s == [s[0]] + s[1..];
    }
  }

  /** A lower bound of `x` and of `s` is a lower bound of the insertion. */
  lemma {:induction false} InsertStringBounded(x: string, s: seq<string>, low: string)
    requires StrAtMost(low, x)
    requires forall i :: 0 <= i < |s| ==> StrAtMost(low, s[i])
    ensures forall j :: 0 <= j < |s| + 1 ==> StrAtMost(low, InsertString(x, s)[j])
  {
    if s != [] && !StrAtMost(x, s[0]) {
      InsertStringBounded(x, s[1..], low);
    }
  }

  lemma {:induction false} InsertStringSorted(x: string, s: seq<string>)
    requires SortedStrings(s)
    ensures SortedStrings(InsertString(x, s))
  {
    if s != [] {
      if StrAtMost(x, s[0]) {
        forall j | 0 <= j < |s| ensures StrAtMost(x, s[j]) {
          if j > 0 { StrAtMostTransitive(x, s[0], s[j]); }
        }
      } else {
        StrAtMostTotal(x, s[0]);
        InsertStringSorted(x, s[1..]);
        InsertStringBounded(x, s[1..], s[0]);
      }
    }
  }

  /** `s.sort()` with a string comparator: an ascending permutation of `s`. */
  function SortStrings(s: seq<string>): (r: seq<string>)
    ensures SortedStrings(r)
    ensures multiset(r) == multiset(s)
    ensures |r| == |s|
  {
    if s == [] then []
    else
      assert s == [s[0]] + s[1..];
      InsertStringSorted(s[0], SortStrings(s[1..]));
      InsertStringPermutation(s[0], SortStrings(s[1..]));
      InsertString(s[0], SortStrings(s[1..]))
  }

  /** The head of an ascending sequence is at most each of its elements. */
  lemma SortedHeadAtMost(a: seq<string>, x: string)
    requires SortedStrings(a) && x in a
    ensures StrAtMost(a[0], x)
  {
    var i :| 0 <= i < |a| && a[i] == x;
    if i == 0 { StrAtMostReflexive(x); }
  }

  lemma SortedTail(a: seq<string>)
    requires SortedStrings(a) && a != []
    ensures SortedStrings(a[1..])
    ensures multiset(a[1..]) == multiset(a) - multiset{a[0]}
  {
    assert a == [a[0]] + a[1..];
  }

  /** Two ascending arrangements of the same strings start with the same string. */
  lemma SortedHeads(a: seq<string>, b: seq<string>)
    requires SortedStrings(a) && SortedStrings(b)
    requires multiset(a) == multiset(b) && a != []
    ensures b != [] && a[0] == b[0]
  {
    assert a[0] in multiset(b);
    assert b != [] && b[0] in multiset(a);
    SortedHeadAtMost(b, a[0]);
    SortedHeadAtMost(a, b[0]);
    StrAtMostAntisymmetric(a[0], b[0]);
  }

  /** Two ascending arrangements of the same strings are the same sequence, so the result
      of sorting depends only on the multiset of its input. */
  lemma {:induction false} SortedUnique(a: seq<string>, b: seq<string>)
    requires SortedStrings(a) && SortedStrings(b)
    requires multiset(a) == multiset(b)
    ensures a == b
  {
    if a == [] {
      assert |b| == |multiset(b)| == 0;
    } else {
      SortedHeads(a, b);
      SortedTail(a);
      SortedTail(b);
      SortedUnique(a[1..], b[1..]);
      assert a == [a[0]] + a[1..] && b == [b[0]] + b[1..];
    }
  }

  /** A rearrangement has the same elements. */
  lemma SortedKeepsElements(a: seq<string>, b: seq<string>)
    requires multiset(a) == multiset(b)
    ensures forall i :: 0 <= i < |b| ==> b[i] in a
    ensures forall i :: 0 <= i < |a| ==> a[i] in b
  {
    forall i | 0 <= i < |b| ensures b[i] in a {
      assert b[i] in multiset(a);
    }
    forall i | 0 <= i < |a| ensures a[i] in b {
      assert a[i] in multiset(b);
    }
  }

  /** Sorting is insensitive to the order of its input. */
  lemma SortStringsPermutation(a: seq<string>, b: seq<string>)
    requires multiset(a) == multiset(b)
    ensures SortStrings(a) == SortStrings(b)
  {
    SortedUnique(SortStrings(a), SortStrings(b));
  }

  /** Sorting a sorted sequence returns it unchanged. */
  lemma SortStringsOfSorted(s: seq<string>)
    requires SortedStrings(s)
    ensures SortStrings(s) == s
  {
    SortedUnique(SortStrings(s), s);
  }

  // ---------------------------------------------- stable descending by a key

  predicate NonIncreasing<T>(s: seq<T>, key: T -> real) {
    forall i, j :: 0 <= i < j < |s| ==> key(s[i]) >= key(s[j])
  }

  /** Puts `x` before the first element whose key is not larger than its own. */
  function InsertDesc<T>(x: T, s: seq<T>, key: T -> real): (r: seq<T>)
    ensures |r| == |s| + 1
  {
    if s == [] then [x]
    else if key(s[0]) <= key(x) then [x] + s
    else [s[0]] + InsertDesc(x, s[1..], key)
  }

  /** Inserting adds `x` and loses nothing. */
  lemma {:induction false} InsertDescPermutation<T>(x: T, s: seq<T>, key: T -> real)
    ensures multiset(InsertDesc(x, s, key)) == multiset(s) + multiset{x}
  {
    if s != [] && key(s[0]) > key(x) {
      InsertDescPermutation(x, s[1..], key);
      assert s == [s[0]] + s[1..];
    }
  }

  /** A bound on the keys of `x` and of `s` bounds the keys of the insertion. */
  lemma {:induction false} InsertDescBounded<T>(x: T, s: seq<T>, key: T -> real, bound: real)
    requires key(x) <= bound
    requires forall i :: 0 <= i < |s| ==> key(s[i]) <= bound
    ensures forall j :: 0 <= j < |s| + 1 ==> key(InsertDesc(x, s, key)[j]) <= bound
  {
    if s != [] && key(s[0]) > key(x) {
      InsertDescBounded(x, s[1..], key, bound);
    }
  }

  /** Inserting into a non-increasing sequence keeps it non-increasing. */
  lemma {:induction false} InsertDescSorted<T>(x: T, s: seq<T>, key: T -> real)
    requires NonIncreasing(s, key)
    ensures NonIncreasing(InsertDesc(x, s, key), key)
  {
    if s != [] && key(s[0]) > key(x) {
      InsertDescSorted(x, s[1..], key);
      InsertDescBounded(x, s[1..], key, key(s[0]));
    }
  }

  /** `s.sort((a, b) => key(b) - key(a))` with a stable sort: the keys do not increase
      along the result, which is a permutation of `s`. */
  function SortDesc<T>(s: seq<T>, key: T -> real): (r: seq<T>)
    ensures NonIncreasing(r, key)
    ensures multiset(r) == multiset(s)
    ensures |r| == |s|
  {
    if s == [] then []
    else
      assert s == [s[0]] + s[1..];
      InsertDescSorted(s[0], SortDesc(s[1..], key), key);
      InsertDescPermutation(s[0], SortDesc(s[1..], key), key);
      InsertDesc(s[0], SortDesc(s[1..], key), key)
  }

  /** Sorting commutes with a map that preserves the key. */
  lemma {:induction false} InsertDescMap<A, B>(x: A, s: seq<A>, f: A -> B, ka: A -> real, kb: B -> real)
    requires forall a :: ka(a) == kb(f(a))
    ensures InsertDesc(f(x), MapSeq(s, f), kb) == MapSeq(InsertDesc(x, s, ka), f)
  {
    if s != [] {
      assert MapSeq(s, f)[1..] == MapSeq(s[1..], f);
      InsertDescMap(x, s[1..], f, ka, kb);
    }
  }

  lemma {:induction false} SortDescMap<A, B>(s: seq<A>, f: A -> B, ka: A -> real, kb: B -> real)
    requires forall a :: ka(a) == kb(f(a))
    ensures SortDesc(MapSeq(s, f), kb) == MapSeq(SortDesc(s, ka), f)
  {
    if s != [] {
      assert MapSeq(s, f)[1..] == MapSeq(s[1..], f);
      SortDescMap(s[1..], f, ka, kb);
      InsertDescMap(s[0], SortDesc(s[1..], ka), f, ka, kb);
    }
  }

  /** Inserting `x` adds one to the count of a filter exactly when `x` passes it. */
  lemma {:induction false} InsertDescCount<T>(x: T, s: seq<T>, key: T -> real, p: T -> bool)
    ensures |Filter(InsertDesc(x, s, key), p)| == |Filter(s, p)| + (if p(x) then 1 else 0)
  {
    var r := InsertDesc(x, s, key);
    if s != [] && key(s[0]) > key(x) {
      InsertDescCount(x, s[1..], key, p);
      assert r[0] == s[0] && r[1..] == InsertDesc(x, s[1..], key);
      assert Filter(r, p) == (if p(s[0]) then [s[0]] else []) + Filter(InsertDesc(x, s[1..], key), p);
      assert Filter(s, p) == (if p(s[0]) then [s[0]] else []) + Filter(s[1..], p);
    } else {
      assert r == [x] + s && r[1..] == s;
    }
  }

  /** Sorting does not change how many elements pass a filter. */
  lemma {:induction false} SortDescCount<T>(s: seq<T>, key: T -> real, p: T -> bool)
    ensures |Filter(SortDesc(s, key), p)| == |Filter(s, p)|
  {
    if s != [] {
      SortDescCount(s[1..], key, p);
      InsertDescCount(s[0], SortDesc(s[1..], key), key, p);
    }
  }

  /** The head of a descending sort has the largest key. */
  lemma SortDescHeadIsMax<T>(s: seq<T>, key: T -> real, x: T)
    requires x in s
    ensures key(SortDesc(s, key)[0]) >= key(x)
  {
    var r := SortDesc(s, key);
    assert x in multiset(r);
    var k :| 0 <= k < |r| && r[k] == x;
  }

  /** Each element paired with its input position. */
  function Tagged<T>(s: seq<T>): (r: seq<(T, nat)>)
    ensures |r| == |s|
    ensures forall i :: 0 <= i < |s| ==> r[i] == (s[i], i)
  {
    seq(|s|, i requires 0 <= i < |s| => (s[i], i))
  }

  function TagKey<T>(key: T -> real): ((T, nat)) -> real {
    (p: (T, nat)) => key(p.0)
  }

  function Untag<T>(): ((T, nat)) -> T {
    (p: (T, nat)) => p.0
  }

  /** Among elements with equal keys, input positions increase. */
  predicate KeepsInputOrder<T>(t: seq<(T, nat)>, key: T -> real) {
    forall i, j :: 0 <= i < j < |t| && key(t[i].0) == key(t[j].0) ==> t[i].1 < t[j].1
  }

  /** Where the `j`-th element of an insertion comes from: `x` itself (`-1`) or a position of `s`. */
  lemma {:induction false} InsertDescSource<T>(x: T, s: seq<T>, key: T -> real, j: nat) returns (k: int)
    requires j < |s| + 1
    ensures -1 <= k < |s| && InsertDesc(x, s, key)[j] == (if k < 0 then x else s[k])
  {
    if s == [] || j == 0 {
      k := if s != [] && key(s[0]) > key(x) then 0 else -1;
    } else if key(s[0]) <= key(x) {
      k := j - 1;
    } else {
      var rest := InsertDescSource(x, s[1..], key, j - 1);
      k := if rest < 0 then -1 else rest + 1;
    }
  }

  lemma {:induction false} InsertDescStable<T>(x: (T, nat), t: seq<(T, nat)>, key: T -> real)
    requires NonIncreasing(t, TagKey(key))
    requires KeepsInputOrder(t, key)
    requires forall i :: 0 <= i < |t| ==> x.1 < t[i].1
    ensures KeepsInputOrder(InsertDesc(x, t, TagKey(key)), key)
  {
    if t != [] && TagKey(key)(t[0]) > TagKey(key)(x) {
      var rest := InsertDesc(x, t[1..], TagKey(key));
      InsertDescStable(x, t[1..], key);
      forall j | 0 <= j < |rest| && key(t[0].0) == key(rest[j].0) ensures t[0].1 < rest[j].1 {
        var k := InsertDescSource(x, t[1..], TagKey(key), j);
        if k >= 0 {
          assert t[1..][k] == t[k + 1];
        }
      }
    }
  }

  lemma {:induction false} SortTaggedStable<T>(t: seq<(T, nat)>, key: T -> real)
    requires forall i, j :: 0 <= i < j < |t| ==> t[i].1 < t[j].1
    ensures KeepsInputOrder(SortDesc(t, TagKey(key)), key)
  {
    if t != [] {
      SortTaggedStable(t[1..], key);
      var r := SortDesc(t[1..], TagKey(key));
      forall i | 0 <= i < |r| ensures t[0].1 < r[i].1 {
        assert r[i] in multiset(t[1..]);
        var k :| 0 <= k < |t[1..]| && t[1..][k] == r[i];
        assert t[k + 1] == r[i];
      }
      InsertDescStable(t[0], r, key);
    }
  }

  /** The stability of `SortDesc`: `SortDesc(s, key)` is `s` rearranged by a bijection of
      positions `perm` that lists equal-key elements in their input order. */
  function SortOrder<T>(s: seq<T>, key: T -> real): (perm: seq<nat>)
    ensures |perm| == |s|
    ensures forall k :: 0 <= k < |s| ==> perm[k] < |s| && SortDesc(s, key)[k] == s[perm[k]]
    ensures forall k, l :: 0 <= k < l < |s| && key(s[perm[k]]) == key(s[perm[l]]) ==> perm[k] < perm[l]
    ensures forall k, l :: 0 <= k < l < |s| ==> perm[k] != perm[l]
  {
    var t := SortDesc(Tagged(s), TagKey(key));
    SortTaggedStable(Tagged(s), key);
    assert MapSeq(Tagged(s), Untag()) == s;
    SortDescMap(Tagged(s), Untag(), TagKey(key), key);
    forall k | 0 <= k < |t| ensures t[k].1 < |s| && t[k].0 == s[t[k].1] {
      assert t[k] in multiset(Tagged(s));
    }
    MapSeq(t, (p: (T, nat)) => p.1)
  }
}

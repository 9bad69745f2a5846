/** Sequence operations the screens use: Swift's `filter`, `sorted(by:)` and `reversed()`. */
module Collections {

  /** `s.filter(p)`: the elements satisfying `p`, in their original order. */
  function Filter<T>(s: seq<T>, p: T -> bool): (r: seq<T>)
    ensures |r| <= |s|
    ensures forall i :: 0 <= i < |r| ==> r[i] in s && p(r[i])
    ensures forall i :: 0 <= i < |s| && p(s[i]) ==> s[i] in r
  {
    if s == [] then [] else (if p(s[0]) then [s[0]] else []) + Filter(s[1..], p)
  }

  lemma {:induction false} FilterConcat<T>(a: seq<T>, b: seq<T>, p: T -> bool)
    ensures Filter(a + b, p) == Filter(a, p) + Filter(b, p)
  {
    if a == [] {
      assert a + b == b;
    } else {
      assert (a + b)[1..] == a[1..] + b;
      FilterConcat(a[1..], b, p);
    }
  }

  /** Every element passes exactly one of `p` and its negation. */
  lemma {:induction false} FilterSplits<T>(s: seq<T>, p: T -> bool, q: T -> bool)
    requires forall x :: q(x) == !p(x)
    ensures multiset(Filter(s, p)) + multiset(Filter(s, q)) == multiset(s)
    ensures |Filter(s, p)| + |Filter(s, q)| == |s|
  {
    if s != [] {
      FilterSplits(s[1..], p, q);
      assert s == [s[0]] + s[1..];
    }
  }

  /** Two filters in a row are one filter by the conjunction. */
  lemma {:induction false} FilterFilter<T>(s: seq<T>, p: T -> bool, q: T -> bool, pq: T -> bool)
    requires forall x :: pq(x) == (p(x) && q(x))
    ensures Filter(Filter(s, p), q) == Filter(s, pq)
  {
    if s != [] {
      FilterFilter(s[1..], p, q, pq);
      var fp := Filter(s, p);
      if p(s[0]) {
        assert fp == [s[0]] + Filter(s[1..], p);
        assert fp[0] == s[0] && fp[1..] == Filter(s[1..], p);
        assert Filter(fp, q) == (if q(s[0]) then [s[0]] else []) + Filter(Filter(s[1..], p), q);
      } else {
        assert fp == Filter(s[1..], p);
      }
      assert Filter(s, pq) == (if pq(s[0]) then [s[0]] else []) + Filter(s[1..], pq);
    }
  }

  /** A filter that every element passes changes nothing. */
  lemma {:induction false} FilterAll<T>(s: seq<T>, p: T -> bool)
    requires forall i :: 0 <= i < |s| ==> p(s[i])
    ensures Filter(s, p) == s
  {
    if s != [] {
      FilterAll(s[1..], p);
    }
  }

  ghost predicate NoDuplicates<T>(s: seq<T>) {
    forall i, j :: 0 <= i < j < |s| ==> s[i] != s[j]
  }

  /** The position of `x` in `s`. */
  function IndexOf<T(==)>(s: seq<T>, x: T): (i: nat)
    requires x in s
    ensures i < |s| && s[i] == x
    ensures forall j :: 0 <= j < i ==> s[j] != x
  {
    if s[0] == x then 0 else 1 + IndexOf(s[1..], x)
  }

  /** `r` lists elements of `s` in the order they have in `s`. */
  ghost predicate InOrderOf<T>(r: seq<T>, s: seq<T>) {
    && (forall x :: x in r ==> x in s)
    && (forall i, j :: 0 <= i < j < |r| ==> IndexOf(s, r[i]) < IndexOf(s, r[j]))
  }

  lemma TailNoDuplicates<T>(s: seq<T>)
    requires s != [] && NoDuplicates(s)
    ensures NoDuplicates(s[1..])
    ensures s[0] !in s[1..]
  {
    var tail := s[1..];
    forall i, j | 0 <= i < j < |tail| ensures tail[i] != tail[j] {
      assert tail[i] == s[i + 1] && tail[j] == s[j + 1];
    }
    forall j | 0 <= j < |tail| ensures tail[j] != s[0] {
      assert tail[j] == s[j + 1];
    }
  }

  /** Filtering a list without duplicates keeps it free of duplicates. */
  lemma {:induction false} FilterNoDuplicates<T>(s: seq<T>, p: T -> bool)
    requires NoDuplicates(s)
    ensures NoDuplicates(Filter(s, p))
  {
    if s != [] {
      TailNoDuplicates(s);
      FilterNoDuplicates(s[1..], p);
      var rt := Filter(s[1..], p);
      if p(s[0]) {
        var r := Filter(s, p);
        assert r == [s[0]] + rt;
        forall i, j | 0 <= i < j < |r| ensures r[i] != r[j] {
          assert r[j] == rt[j - 1];
          if i > 0 {
            assert r[i] == rt[i - 1];
          }
        }
      }
    }
  }

  lemma IndexOfInTail<T>(s: seq<T>, x: T)
    requires s != [] && x in s[1..] && x != s[0]
    ensures IndexOf(s, x) == 1 + IndexOf(s[1..], x)
  {
  }

  /** Putting the head of `s` (or nothing) in front of a list in the order of its tail keeps it in the order of `s`. */
  lemma ConsInOrder<T>(s: seq<T>, rt: seq<T>, keepHead: bool)
    requires s != [] && s[0] !in s[1..]
    requires InOrderOf(rt, s[1..])
    ensures InOrderOf((if keepHead then [s[0]] else []) + rt, s)
  {
    var r := (if keepHead then [s[0]] else []) + rt;
    var k := if keepHead then 1 else 0;
    forall x | x in r ensures x in s {
      if x != s[0] {
        assert x in rt && x in s[1..];
      }
    }
    forall i, j | 0 <= i < j < |r| ensures IndexOf(s, r[i]) < IndexOf(s, r[j]) {
      assert r[j] == rt[j - k] && rt[j - k] in rt;
      IndexOfInTail(s, r[j]);
      if i >= k {
        assert r[i] == rt[i - k] && rt[i - k] in rt;
        IndexOfInTail(s, r[i]);
      }
    }
  }

  /** Filtering a list without duplicates keeps its elements in their relative order. */
  lemma {:induction false} FilterKeepsOrder<T>(s: seq<T>, p: T -> bool)
    requires NoDuplicates(s)
    ensures InOrderOf(Filter(s, p), s)
  {
    if s != [] {
      TailNoDuplicates(s);
      FilterKeepsOrder(s[1..], p);
      ConsInOrder(s, Filter(s[1..], p), p(s[0]));
    }
  }

  ghost predicate SortedBy<T>(s: seq<T>, key: T -> int) {
    forall i, j :: 0 <= i < j < |s| ==> key(s[i]) <= key(s[j])
  }

  /** Insert `x` before the first element whose key is not smaller. */
  function InsertBy<T>(x: T, s: seq<T>, key: T -> int): (r: seq<T>)
    requires SortedBy(s, key)
    ensures SortedBy(r, key)
    ensures multiset(r) == multiset(s) + multiset{x}
    ensures |r| == |s| + 1
    ensures r[0] == x || (s != [] && r[0] == s[0])
  {
    if s == [] || key(x) <= key(s[0]) then
      ConsSorted(x, s, true, key);
      [x] + s
    else
      var rest := InsertBy(x, s[1..], key);
      assert s == [s[0]] + s[1..];
      HeadBelow(s[0], x, s[1..], rest, key);
      ConsSorted(s[0], rest, true, key);
      [s[0]] + rest
  }

  /** A key at or below `key(x)` and every key of `s` is at or below every key of a permutation of `s + [x]`. */
  lemma HeadBelow<T>(h: T, x: T, s: seq<T>, r: seq<T>, key: T -> int)
    requires key(h) <= key(x)
    requires forall i :: 0 <= i < |s| ==> key(h) <= key(s[i])
    requires multiset(r) == multiset(s) + multiset{x}
    ensures forall i :: 0 <= i < |r| ==> key(h) <= key(r[i])
  {
    forall i | 0 <= i < |r| ensures key(h) <= key(r[i]) {
      assert r[i] in multiset(r);
      if r[i] != x {
        assert r[i] in multiset(s);
      }
    }
  }

  /**
   * `sorted(by:)` on an integer key: a stable insertion sort. The result is ordered by key
   * and holds exactly the elements of `s`.
   */
  function SortBy<T>(s: seq<T>, key: T -> int): (r: seq<T>)
    ensures SortedBy(r, key)
    ensures multiset(r) == multiset(s)
    ensures |r| == |s|
  {
    if s == [] then [] else
      assert s == [s[0]] + s[1..];
      InsertBy(s[0], SortBy(s[1..], key), key)
  }

  /** `reversed()`. */
  function Reverse<T>(s: seq<T>): (r: seq<T>)
    ensures |r| == |s|
    ensures forall i :: 0 <= i < |s| ==> r[i] == s[|s| - 1 - i]
  {
    if s == [] then [] else Reverse(s[1..]) + [s[0]]
  }

  /** Reversing a list sorted by a key puts it in descending key order. */
  lemma ReverseSortedBy<T>(s: seq<T>, key: T -> int)
    requires SortedBy(s, key)
    ensures forall i, j :: 0 <= i < j < |s| ==> key(Reverse(s)[i]) >= key(Reverse(s)[j])
  {
    var r := Reverse(s);
    forall i, j | 0 <= i < j < |s| ensures key(r[i]) >= key(r[j]) {
      assert r[i] == s[|s| - 1 - i] && r[j] == s[|s| - 1 - j];
    }
  }

  lemma {:induction false} ReverseMultiset<T>(s: seq<T>)
    ensures multiset(Reverse(s)) == multiset(s)
  {
    if s != [] {
      ReverseMultiset(s[1..]);
      assert s == [s[0]] + s[1..];
    }
  }

  lemma ConsSorted<T>(x: T, rest: seq<T>, keep: bool, key: T -> int)
    requires SortedBy(rest, key)
    requires forall i :: 0 <= i < |rest| ==> key(x) <= key(rest[i])
    ensures SortedBy((if keep then [x] else []) + rest, key)
  {
    var r := (if keep then [x] else []) + rest;
    var k := if keep then 1 else 0;
    forall i, j | 0 <= i < j < |r| ensures key(r[i]) <= key(r[j]) {
      assert r[j] == rest[j - k];
      if i >= k {
        assert r[i] == rest[i - k];
      }
    }
  }

  /** Filtering a sorted list leaves it sorted. */
  lemma {:induction false} FilterSortedBy<T>(s: seq<T>, p: T -> bool, key: T -> int)
    requires SortedBy(s, key)
    ensures SortedBy(Filter(s, p), key)
  {
    if s != [] {
      FilterSortedBy(s[1..], p, key);
      var rest := Filter(s[1..], p);
      forall i | 0 <= i < |rest| ensures key(s[0]) <= key(rest[i]) {
        var j :| 0 <= j < |s[1..]| && s[1..][j] == rest[i];
        assert s[j + 1] == rest[i];
      }
      ConsSorted(s[0], rest, p(s[0]), key);
    }
  }

  /** How many elements pass a filter does not depend on their order. */
  lemma {:induction false} FilterCountPermutation<T>(a: seq<T>, b: seq<T>, p: T -> bool)
    requires multiset(a) == multiset(b)
    ensures |Filter(a, p)| == |Filter(b, p)|
    decreases |a|
  {
    if a == [] {
      assert |b| == |multiset(b)| == 0;
    } else {
      var x := a[0];
      assert a == [x] + a[1..];
      assert x in multiset(b);
      var i :| 0 <= i < |b| && b[i] == x;
      var rest := b[..i] + b[i + 1..];
      assert b == b[..i] + [x] + b[i + 1..];
      assert multiset(b) == multiset(b[..i]) + multiset{x} + multiset(b[i + 1..]);
      assert multiset(a) == multiset{x} + multiset(a[1..]);
      assert multiset(rest) == multiset(b[..i]) + multiset(b[i + 1..]);
      forall y ensures multiset(a[1..])[y] == multiset(rest)[y] {
        assert multiset(a)[y] == multiset{x}[y] + multiset(a[1..])[y];
        assert multiset(b)[y] == multiset(b[..i])[y] + multiset{x}[y] + multiset(b[i + 1..])[y];
      }
      assert multiset(a[1..]) == multiset(rest);
      FilterCountPermutation(a[1..], rest, p);
      FilterConcat(b[..i], b[i + 1..], p);
      FilterConcat(b[..i] + [x], b[i + 1..], p);
      FilterConcat(b[..i], [x], p);
      FilterConcat([x], a[1..], p);
    }
  }

  /** A filter that no element passes leaves nothing. */
  lemma {:induction false} FilterNone<T>(s: seq<T>, p: T -> bool)
    requires forall i :: 0 <= i < |s| ==> !p(s[i])
    ensures Filter(s, p) == []
  {
    if s != [] {
      FilterNone(s[1..], p);
    }
  }

  /** Replacing one element changes a filter's count by what the old and new element contribute. */
  lemma FilterCountUpdate<T>(s: seq<T>, at: nat, y: T, p: T -> bool)
    requires at < |s|
    ensures |Filter(s[at := y], p)| + (if p(s[at]) then 1 else 0) == |Filter(s, p)| + (if p(y) then 1 else 0)
  {
    assert s == s[..at] + [s[at]] + s[at + 1..];
    assert s[at := y] == s[..at] + [y] + s[at + 1..];
    FilterConcat(s[..at] + [s[at]], s[at + 1..], p);
    FilterConcat(s[..at], [s[at]], p);
    FilterConcat(s[..at] + [y], s[at + 1..], p);
    FilterConcat(s[..at], [y], p);
  }

  /** Filtering out exactly one element leaves the rest as it was. */
  lemma {:induction false} FilterDropsOne<T>(before: seq<T>, x: T, after: seq<T>, p: T -> bool)
    requires forall i :: 0 <= i < |before| ==> p(before[i])
    requires !p(x)
    requires forall i :: 0 <= i < |after| ==> p(after[i])
    ensures Filter(before + [x] + after, p) == before + after
  {
    var whole := before + [x] + after;
    if before == [] {
      assert whole[0] == x && whole[1..] == after;
      FilterAll(after, p);
    } else {
      assert whole[0] == before[0] && whole[1..] == before[1..] + [x] + after;
      FilterDropsOne(before[1..], x, after, p);
      assert before + after == [before[0]] + (before[1..] + after);
    }
  }


  /** An element that fails the filter makes the result shorter than the list. */
  lemma FilterMissesOne<T>(s: seq<T>, p: T -> bool, at: nat)
    requires at < |s| && !p(s[at])
    ensures |Filter(s, p)| < |s|
  {
    assert s == s[..at] + [s[at]] + s[at + 1..];
    FilterConcat(s[..at] + [s[at]], s[at + 1..], p);
    FilterConcat(s[..at], [s[at]], p);
    assert Filter([s[at]], p) == [] by {
      assert [s[at]][1..] == [];
    }
  }

  /** A filter keeps the whole list exactly when every element passes it. */
  lemma FilterFull<T>(s: seq<T>, p: T -> bool)
    ensures |Filter(s, p)| == |s| <==> forall i :: 0 <= i < |s| ==> p(s[i])
  {
    if forall i :: 0 <= i < |s| ==> p(s[i]) {
      FilterAll(s, p);
    } else {
      var i :| 0 <= i < |s| && !p(s[i]);
      FilterMissesOne(s, p, i);
    }
  }
}

/** Sequences sorted by a total preorder, and cutting them off. */
module Ordering {
  ghost predicate TotalPreorder<T(!new)>(le: (T, T) -> bool) {
    && (forall x, y :: le(x, y) || le(y, x))
    && (forall x, y, z :: le(x, y) && le(y, z) ==> le(x, z))
  }

  ghost predicate Sorted<T>(le: (T, T) -> bool, s: seq<T>) {
    forall i, j :: 0 <= i < j < |s| ==> le(s[i], s[j])
  }

  /** s is one of the orders in which the rows m can be listed. */
  ghost predicate SortedPerm<T(!new)>(le: (T, T) -> bool, s: seq<T>, m: multiset<T>) {
    Sorted(le, s) && multiset(s) == m
  }

  function Filter<T>(p: T -> bool, s: seq<T>): seq<T> {
    if s == [] then [] else (if p(s[0]) then [s[0]] else []) + Filter(p, s[1..])
  }

  lemma {:induction false} FilterCounts<T>(p: T -> bool, s: seq<T>, x: T)
    ensures multiset(Filter(p, s))[x] == if p(x) then multiset(s)[x] else 0
  {
    if s != [] {
      assert s == [s[0]] + s[1..];
      FilterCounts(p, s[1..], x);
    }
  }

  /** Filtering is about the rows, not their order. */
  lemma FilterOfPerm<T(!new)>(p: T -> bool, s: seq<T>, t: seq<T>)
    requires multiset(s) == multiset(t)
    ensures multiset(Filter(p, s)) == multiset(Filter(p, t))
  {
    var a, b := multiset(Filter(p, s)), multiset(Filter(p, t));
    forall x ensures a[x] == b[x] {
      FilterCounts(p, s, x);
      FilterCounts(p, t, x);
    }
    assert a == b;
  }

  /** Filtering twice, the first time more generously, is filtering once. */
  lemma FilterAgain<T(!new)>(p: T -> bool, wide: T -> bool, s: seq<T>)
    requires forall x :: x in s && p(x) ==> wide(x)
    ensures multiset(Filter(p, Filter(wide, s))) == multiset(Filter(p, s))
  {
    var a, b := multiset(Filter(p, Filter(wide, s))), multiset(Filter(p, s));
    forall x ensures a[x] == b[x] {
      FilterCounts(p, Filter(wide, s), x);
      FilterCounts(wide, s, x);
      FilterCounts(p, s, x);
      if x !in s { assert multiset(s)[x] == 0; }
    }
    assert a == b;
  }

  lemma {:induction false} FilterAll<T>(p: T -> bool, s: seq<T>)
    requires forall x :: x in s ==> p(x)
    ensures Filter(p, s) == s
  {
    if s != [] {
      FilterAll(p, s[1..]);
      assert s == [s[0]] + s[1..];
    }
  }

  lemma FilterMembers<T(!new)>(p: T -> bool, s: seq<T>)
    ensures forall x :: x in Filter(p, s) <==> x in s && p(x)
  {
    forall x ensures x in Filter(p, s) <==> x in s && p(x) {
      FilterCounts(p, s, x);
      assert x in Filter(p, s) <==> multiset(Filter(p, s))[x] > 0;
      assert x in s <==> multiset(s)[x] > 0;
    }
  }

  lemma {:induction false} FilterConcat<T>(p: T -> bool, s: seq<T>, t: seq<T>)
    ensures Filter(p, s + t) == Filter(p, s) + Filter(p, t)
  {
    if s == [] {
      assert s + t == t;
    } else {
      FilterConcat(p, s[1..], t);
      assert (s + t)[0] == s[0] && (s + t)[1..] == s[1..] + t;
    }
  }

  function Take<T>(n: nat, s: seq<T>): seq<T> {
    if n < |s| then s[..n] else s
  }

  function Concat<T>(parts: seq<seq<T>>): seq<T> {
    if parts == [] then [] else parts[0] + Concat(parts[1..])
  }

  function Insert<T>(le: (T, T) -> bool, x: T, s: seq<T>): seq<T> {
    if s == [] || le(x, s[0]) then [x] + s else [s[0]] + Insert(le, x, s[1..])
  }

  function Sort<T>(le: (T, T) -> bool, s: seq<T>): seq<T> {
    if s == [] then [] else Insert(le, s[0], Sort(le, s[1..]))
  }

  lemma {:induction false} InsertSorts<T(!new)>(le: (T, T) -> bool, x: T, s: seq<T>)
    requires TotalPreorder(le) && Sorted(le, s)
    ensures SortedPerm(le, Insert(le, x, s), multiset(s) + multiset{x})
  {
    if s == [] {
    } else if le(x, s[0]) {
      forall j | 1 <= j < |s| ensures le(x, s[j]) { assert le(s[0], s[j]); }
    } else {
      var r := Insert(le, x, s[1..]);
      InsertSorts(le, x, s[1..]);
      assert s == [s[0]] + s[1..];
      forall j | 0 <= j < |r| ensures le(s[0], r[j]) {
        assert r[j] in multiset(r);
        if r[j] != x {
          assert r[j] in multiset(s[1..]);
          var k :| 0 <= k < |s[1..]| && s[1..][k] == r[j];
          assert s[k + 1] == r[j];
        }
      }
    }
  }

  /** Every list has a sorted order. */
  lemma {:induction false} SortSorts<T(!new)>(le: (T, T) -> bool, s: seq<T>)
    requires TotalPreorder(le)
    ensures SortedPerm(le, Sort(le, s), multiset(s))
  {
    if s != [] {
      SortSorts(le, s[1..]);
      InsertSorts(le, s[0], Sort(le, s[1..]));
      assert s == [s[0]] + s[1..];
    }
  }

  lemma SubmultisetSize<T>(a: multiset<T>, b: multiset<T>)
    ensures a <= b ==> |a| <= |b|
  {
    if a <= b { assert b == a + (b - a); }
  }

  /** If more than k rows of a sorted list are no greater than d, its row k is not either. */
  lemma FirstNBelow<T(!new)>(le: (T, T) -> bool, s: seq<T>, low: seq<T>, d: T, k: nat)
    requires TotalPreorder(le) && Sorted(le, s)
    requires multiset(low) <= multiset(s) && forall x :: x in low ==> le(x, d)
    requires k < |s| && k < |low|
    ensures le(s[k], d)
  {
    var head, tail := s[..k], s[k..];
    SubmultisetSize(multiset(low), multiset(head));
    assert |multiset(low)| == |low| && |multiset(head)| == k;
    var x :| multiset(low)[x] > multiset(head)[x];
    assert s == head + tail;
    assert multiset(s)[x] == multiset(head)[x] + multiset(tail)[x];
    assert x in low && x in tail;
    SortedFrom(le, s, k, x);
  }

  lemma SortedFrom<T(!new)>(le: (T, T) -> bool, s: seq<T>, k: nat, x: T)
    requires TotalPreorder(le) && Sorted(le, s)
    requires k < |s| && x in s[k..]
    ensures le(s[k], x)
  {
    var j :| 0 <= j < |s[k..]| && s[k..][j] == x;
    assert s[k + j] == x;
    assert le(s[k], s[k]);
  }

  /** The rows a cut at n drops from each part. */
  function Dropped<T>(n: nat, parts: seq<seq<T>>): seq<T> {
    if parts == [] then []
    else (if n < |parts[0]| then parts[0][n..] else []) + Dropped(n, parts[1..])
  }

  function TakeEach<T>(n: nat, parts: seq<seq<T>>): (r: seq<seq<T>>)
    ensures |r| == |parts| && forall i :: 0 <= i < |parts| ==> r[i] == Take(n, parts[i])
  {
    seq(|parts|, i requires 0 <= i < |parts| => Take(n, parts[i]))
  }

  lemma {:induction false} KeptAndDropped<T>(n: nat, parts: seq<seq<T>>)
    ensures multiset(Concat(parts)) == multiset(Concat(TakeEach(n, parts))) + multiset(Dropped(n, parts))
  {
    if parts != [] {
      KeptAndDropped(n, parts[1..]);
      assert TakeEach(n, parts)[1..] == TakeEach(n, parts[1..]);
      if n < |parts[0]| { assert parts[0] == parts[0][..n] + parts[0][n..]; }
    }
  }

  lemma {:induction false} PartOfConcat<T>(parts: seq<seq<T>>, i: nat)
    requires i < |parts|
    ensures multiset(parts[i]) <= multiset(Concat(parts))
  {
    if i > 0 { PartOfConcat(parts[1..], i - 1); }
  }

  /** A dropped row comes from a part that kept n rows, none of them greater. */
  lemma {:induction false} DroppedFrom<T(!new)>(le: (T, T) -> bool, n: nat, parts: seq<seq<T>>, d: T) returns (i: nat)
    requires forall j :: 0 <= j < |parts| ==> Sorted(le, parts[j])
    requires d in Dropped(n, parts)
    ensures i < |parts| && n < |parts[i]|
    ensures forall x :: x in parts[i][..n] ==> le(x, d)
  {
    if n < |parts[0]| && d in parts[0][n..] {
      i := 0;
      var k :| 0 <= k < |parts[0][n..]| && parts[0][n..][k] == d;
      assert parts[0][n + k] == d;
    } else {
      assert forall j :: 0 <= j < |parts[1..]| ==> parts[1..][j] == parts[j + 1];
      i := DroppedFrom(le, n, parts[1..], d);
      i := i + 1;
    }
  }

  /** The first n kept rows, sorted, are no greater than any dropped row. */
  lemma KeptBelowDropped<T(!new)>(le: (T, T) -> bool, n: nat, parts: seq<seq<T>>, s: seq<T>, d: T)
    requires TotalPreorder(le)
    requires forall i :: 0 <= i < |parts| ==> Sorted(le, parts[i])
    requires SortedPerm(le, s, multiset(Concat(TakeEach(n, parts))))
    requires d in Dropped(n, parts)
    ensures n <= |s| && forall k :: 0 <= k < n ==> le(s[k], d)
  {
    var p := DroppedFrom(le, n, parts, d);
    var low := parts[p][..n];
    PartOfConcat(TakeEach(n, parts), p);
    assert multiset(low) <= multiset(s);
    SubmultisetSize(multiset(low), multiset(s));
    assert |multiset(low)| == n && |multiset(s)| == |s|;
    forall k | 0 <= k < n ensures le(s[k], d) {
      FirstNBelow(le, s, low, d, k);
    }
  }

  lemma SortedAppend<T(!new)>(le: (T, T) -> bool, a: seq<T>, b: seq<T>)
    requires Sorted(le, a) && Sorted(le, b)
    requires forall i, j :: 0 <= i < |a| && 0 <= j < |b| ==> le(a[i], b[j])
    ensures Sorted(le, a + b)
  {
  }

  lemma KeptBelowRest<T(!new)>(le: (T, T) -> bool, n: nat, parts: seq<seq<T>>, s: seq<T>, k: nat, y: T)
    requires TotalPreorder(le)
    requires forall i :: 0 <= i < |parts| ==> Sorted(le, parts[i])
    requires SortedPerm(le, s, multiset(Concat(TakeEach(n, parts))))
    requires k < n <= |s| && y in s[n..] + Dropped(n, parts)
    ensures le(s[k], y)
  {
    if y in Dropped(n, parts) {
      KeptBelowDropped(le, n, parts, s, y);
    } else {
      var m :| 0 <= m < |s[n..]| && s[n..][m] == y;
      assert s[k..][n - k + m] == y;
      SortedFrom(le, s, k, y);
    }
  }

  /** Cutting each sorted part to its first n rows loses nothing of the first n rows of the whole:
      however the kept rows are sorted, some sorted order of all rows starts with the same n. */
  lemma CutPartsKeepFirstN<T(!new)>(le: (T, T) -> bool, n: nat, parts: seq<seq<T>>, s: seq<T>) returns (whole: seq<T>)
    requires TotalPreorder(le)
    requires forall i :: 0 <= i < |parts| ==> Sorted(le, parts[i])
    requires SortedPerm(le, s, multiset(Concat(TakeEach(n, parts))))
    ensures SortedPerm(le, whole, multiset(Concat(parts)))
    ensures Take(n, whole) == Take(n, s)
  {
    var dropped := Dropped(n, parts);
    KeptAndDropped(n, parts);
    if dropped == [] {
      whole := s;
    } else {
      KeptBelowDropped(le, n, parts, s, dropped[0]);
      whole := ExtendFirstN(le, n, parts, s);
      assert multiset(whole) == multiset(s) + multiset(dropped);
    }
  }

  lemma HeadBelowTail<T(!new)>(le: (T, T) -> bool, n: nat, parts: seq<seq<T>>, s: seq<T>, tail: seq<T>)
    requires TotalPreorder(le)
    requires forall i :: 0 <= i < |parts| ==> Sorted(le, parts[i])
    requires SortedPerm(le, s, multiset(Concat(TakeEach(n, parts))))
    requires n <= |s| && multiset(tail) == multiset(s[n..] + Dropped(n, parts))
    ensures forall k, j :: 0 <= k < n && 0 <= j < |tail| ==> le(s[k], tail[j])
  {
    forall k, j | 0 <= k < n && 0 <= j < |tail| ensures le(s[k], tail[j]) {
      assert tail[j] in multiset(tail);
      KeptBelowRest(le, n, parts, s, k, tail[j]);
    }
  }

  lemma SplitRows<T>(s: seq<T>, n: nat)
    requires n <= |s|
    ensures s == s[..n] + s[n..] && multiset(s) == multiset(s[..n]) + multiset(s[n..])
  {
    assert s == s[..n] + s[n..];
  }

  lemma PrefixSorted<T>(le: (T, T) -> bool, s: seq<T>, n: nat)
    requires Sorted(le, s) && n <= |s|
    ensures Sorted(le, s[..n])
  {
  }

  lemma ExtendFirstN<T(!new)>(le: (T, T) -> bool, n: nat, parts: seq<seq<T>>, s: seq<T>) returns (whole: seq<T>)
    requires TotalPreorder(le)
    requires forall i :: 0 <= i < |parts| ==> Sorted(le, parts[i])
    requires SortedPerm(le, s, multiset(Concat(TakeEach(n, parts))))
    requires n <= |s|
    ensures SortedPerm(le, whole, multiset(s) + multiset(Dropped(n, parts)))
    ensures n <= |whole| && whole[..n] == s[..n]
  {
    var rest := s[n..] + Dropped(n, parts);
    var tail := Sort(le, rest);
    SortSorts(le, rest);
    HeadBelowTail(le, n, parts, s, tail);
    PrefixSorted(le, s, n);
    SplitRows(s, n);
    hide Sorted, TotalPreorder, Sort, Dropped, Concat;
    SortedAppend(le, s[..n], tail);
    whole := s[..n] + tail;
  }
}

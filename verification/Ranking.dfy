/**
 Ranks, top-k selections and sortings of finite sets under a strict total order.
 "Top ten" queries and queue positions are stated over ranks here once, and used by the
 heavy-report merge and by the queue.
 */
module Ranking {

  /** A strict total order on the elements of s. */
  ghost predicate TotalOn<T(!new)>(s: set<T>, before: (T, T) -> bool) {
    && (forall x | x in s :: !before(x, x))
    && (forall x, y, z | x in s && y in s && z in s && before(x, y) && before(y, z) :: before(x, z))
    && (forall x, y | x in s && y in s && x != y :: before(x, y) || before(y, x))
  }

  /** The elements placed before x. */
  ghost function Ahead<T(!new)>(s: set<T>, before: (T, T) -> bool, x: T): set<T> {
    set y | y in s && before(y, x)
  }

  /** Number of elements placed before x: SQL's row_number() minus one. */
  ghost function Rank<T(!new)>(s: set<T>, before: (T, T) -> bool, x: T): nat {
    |Ahead(s, before, x)|
  }

  ghost function TopK<T(!new)>(s: set<T>, before: (T, T) -> bool, k: nat): set<T> {
    set x | x in s && Rank(s, before, x) < k
  }

  lemma TotalOnPart<T(!new)>(s: set<T>, part: set<T>, before: (T, T) -> bool)
    requires TotalOn(s, before) && part <= s
    ensures TotalOn(part, before)
  {
  }

  lemma SubsetSize<T>(a: set<T>, b: set<T>)
    requires a <= b
    ensures |a| <= |b|
    ensures a != b ==> |a| < |b|
  {
    assert b == a + (b - a);
    assert |b| == |a| + |b - a|;
    if a != b {
      assert b - a != {};
    }
  }

  lemma RankStrict<T(!new)>(s: set<T>, before: (T, T) -> bool, x: T, y: T)
    requires TotalOn(s, before) && x in s && y in s && before(x, y)
    ensures Rank(s, before, x) < Rank(s, before, y)
  {
    assert Ahead(s, before, x) <= Ahead(s, before, y);
    assert x in Ahead(s, before, y) && x !in Ahead(s, before, x);
    SubsetSize(Ahead(s, before, x), Ahead(s, before, y));
  }

  lemma RankBound<T(!new)>(s: set<T>, before: (T, T) -> bool, x: T)
    requires TotalOn(s, before) && x in s
    ensures Rank(s, before, x) < |s|
  {
    assert Ahead(s, before, x) <= s && x !in Ahead(s, before, x);
    SubsetSize(Ahead(s, before, x), s);
  }

  /** A non-empty set has a first element. */
  lemma {:induction false} FirstExists<T(!new)>(s: set<T>, before: (T, T) -> bool) returns (m: T)
    requires TotalOn(s, before) && s != {}
    ensures m in s && Ahead(s, before, m) == {}
    decreases |s|
  {
    m :| m in s;
    if Ahead(s, before, m) != {} {
      var rest := Ahead(s, before, m);
      RankBound(s, before, m);
      m := FirstExists(rest, before);
      assert Ahead(s, before, m) <= Ahead(rest, before, m);
    }
  }

  /** Taking the first element away moves every other element up by one. */
  lemma RankWithoutFirst<T(!new)>(s: set<T>, before: (T, T) -> bool, m: T, x: T)
    requires TotalOn(s, before) && m in s && Ahead(s, before, m) == {} && x in s && x != m
    ensures Rank(s, before, x) == Rank(s - {m}, before, x) + 1
  {
    assert x !in Ahead(s, before, m);
    assert Ahead(s, before, x) == Ahead(s - {m}, before, x) + {m};
  }

  /** Every rank below |s| is taken by some element. */
  lemma {:induction false} RankOnto<T(!new)>(s: set<T>, before: (T, T) -> bool, p: nat) returns (x: T)
    requires TotalOn(s, before) && p < |s|
    ensures x in s && Rank(s, before, x) == p
    decreases p
  {
    var m := FirstExists(s, before);
    if p == 0 {
      x := m;
    } else {
      x := RankOnto(s - {m}, before, p - 1);
      RankWithoutFirst(s, before, m, x);
    }
  }

  lemma TopKNone<T(!new)>(s: set<T>, before: (T, T) -> bool, k: nat)
    requires s == {} || k == 0
    ensures TopK(s, before, k) == {}
  {
  }

  /** The top k really are k elements, or all of them when there are fewer. */
  lemma {:induction false} TopKSize<T(!new)>(s: set<T>, before: (T, T) -> bool, k: nat)
    requires TotalOn(s, before)
    ensures |TopK(s, before, k)| == if |s| < k then |s| else k
    decreases k
  {
    var t := TopK(s, before, k);
    if s == {} || k == 0 {
      TopKNone(s, before, k);
      assert |t| == 0;
    } else {
      var m := FirstExists(s, before);
      var rest := s - {m};
      assert |s| == |rest| + 1;
      TotalOnPart(s, rest, before);
      TopKSize(rest, before, k - 1);
      assert |TopK(rest, before, k - 1)| == if |rest| < k - 1 then |rest| else k - 1;
      TopKWithoutFirst(s, before, m, k);
      assert |t| == |TopK(rest, before, k - 1)| + 1;
      assert |t| == if |s| < k then |s| else k;
    }
  }

  lemma TopKWithoutFirst<T(!new)>(s: set<T>, before: (T, T) -> bool, m: T, k: nat)
    requires TotalOn(s, before) && m in s && Ahead(s, before, m) == {} && 0 < k
    ensures TopK(s, before, k) == TopK(s - {m}, before, k - 1) + {m}
    ensures |TopK(s, before, k)| == |TopK(s - {m}, before, k - 1)| + 1
  {
    forall x | x in s && x != m
      ensures x in TopK(s, before, k) <==> x in TopK(s - {m}, before, k - 1)
    {
      RankWithoutFirst(s, before, m, x);
    }
  }

  /** A part of s keeps at least the overall winners it contains. */
  lemma TopKOfPart<T(!new)>(s: set<T>, part: set<T>, before: (T, T) -> bool, k: nat)
    requires part <= s
    ensures TopK(s, before, k) * part <= TopK(part, before, k)
  {
    forall x | x in TopK(s, before, k) * part
      ensures x in TopK(part, before, k)
    {
      SubsetSize(Ahead(part, before, x), Ahead(s, before, x));
    }
  }

  /** Dropping only elements outside the top k does not change the top k. */
  lemma TopKOfKept<T(!new)>(s: set<T>, kept: set<T>, before: (T, T) -> bool, k: nat)
    requires TotalOn(s, before) && kept <= s && TopK(s, before, k) <= kept
    ensures TopK(kept, before, k) == TopK(s, before, k)
  {
    forall x | x in TopK(s, before, k)
      ensures x in TopK(kept, before, k)
    {
      SubsetSize(Ahead(kept, before, x), Ahead(s, before, x));
    }
    forall x | x in TopK(kept, before, k)
      ensures x in TopK(s, before, k)
    {
      if k <= Rank(s, before, x) {
        forall y | y in TopK(s, before, k)
          ensures y in Ahead(kept, before, x)
        {
          if before(x, y) {
            RankStrict(s, before, x, y);
          }
        }
        SubsetSize(TopK(s, before, k), Ahead(kept, before, x));
        SubsetSize(Ahead(s, before, x), s);
        TopKSize(s, before, k);
      }
    }
  }

  // ---- Sortings ----

  ghost predicate Ordered<T(!new)>(a: seq<T>, before: (T, T) -> bool) {
    forall i, j | 0 <= i < j < |a| :: before(a[i], a[j])
  }

  ghost function Elements<T(!new)>(a: seq<T>): set<T> {
    set x | x in a
  }

  /** In a sorted listing of s the index of an element is its rank. */
  lemma {:induction false} IndexIsRank<T(!new)>(a: seq<T>, s: set<T>, before: (T, T) -> bool, i: nat)
    requires TotalOn(s, before) && Elements(a) == s && Ordered(a, before) && i < |a|
    ensures Rank(s, before, a[i]) == i
    ensures Ahead(s, before, a[i]) == Elements(a[..i])
  {
    assert forall j | 0 <= j < |a| :: a[j] in s;
    forall y | y in s
      ensures before(y, a[i]) <==> y in a[..i]
    {
      var j :| 0 <= j < |a| && a[j] == y;
      if j < i {
        assert a[..i][j] == y;
      } else if j > i {
        assert !before(a[j], a[i]);
      }
    }
    assert Ahead(s, before, a[i]) == Elements(a[..i]) by {
      assert forall y | y in a[..i] :: y in Elements(a);
    }
    PrefixSize(a, before, i);
  }

  lemma {:induction false} PrefixSize<T(!new)>(a: seq<T>, before: (T, T) -> bool, i: nat)
    requires TotalOn(Elements(a), before) && Ordered(a, before) && i <= |a|
    ensures |Elements(a[..i])| == i
    decreases i
  {
    if i == 0 {
      assert Elements(a[..0]) == {};
    } else {
      PrefixSize(a, before, i - 1);
      assert a[..i] == a[..i - 1] + [a[i - 1]];
      assert a[i - 1] in Elements(a);
      assert a[i - 1] !in a[..i - 1];
      assert Elements(a[..i]) == Elements(a[..i - 1]) + {a[i - 1]};
    }
  }

  /** The first k elements of a sorted listing are the top k. */
  lemma PrefixIsTopK<T(!new)>(a: seq<T>, s: set<T>, before: (T, T) -> bool, k: nat)
    requires TotalOn(s, before) && Elements(a) == s && Ordered(a, before)
    ensures Elements(if k < |a| then a[..k] else a) == TopK(s, before, k)
  {
    var p := if k < |a| then a[..k] else a;
    forall x | x in TopK(s, before, k)
      ensures x in p
    {
      var i :| 0 <= i < |a| && a[i] == x;
      IndexIsRank(a, s, before, i);
      assert i < |p| && p[i] == x;
    }
    forall x | x in p
      ensures x in TopK(s, before, k)
    {
      var i :| 0 <= i < |p| && p[i] == x;
      IndexIsRank(a, s, before, i);
    }
  }

  /** A set has at most one sorted listing. */
  lemma SortingUnique<T(!new)>(a: seq<T>, b: seq<T>, s: set<T>, before: (T, T) -> bool)
    requires TotalOn(s, before) && Elements(a) == s && Elements(b) == s
    requires Ordered(a, before) && Ordered(b, before)
    ensures a == b
  {
    PrefixSize(a, before, |a|);
    PrefixSize(b, before, |b|);
    assert a[..|a|] == a && b[..|b|] == b;
    forall i | 0 <= i < |a|
      ensures a[i] == b[i]
    {
      IndexIsRank(a, s, before, i);
      assert a[i] in Elements(b);
      var j :| 0 <= j < |b| && b[j] == a[i];
      IndexIsRank(b, s, before, j);
    }
  }

  // ---- Sorting by insertion: stands for the library sorts of the program ----

  function Insert<T>(a: seq<T>, x: T, before: (T, T) -> bool): seq<T> {
    if a == [] then [x]
    else if before(x, a[0]) then [x] + a
    else [a[0]] + Insert(a[1..], x, before)
  }

  /** A stable sort: of two elements neither of which goes first, the earlier stays earlier. */
  function Sort<T>(a: seq<T>, before: (T, T) -> bool): seq<T> {
    if a == [] then [] else Insert(Sort(a[..|a| - 1], before), a[|a| - 1], before)
  }

  lemma {:induction false} InsertElements<T(!new)>(a: seq<T>, x: T, before: (T, T) -> bool)
    ensures Elements(Insert(a, x, before)) == Elements(a) + {x}
    ensures |Insert(a, x, before)| == |a| + 1
  {
    if a == [] || before(x, a[0]) {
    } else {
      InsertElements(a[1..], x, before);
      assert a == [a[0]] + a[1..];
      assert Elements(a) == {a[0]} + Elements(a[1..]);
      assert Elements(Insert(a, x, before)) == {a[0]} + Elements(Insert(a[1..], x, before));
    }
  }

  lemma {:induction false} InsertOrdered<T(!new)>(a: seq<T>, x: T, s: set<T>, before: (T, T) -> bool)
    requires TotalOn(s, before) && Elements(a) <= s && x in s && x !in a && Ordered(a, before)
    ensures Ordered(Insert(a, x, before), before)
  {
    if a == [] {
    } else if before(x, a[0]) {
      assert forall i | 0 <= i < |a| :: a[i] in Elements(a);
    } else {
      assert a[0] in Elements(a);
      var rest := Insert(a[1..], x, before);
      assert Elements(a[1..]) <= Elements(a);
      InsertOrdered(a[1..], x, s, before);
      InsertElements(a[1..], x, before);
      forall j | 0 <= j < |rest|
        ensures before(a[0], rest[j])
      {
        assert rest[j] in Elements(rest);
        if rest[j] != x {
          assert rest[j] in a[1..];
          var h :| 0 <= h < |a| - 1 && a[1..][h] == rest[j];
          assert a[h + 1] == rest[j];
        }
      }
    }
  }

  ghost predicate Distinct<T(!new)>(a: seq<T>) {
    forall i, j | 0 <= i < j < |a| :: a[i] != a[j]
  }

  lemma DistinctConcat<T(!new)>(a: seq<T>, b: seq<T>)
    requires Distinct(a) && Distinct(b) && forall x | x in a :: x !in b
    ensures Distinct(a + b)
  {
    assert forall i | 0 <= i < |b| :: b[i] in b;
    assert forall i | 0 <= i < |a| :: a[i] in a;
  }

  /** Sorting distinct elements lists the same elements in order. */
  lemma {:induction false} SortCorrect<T(!new)>(a: seq<T>, before: (T, T) -> bool)
    requires Distinct(a) && TotalOn(Elements(a), before)
    ensures Elements(Sort(a, before)) == Elements(a)
    ensures Ordered(Sort(a, before), before)
    ensures |Sort(a, before)| == |a|
    decreases |a|
  {
    if a == [] {
    } else {
      var front, x := a[..|a| - 1], a[|a| - 1];
      assert a == front + [x];
      assert Elements(a) == Elements(front) + {x};
      SortCorrect(front, before);
      InsertElements(Sort(front, before), x, before);
      assert x !in Elements(front);
      InsertOrdered(Sort(front, before), x, Elements(a), before);
    }
  }

  /** Sorting does not depend on the order in which distinct elements arrive. */
  lemma SortIgnoresOrder<T(!new)>(a: seq<T>, b: seq<T>, before: (T, T) -> bool)
    requires Distinct(a) && Distinct(b) && Elements(a) == Elements(b)
    requires TotalOn(Elements(a), before)
    ensures Sort(a, before) == Sort(b, before)
  {
    SortCorrect(a, before);
    SortCorrect(b, before);
    SortingUnique(Sort(a, before), Sort(b, before), Elements(a), before);
  }
}

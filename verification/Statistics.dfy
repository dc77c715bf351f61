/** Order statistics of a non-empty list of measured deltas. */
module Statistics {

  function Sum(s: seq<real>): real {
    if s == [] then 0.0 else s[0] + Sum(s[1..])
  }

  function Max(s: seq<real>): (m: real)
    requires s != []
    ensures m in s && forall i :: 0 <= i < |s| ==> s[i] <= m
  {
    if |s| == 1 then s[0]
    else
      var rest := Max(s[1..]);
      assert forall i :: 1 <= i < |s| ==> s[i] == s[1..][i - 1];
      if s[0] >= rest then s[0] else rest
  }

  /** The first occurrence. */
  function IndexOf(s: seq<real>, x: real): (i: nat)
    requires x in s
    ensures i < |s| && s[i] == x && forall k :: 0 <= k < i ==> s[k] != x
  {
    if s[0] == x then 0 else 1 + IndexOf(s[1..], x)
  }

  // ----------------------------------------------------------------------- sorting

  predicate Ascending(s: seq<real>) {
    forall i, k :: 0 <= i <= k < |s| ==> s[i] <= s[k]
  }

  function Insert(x: real, s: seq<real>): seq<real> {
    if s == [] || x <= s[0] then [x] + s else [s[0]] + Insert(x, s[1..])
  }

  function Sorted(s: seq<real>): seq<real> {
    if s == [] then [] else Insert(s[0], Sorted(s[1..]))
  }

  lemma {:induction false} InsertAdds(x: real, s: seq<real>)
    ensures multiset(Insert(x, s)) == multiset(s) + multiset{x}
  {
    if s != [] && x > s[0] {
      InsertAdds(x, s[1..]);
      assert s == [s[0]] + s[1..];
    }
  }

  lemma {:induction false} InsertIsAscending(x: real, s: seq<real>)
    requires Ascending(s)
    ensures Ascending(Insert(x, s))
  {
    if s != [] && x > s[0] {
      InsertIsAscending(x, s[1..]);
      InsertAdds(x, s[1..]);
      var r := Insert(x, s[1..]);
      forall i | 0 <= i < |r| ensures s[0] <= r[i] {
        assert r[i] in multiset(r);
      }
    }
  }

  lemma {:induction false} SortedIsAscendingPermutation(s: seq<real>)
    ensures Ascending(Sorted(s)) && multiset(Sorted(s)) == multiset(s) && |Sorted(s)| == |s|
  {
    if s != [] {
      SortedIsAscendingPermutation(s[1..]);
      InsertIsAscending(s[0], Sorted(s[1..]));
      InsertAdds(s[0], Sorted(s[1..]));
      assert s == [s[0]] + s[1..];
    }
    assert |multiset(Sorted(s))| == |multiset(s)|;
  }

  // ---------------------------------------------------------------------- counting

  function CountLe(s: seq<real>, x: real): (n: nat)
    ensures n <= |s|
  {
    if s == [] then 0 else CountLe(s[1..], x) + if s[0] <= x then 1 else 0
  }

  function CountLt(s: seq<real>, x: real): nat {
    if s == [] then 0 else CountLt(s[1..], x) + if s[0] < x then 1 else 0
  }

  lemma {:induction false} InsertCounts(y: real, s: seq<real>, x: real)
    ensures CountLe(Insert(y, s), x) == CountLe(s, x) + if y <= x then 1 else 0
    ensures CountLt(Insert(y, s), x) == CountLt(s, x) + if y < x then 1 else 0
  {
    if s == [] || y <= s[0] {
      assert ([y] + s)[1..] == s;
    } else {
      InsertCounts(y, s[1..], x);
      assert ([s[0]] + Insert(y, s[1..]))[1..] == Insert(y, s[1..]);
    }
  }

  lemma {:induction false} SortingKeepsCounts(s: seq<real>, x: real)
    ensures CountLe(Sorted(s), x) == CountLe(s, x) && CountLt(Sorted(s), x) == CountLt(s, x)
  {
    if s != [] {
      SortingKeepsCounts(s[1..], x);
      InsertCounts(s[0], Sorted(s[1..]), x);
    }
  }

  lemma {:induction false} PrefixIsCounted(s: seq<real>, x: real, k: nat)
    requires k <= |s| && forall i :: 0 <= i < k ==> s[i] <= x
    ensures CountLe(s, x) >= k
  {
    if k > 0 {
      PrefixIsCounted(s[1..], x, k - 1);
    }
  }

  lemma {:induction false} SuffixIsNotCounted(s: seq<real>, x: real, k: nat)
    requires k <= |s| && forall i :: k <= i < |s| ==> s[i] >= x
    ensures CountLt(s, x) <= k
  {
    if s != [] {
      SuffixIsNotCounted(s[1..], x, if k == 0 then 0 else k - 1);
    }
  }

  lemma {:induction false} LessIsAtMost(s: seq<real>, x: real, y: real)
    requires x < y
    ensures CountLe(s, x) <= CountLt(s, y)
  {
    if s != [] {
      LessIsAtMost(s[1..], x, y);
    }
  }

  // ------------------------------------------------------------------- nearest rank

  /** ceil(99n / 100). */
  function Rank99(n: nat): nat {
    (99 * n + 99) / 100
  }

  /** It is the least rank that 99 in a hundred of n do not exceed. */
  lemma RankIsLeast(n: nat, r: nat)
    ensures 100 * r >= 99 * n <==> r >= Rank99(n)
  {
  }

  /** `ordered[min(n - 1, ceil(0.99 n) - 1)]`. */
  function P99(s: seq<real>): real
    requires s != []
  {
    SortedIsAscendingPermutation(s);
    var ordered := Sorted(s);
    ordered[if Rank99(|s|) - 1 < |s| - 1 then Rank99(|s|) - 1 else |s| - 1]
  }

  /** The definition of a nearest-rank 99th percentile, without sorting anything. */
  predicate IsNearestRank(s: seq<real>, p: real) {
    p in s && CountLe(s, p) >= Rank99(|s|) > CountLt(s, p)
  }

  /** The clamp never acts, so the figure is the nearest rank; below a hundred it is the maximum. */
  lemma P99IsTheNearestRank(s: seq<real>)
    requires s != []
    ensures 1 <= Rank99(|s|) <= |s|
    ensures IsNearestRank(s, P99(s))
    ensures P99(s) <= Max(s) && (|s| < 100 ==> P99(s) == Max(s))
  {
    SortedIsAscendingPermutation(s);
    var ordered, k, p := Sorted(s), Rank99(|s|) - 1, P99(s);
    assert p == ordered[k];
    assert p in multiset(ordered);
    PrefixIsCounted(ordered, p, k + 1);
    SuffixIsNotCounted(ordered, p, k);
    SortingKeepsCounts(s, p);
    if |s| < 100 {
      assert Max(s) in multiset(ordered);
    }
  }

  /** Nothing else satisfies the definition. */
  lemma NearestRankIsUnique(s: seq<real>, p: real, q: real)
    requires IsNearestRank(s, p) && IsNearestRank(s, q)
    ensures p == q
  {
    if p < q {
      LessIsAtMost(s, p, q);
    } else if q < p {
      LessIsAtMost(s, q, p);
    }
  }

  function Mean(s: seq<real>): real
    requires s != []
  {
    Sum(s) / |s| as real
  }

  lemma {:induction false} SumIsBounded(s: seq<real>, most: real)
    requires forall i :: 0 <= i < |s| ==> 0.0 <= s[i] <= most
    ensures 0.0 <= Sum(s) <= most * |s| as real
  {
    if s != [] {
      SumIsBounded(s[1..], most);
    }
  }

  predicate IsMean(mean: real, s: seq<real>) {
    mean * |s| as real == Sum(s)
  }

  lemma QuotientIsBounded(x: real, n: real, most: real)
    requires n > 0.0 && 0.0 <= x <= most * n
    ensures 0.0 <= x / n <= most && x / n * n == x
  {
  }

  lemma MeanIsWithin(s: seq<real>, most: real)
    requires s != [] && forall i :: 0 <= i < |s| ==> 0.0 <= s[i] <= most
    ensures 0.0 <= Mean(s) <= most && IsMean(Mean(s), s)
  {
    SumIsBounded(s, most);
    QuotientIsBounded(Sum(s), |s| as real, most);
  }
}

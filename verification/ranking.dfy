/** The top-5 selection of the /predict handler: numpy's argsort and sort of the
    class-probability row, the last five of each, reversed. */
module Ranking {

  /** How many classes the handler reports. */
  const TopCount: nat := 5

  /** The class numbers 0 .. n-1 in order. */
  function Range(n: nat): (r: seq<nat>)
    ensures |r| == n && forall k :: 0 <= k < n ==> r[k] == k
  {
    seq(n, (k: int) requires 0 <= k => k as nat)
  }

  /** Every entry of idx is a class number of a row of n classes. */
  predicate IndicesBelow(idx: seq<nat>, n: int) {
    forall k :: 0 <= k < |idx| ==> idx[k] < n
  }

  predicate NonDecreasing(s: seq<real>) {
    forall k, l :: 0 <= k <= l < |s| ==> s[k] <= s[l]
  }

  /** Reading the row p in the class order `order` gives non-decreasing
      probabilities. */
  predicate SortedBy(p: seq<real>, order: seq<nat>) {
    IndicesBelow(order, |p|) &&
    forall k, l :: 0 <= k <= l < |order| ==> p[order[k]] <= p[order[l]]
  }

  /** What numpy.argsort may return for the row p: every class number exactly
      once, ordered by probability from lowest to highest. The order among
      classes of equal probability is left open, as numpy's default sort is
      not stable. */
  predicate IsArgsort(p: seq<real>, order: seq<nat>) {
    multiset(order) == multiset(Range(|p|)) && SortedBy(p, order)
  }

  /** Putting a value no larger than the first in front keeps a row sorted. */
  lemma SortedCons(x: real, s: seq<real>)
    requires NonDecreasing(s) && (|s| == 0 || x <= s[0])
    ensures NonDecreasing([x] + s)
  {
    var r := [x] + s;
    forall k, l | 0 <= k <= l < |r| ensures r[k] <= r[l] {
      if k == 0 && l > 0 {
        assert r[l] == s[l - 1] && s[0] <= s[l - 1];
      }
    }
  }

  /** Inserts x into the sorted s. */
  function Insert(x: real, s: seq<real>): (r: seq<real>)
    requires NonDecreasing(s)
    ensures |r| == |s| + 1 && NonDecreasing(r)
    ensures multiset(r) == multiset(s) + multiset{x}
    ensures r[0] == x || (|s| > 0 && r[0] == s[0])
  {
    if |s| == 0 || x <= s[0] then
      SortedCons(x, s);
      [x] + s
    else
      assert s == [s[0]] + s[1..];
      var rest := Insert(x, s[1..]);
      SortedCons(s[0], rest);
      [s[0]] + rest
  }

  /** Putting a class no more probable than the first in front keeps an order sorted. */
  lemma SortedByCons(p: seq<real>, c: nat, order: seq<nat>)
    requires c < |p| && SortedBy(p, order) && (|order| == 0 || p[c] <= p[order[0]])
    ensures SortedBy(p, [c] + order)
  {
    var r := [c] + order;
    forall k, l | 0 <= k <= l < |r| ensures p[r[k]] <= p[r[l]] {
      if k == 0 && l > 0 {
        assert r[l] == order[l - 1] && p[order[0]] <= p[order[l - 1]];
      }
    }
  }

  /** Classes of equal probability appear in increasing class number. */
  predicate TiesInClassOrder(p: seq<real>, order: seq<nat>)
    requires IndicesBelow(order, |p|)
  {
    forall k, l :: 0 <= k < l < |order| && p[order[k]] == p[order[l]] ==> order[k] < order[l]
  }

  /** Inserts class c into order, which is sorted by probability, after every
      class of lower or equal probability. */
  function InsertClass(p: seq<real>, c: nat, order: seq<nat>): (r: seq<nat>)
    requires c < |p| && SortedBy(p, order)
    ensures |r| == |order| + 1 && SortedBy(p, r)
    ensures multiset(r) == multiset(order) + multiset{c}
    ensures r[0] == c || (|order| > 0 && r[0] == order[0])
    ensures (forall x :: x in order ==> x < c) && TiesInClassOrder(p, order) ==>
      TiesInClassOrder(p, r)
  {
    if |order| == 0 || p[c] < p[order[0]] then
      SortedByCons(p, c, order);
      [c] + order
    else
      SortedByTail(p, order);
      var rest := InsertClass(p, c, order[1..]);
      InsertClassStep(p, c, order, rest);
      [order[0]] + rest
  }

  /** The step case of InsertClass: once c is placed in the tail, putting the
      first class back in front keeps every promise of InsertClass. */
  lemma InsertClassStep(p: seq<real>, c: nat, order: seq<nat>, rest: seq<nat>)
    requires c < |p| && SortedBy(p, order) && |order| > 0 && p[order[0]] <= p[c]
    requires |rest| == |order| && SortedBy(p, rest)
    requires multiset(rest) == multiset(order[1..]) + multiset{c}
    requires rest[0] == c || (|order| > 1 && rest[0] == order[1])
    requires (forall x :: x in order[1..] ==> x < c) && TiesInClassOrder(p, order[1..]) ==>
      TiesInClassOrder(p, rest)
    ensures SortedBy(p, [order[0]] + rest)
    ensures multiset([order[0]] + rest) == multiset(order) + multiset{c}
    ensures (forall x :: x in order ==> x < c) && TiesInClassOrder(p, order) ==>
      TiesInClassOrder(p, [order[0]] + rest)
  {
    SortedByTail(p, order);
    assert p[order[0]] <= p[rest[0]] by {
      if |order| > 1 {
        assert p[order[0]] <= p[order[1]];
      }
    }
    SortedByCons(p, order[0], rest);
    assert multiset([order[0]] + rest) == multiset{order[0]} + multiset(rest);
    assert multiset(order) == multiset{order[0]} + multiset(order[1..]);
    InsertClassTies(p, c, order, rest);
  }

  /** Dropping the first class of a sorted order leaves it sorted. */
  lemma SortedByTail(p: seq<real>, order: seq<nat>)
    requires SortedBy(p, order) && |order| > 0
    ensures SortedBy(p, order[1..]) && order == [order[0]] + order[1..]
  {
    forall k, l | 0 <= k <= l < |order| - 1
      ensures p[order[1..][k]] <= p[order[1..][l]]
    {
      assert order[1..][k] == order[k + 1] && order[1..][l] == order[l + 1];
    }
  }

  /** The step case of InsertClass keeps ties in class-number order. */
  lemma InsertClassTies(p: seq<real>, c: nat, order: seq<nat>, rest: seq<nat>)
    requires c < |p| && SortedBy(p, order) && |order| > 0
    requires IndicesBelow(rest, |p|)
    requires multiset(rest) == multiset(order[1..]) + multiset{c}
    requires (forall x :: x in order[1..] ==> x < c) && TiesInClassOrder(p, order[1..]) ==>
      TiesInClassOrder(p, rest)
    ensures (forall x :: x in order ==> x < c) && TiesInClassOrder(p, order) ==>
      TiesInClassOrder(p, [order[0]] + rest)
  {
    if (forall x :: x in order ==> x < c) && TiesInClassOrder(p, order) {
      var r := [order[0]] + rest;
      assert TiesInClassOrder(p, order[1..]);
      assert forall x :: x in order[1..] ==> x in order;
      assert TiesInClassOrder(p, rest);
      forall l | 0 < l < |r| && p[r[0]] == p[r[l]]
        ensures r[0] < r[l]
      {
        assert r[0] == order[0] && r[l] == rest[l - 1];
        assert order[0] in order;
        assert r[l] in multiset(rest);
        if r[l] != c {
          assert r[l] in multiset(order[1..]);
          var j :| 0 <= j < |order[1..]| && order[1..][j] == r[l];
          assert order[j + 1] == r[l];
        }
      }
      forall k, l | 0 < k < l < |r| && p[r[k]] == p[r[l]]
        ensures r[k] < r[l]
      {
        assert r[k] == rest[k - 1] && r[l] == rest[l - 1];
      }
    }
  }

  /** An argsort of the first n classes that keeps tied classes in class-number
      order: what numpy.argsort(kind="stable") returns for n == |p|. */
  function StableArgsort(p: seq<real>, n: nat): (r: seq<nat>)
    requires n <= |p|
    ensures |r| == n && SortedBy(p, r)
    ensures multiset(r) == multiset(Range(n))
    ensures TiesInClassOrder(p, r)
  {
    if n == 0 then []
    else
      var prev := StableArgsort(p, n - 1);
      StableArgsortStep(p, n, prev);
      InsertClass(p, n - 1, prev)
  }

  /** The step case of StableArgsort: inserting class n - 1 into an argsort of
      the first n - 1 classes gives an argsort of the first n. */
  lemma StableArgsortStep(p: seq<real>, n: nat, prev: seq<nat>)
    requires 0 < n <= |p|
    requires |prev| == n - 1 && SortedBy(p, prev) && TiesInClassOrder(p, prev)
    requires multiset(prev) == multiset(Range(n - 1))
    ensures |InsertClass(p, n - 1, prev)| == n
    ensures SortedBy(p, InsertClass(p, n - 1, prev))
    ensures multiset(InsertClass(p, n - 1, prev)) == multiset(Range(n))
    ensures TiesInClassOrder(p, InsertClass(p, n - 1, prev))
  {
    RangeSnoc(n - 1);
    assert multiset(Range(n)) == multiset(Range(n - 1)) + multiset{(n - 1) as nat};
    ClassesBelow(prev, n - 1);
  }

  /** A permutation of 0..n-1 holds only class numbers below n. */
  lemma ClassesBelow(order: seq<nat>, n: nat)
    requires multiset(order) == multiset(Range(n))
    ensures forall x :: x in order ==> x < n
  {
    forall x | x in order
      ensures x < n
    {
      assert x in multiset(order);
      RangeCount(n, x);
    }
  }

  /** Every row has an argsort, so the requirement placed on numpy.argsort
      can be met. */
  lemma ArgsortExists(p: seq<real>)
    ensures IsArgsort(p, StableArgsort(p, |p|))
  {
  }

  /** numpy.sort of the row: its values in ascending order. */
  function SortAscending(p: seq<real>): (r: seq<real>)
    ensures |r| == |p| && NonDecreasing(r) && multiset(r) == multiset(p)
  {
    if |p| == 0 then []
    else
      assert p == p[..|p| - 1] + [p[|p| - 1]];
      Insert(p[|p| - 1], SortAscending(p[..|p| - 1]))
  }

  /** The row read in the given class order: p[idx[0]], p[idx[1]], ... */
  function Gather(p: seq<real>, idx: seq<nat>): (r: seq<real>)
    requires IndicesBelow(idx, |p|)
  {
    seq(|idx|, k requires 0 <= k < |idx| => p[idx[k]])
  }

  /** Python's s[-k:] for a positive k: the last k entries of s, or all of s
      when it is shorter. (s[-0:] would be the whole of s, so k is positive.) */
  function LastAtMost<T>(s: seq<T>, k: nat): (r: seq<T>)
    requires k > 0
    ensures |r| == if |s| < k then |s| else k
    ensures forall i :: 0 <= i < |r| ==> r[i] == s[|s| - |r| + i]
  {
    if |s| <= k then s else s[|s| - k..]
  }

  /** Python's s[::-1]. */
  function Reversed<T>(s: seq<T>): seq<T> {
    seq(|s|, i requires 0 <= i < |s| => s[|s| - 1 - i])
  }

  /** top5_idx: the last five class numbers of the argsort, highest first. */
  function TopIndices(order: seq<nat>): seq<nat> {
    Reversed(LastAtMost(order, TopCount))
  }

  /** top5_proba: the last five values of the sorted row, highest first. */
  function TopValues(p: seq<real>): seq<real> {
    Reversed(LastAtMost(SortAscending(p), TopCount))
  }

  /** Entry i of the reversed tail is entry |s|-1-i of s. */
  lemma TopAt<T>(s: seq<T>)
    ensures |Reversed(LastAtMost(s, TopCount))| == if |s| < TopCount then |s| else TopCount
    ensures forall i :: 0 <= i < |Reversed(LastAtMost(s, TopCount))| ==>
      Reversed(LastAtMost(s, TopCount))[i] == s[|s| - 1 - i]
  {
    var tail := LastAtMost(s, TopCount);
    forall i | 0 <= i < |tail|
      ensures Reversed(tail)[i] == s[|s| - 1 - i]
    {
      assert Reversed(tail)[i] == tail[|tail| - 1 - i];
    }
  }

  lemma RangeSnoc(n: nat)
    ensures Range(n + 1) == Range(n) + [n]
  {
  }

  /** No class number occurs twice in Range(n). */
  lemma {:induction false} RangeCount(n: nat, x: nat)
    ensures multiset(Range(n))[x] == if x < n then 1 else 0
  {
    if n > 0 {
      RangeCount(n - 1, x);
      RangeSnoc(n - 1);
    }
  }

  /** Taking the largest class number n out of a permutation of Range(n + 1)
      leaves a permutation of Range(n). */
  lemma RemoveLargest(before: seq<nat>, after: seq<nat>, n: nat)
    requires multiset(before + [n] + after) == multiset(Range(n + 1))
    ensures multiset(before + after) == multiset(Range(n))
    ensures IndicesBelow(before, n) && IndicesBelow(after, n) && IndicesBelow(before + after, n)
  {
    RangeSnoc(n);
    assert multiset(before + [n] + after) == multiset(before + after) + multiset{n};
    assert multiset(Range(n + 1)) == multiset(Range(n)) + multiset{n};
    forall x ensures multiset(before + after)[x] == multiset(Range(n))[x] {
      assert multiset(before + [n] + after)[x] == multiset(Range(n + 1))[x];
    }
    assert multiset(before + after) == multiset(Range(n));
    forall x | x in before + after ensures x < n {
      assert x in multiset(Range(n));
      RangeCount(n, x);
    }
    forall k | 0 <= k < |before| ensures before[k] < n {
      assert before[k] in before + after;
    }
    forall k | 0 <= k < |after| ensures after[k] < n {
      assert after[k] in before + after;
    }
    forall k | 0 <= k < |before + after| ensures (before + after)[k] < n {
      assert (before + after)[k] in before + after;
    }
  }

  lemma GatherConcat(p: seq<real>, a: seq<nat>, b: seq<nat>)
    requires IndicesBelow(a, |p|) && IndicesBelow(b, |p|)
    ensures IndicesBelow(a + b, |p|)
    ensures Gather(p, a + b) == Gather(p, a) + Gather(p, b)
  {
  }

  /** Reading p in the order before + [last class] + after gives the values of
      the shorter row read in the order before + after, plus the last value. */
  lemma GatherAroundLast(p: seq<real>, before: seq<nat>, after: seq<nat>)
    requires |p| > 0
    requires IndicesBelow(before, |p| - 1) && IndicesBelow(after, |p| - 1)
    ensures IndicesBelow(before + [|p| - 1] + after, |p|)
    ensures multiset(Gather(p, before + [|p| - 1] + after))
         == multiset(Gather(p[..|p| - 1], before + after)) + multiset{p[|p| - 1]}
  {
    var n := |p|;
    var front := p[..n - 1];
    GatherConcat(front, before, after);
    GatherConcat(p, before + [n - 1], after);
    GatherConcat(p, before, [n - 1]);
    assert Gather(p, before) == Gather(front, before);
    assert Gather(p, after) == Gather(front, after);
  }

  /** The largest class number n occurs somewhere in a permutation of Range(n + 1). */
  lemma FindLargest(order: seq<nat>, n: nat) returns (j: nat)
    requires multiset(order) == multiset(Range(n + 1))
    ensures j < |order| && order[j] == n
    ensures order == order[..j] + [n] + order[j + 1..]
  {
    RangeCount(n + 1, n);
    assert n in multiset(order);
    j :| 0 <= j < |order| && order[j] == n;
    assert order == order[..j] + [order[j]] + order[j + 1..];
  }

  lemma MultisetSnoc(p: seq<real>)
    requires |p| > 0
    ensures multiset(p) == multiset(p[..|p| - 1]) + multiset{p[|p| - 1]}
  {
    assert p == p[..|p| - 1] + [p[|p| - 1]];
  }

  /** Reading a row in the order of a permutation of its class numbers gives
      the same values, with the same multiplicities. */
  lemma {:induction false} GatherPermutation(p: seq<real>, order: seq<nat>)
    requires multiset(order) == multiset(Range(|p|))
    requires IndicesBelow(order, |p|)
    ensures multiset(Gather(p, order)) == multiset(p)
  {
    var n := |p|;
    if n == 0 {
      assert |order| == |multiset(order)| == 0;
    } else {
      var j := FindLargest(order, n - 1);
      var before, after := order[..j], order[j + 1..];
      RemoveLargest(before, after, n - 1);
      GatherPermutation(p[..n - 1], before + after);
      GatherAroundLast(p, before, after);
      MultisetSnoc(p);
    }
  }

  /** The first entry of a sorted row is its least value. */
  lemma SortedFirstIsLeast(a: seq<real>, x: real)
    requires NonDecreasing(a) && x in multiset(a)
    ensures a[0] <= x
  {
    var m :| 0 <= m < |a| && a[m] == x;
  }

  lemma MultisetCons(a: seq<real>)
    requires |a| > 0
    ensures multiset(a) == multiset{a[0]} + multiset(a[1..])
  {
    assert a == [a[0]] + a[1..];
  }

  /** Two sorted arrangements of the same values are the same sequence. */
  lemma {:induction false} SortedUnique(a: seq<real>, b: seq<real>)
    requires NonDecreasing(a) && NonDecreasing(b)
    requires multiset(a) == multiset(b)
    ensures a == b
  {
    assert |a| == |multiset(a)| == |multiset(b)| == |b|;
    if |a| > 0 {
      assert a[0] == b[0] by {
        assert a[0] in multiset(a) && b[0] in multiset(b);
        SortedFirstIsLeast(a, b[0]);
        SortedFirstIsLeast(b, a[0]);
      }
      assert multiset(a[1..]) == multiset(b[1..]) by {
        MultisetCons(a);
        MultisetCons(b);
        MultisetCancel(a[0], multiset(a[1..]), multiset(b[1..]));
      }
      NonDecreasingTail(a);
      NonDecreasingTail(b);
      SortedUnique(a[1..], b[1..]);
      assert a == [a[0]] + a[1..] && b == [b[0]] + b[1..];
    }
  }

  lemma NonDecreasingTail(a: seq<real>)
    requires NonDecreasing(a) && |a| > 0
    ensures NonDecreasing(a[1..])
  {
    forall k, l | 0 <= k <= l < |a| - 1
      ensures a[1..][k] <= a[1..][l]
    {
      assert a[1..][k] == a[k + 1] && a[1..][l] == a[l + 1];
    }
  }

  lemma MultisetCancel(x: real, m: multiset<real>, n: multiset<real>)
    requires multiset{x} + m == multiset{x} + n
    ensures m == n
  {
    forall y ensures m[y] == n[y] {
      assert (multiset{x} + m)[y] == (multiset{x} + n)[y];
    }
  }

  /** numpy.argsort and numpy.sort agree: whatever order the argsort puts
      tied classes in, reading the row in that order gives the sorted row. */
  lemma ArgsortAgreesWithSort(p: seq<real>, order: seq<nat>)
    requires IsArgsort(p, order)
    ensures |order| == |p| && Gather(p, order) == SortAscending(p)
  {
    assert |order| == |p| by {
      assert |multiset(order)| == |multiset(Range(|p|))|;
    }
    var g := Gather(p, order);
    assert NonDecreasing(g) by {
      forall k, l | 0 <= k <= l < |g|
        ensures g[k] <= g[l]
      {
        assert g[k] == p[order[k]] && g[l] == p[order[l]];
      }
    }
    GatherPermutation(p, order);
    SortedUnique(g, SortAscending(p));
  }

  /** An argsort lists each class exactly once. */
  lemma ArgsortIsBijection(p: seq<real>, order: seq<nat>)
    requires IsArgsort(p, order)
    ensures |order| == |p|
    ensures forall c :: 0 <= c < |p| ==> c in order
    ensures forall k, l :: 0 <= k < l < |order| ==> order[k] != order[l]
  {
    assert |order| == |multiset(order)| == |p|;
    forall c | 0 <= c < |p| ensures c in order {
      RangeCount(|p|, c);
      assert c in multiset(order);
    }
    forall k, l | 0 <= k < l < |order| ensures order[k] != order[l] {
      if order[k] == order[l] {
        var x := order[k];
        assert order == order[..l] + order[l..];
        assert x in order[..l] && x in order[l..];
        assert multiset(order)[x] == multiset(order[..l])[x] + multiset(order[l..])[x];
        RangeCount(|p|, x);
        assert false;
      }
    }
  }

  /** The reported probabilities and the reported classes line up: the i-th
      value of top5_proba is the probability of the i-th class of top5_idx. */
  lemma TopValuesMatchIndices(p: seq<real>, order: seq<nat>)
    requires IsArgsort(p, order)
    ensures |TopIndices(order)| == |TopValues(p)| == if |p| < TopCount then |p| else TopCount
    ensures forall i :: 0 <= i < |TopIndices(order)| ==>
      TopIndices(order)[i] < |p| && TopValues(p)[i] == p[TopIndices(order)[i]]
  {
    ArgsortAgreesWithSort(p, order);
    var sorted := SortAscending(p);
    TopAt(order);
    TopAt(sorted);
    forall i | 0 <= i < |TopIndices(order)|
      ensures TopIndices(order)[i] < |p| && TopValues(p)[i] == p[TopIndices(order)[i]]
    {
      var k := |p| - 1 - i;
      assert TopValues(p)[i] == sorted[k] == Gather(p, order)[k];
    }
  }

  /** The reported probabilities never increase down the list. */
  lemma TopValuesDescending(p: seq<real>)
    ensures forall i, j :: 0 <= i <= j < |TopValues(p)| ==> TopValues(p)[i] >= TopValues(p)[j]
  {
    TopAt(SortAscending(p));
  }

  /** The reported classes are distinct class numbers of the row. */
  lemma TopIndicesDistinct(p: seq<real>, order: seq<nat>)
    requires IsArgsort(p, order)
    ensures IndicesBelow(TopIndices(order), |p|)
    ensures forall i, j :: 0 <= i < j < |TopIndices(order)| ==> TopIndices(order)[i] != TopIndices(order)[j]
  {
    assert |order| == |p| && forall k, l :: 0 <= k < l < |order| ==> order[k] != order[l] by {
      ArgsortIsBijection(p, order);
    }
    TopAt(order);
  }

  /** A class of order that is not reported sits before the reported tail. */
  lemma UnreportedPosition(order: seq<nat>, c: nat) returns (k: nat)
    requires c in order && c !in TopIndices(order)
    ensures k < |order| - |TopIndices(order)| && order[k] == c
  {
    var top := TopIndices(order);
    TopAt(order);
    forall m | |order| - |top| <= m < |order| ensures order[m] in top {
      assert top[|order| - 1 - m] == order[m];
    }
    k :| 0 <= k < |order| && order[k] == c;
  }

  /** The reported classes are the most probable ones: with fewer than five
      classes every class is reported; otherwise every class left out is no
      more probable than the last one reported. */
  lemma TopIndicesComplete(p: seq<real>, order: seq<nat>)
    requires IsArgsort(p, order)
    ensures |p| < TopCount ==> forall c :: 0 <= c < |p| ==> c in TopIndices(order)
    ensures |p| >= TopCount ==>
      (|TopIndices(order)| == TopCount &&
       forall c :: 0 <= c < |p| && c !in TopIndices(order) ==> p[c] <= p[TopIndices(order)[TopCount - 1]])
  {
    var n := |p|;
    var top := TopIndices(order);
    assert |order| == n && forall c :: 0 <= c < n ==> c in order by {
      ArgsortIsBijection(p, order);
    }
    TopAt(order);
    forall c | 0 <= c < n && c !in top
      ensures n >= TopCount && p[c] <= p[top[TopCount - 1]]
    {
      var k := UnreportedPosition(order, c);
      assert top[TopCount - 1] == order[n - TopCount];
    }
  }
}

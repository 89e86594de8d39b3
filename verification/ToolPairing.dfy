/**
 Durations under first-in-first-out pairing, as arithmetic on times: `ends`
 are the end times of one tool class in stream order, and a pairing gives
 the start time that each of those ends is charged against. The exporter's
 fallback charges the k-th end against the k-th start; the calls' own
 pairing is some other arrangement of the same starts.
 */
module ToolPairing {
  import opened Prelude

  ghost predicate Sorted(s: seq<int>) {
    forall i, j :: 0 <= i < j < |s| ==> s[i] <= s[j]
  }

  function Durations(ends: seq<int>, starts: seq<int>): (d: seq<int>)
    requires |ends| == |starts|
    ensures |d| == |ends|
    ensures forall k :: 0 <= k < |d| ==> d[k] == ends[k] - starts[k]
  {
    seq(|ends|, k requires 0 <= k < |ends| => ends[k] - starts[k])
  }

  function Total(s: seq<int>): int {
    if s == [] then 0 else Total(Front(s)) + Last(s)
  }

  /** Two calls strictly nest: the one that ends later started earlier. */
  ghost predicate Nested(ends: seq<int>, starts: seq<int>)
    requires |ends| == |starts|
  {
    exists i, j :: 0 <= i < |ends| && 0 <= j < |ends| && ends[i] < ends[j] && starts[i] > starts[j]
  }

  // ---------------------------------------------------------------- sums see only the multiset

  function Squares(s: seq<int>): int {
    if s == [] then 0 else Squares(Front(s)) + Last(s) * Last(s)
  }

  function Dot(a: seq<int>, b: seq<int>): int
    requires |a| == |b|
  {
    if a == [] then 0 else Dot(Front(a), Front(b)) + Last(a) * Last(b)
  }

  function Without(s: seq<int>, i: nat): (r: seq<int>)
    requires i < |s|
  {
    s[..i] + s[i + 1..]
  }

  lemma {:induction false} TotalWithout(s: seq<int>, i: nat)
    requires i < |s|
    ensures Total(s) == Total(Without(s, i)) + s[i]
    ensures Squares(s) == Squares(Without(s, i)) + s[i] * s[i]
  {
    if i == |s| - 1 {
      assert Without(s, i) == Front(s);
    } else {
      TotalWithout(Front(s), i);
      assert Front(Without(s, i)) == Without(Front(s), i);
      assert Last(Without(s, i)) == Last(s);
    }
  }

  lemma MultisetWithout(s: seq<int>, i: nat)
    requires i < |s|
    ensures multiset(Without(s, i)) == multiset(s) - multiset{s[i]}
  {
    assert s == s[..i] + [s[i]] + s[i + 1..];
  }

  lemma SameSize(a: seq<int>, b: seq<int>)
    requires multiset(a) == multiset(b)
    ensures |a| == |b|
  {
    assert |multiset(a)| == |a| && |multiset(b)| == |b|;
  }

  lemma IndexOf(a: seq<int>, b: seq<int>, i: nat) returns (j: nat)
    requires multiset(a) == multiset(b) && i < |a|
    ensures j < |b| && b[j] == a[i]
  {
    assert a[i] in multiset(b);
    j :| 0 <= j < |b| && b[j] == a[i];
  }

  lemma SameFronts(a: seq<int>, b: seq<int>)
    requires a != [] && b != [] && multiset(a) == multiset(b) && Last(a) == Last(b)
    ensures multiset(Front(a)) == multiset(Front(b))
  {
    RemoveSame(a, b, |b| - 1);
    assert Without(b, |b| - 1) == Front(b);
  }

  lemma SameAppended(a: seq<int>, b: seq<int>, a': seq<int>, b': seq<int>, x: int)
    requires multiset(a) == multiset(b) && a' == a + [x] && b' == b + [x]
    ensures multiset(a') == multiset(b')
  {
  }

  lemma RemoveSame(a: seq<int>, b: seq<int>, j: nat)
    requires a != [] && multiset(a) == multiset(b) && j < |b| && b[j] == Last(a)
    ensures multiset(Front(a)) == multiset(Without(b, j))
  {
    MultisetWithout(a, |a| - 1);
    MultisetWithout(b, j);
    assert Without(a, |a| - 1) == Front(a);
  }

  lemma {:induction false} SumsOfMultiset(a: seq<int>, b: seq<int>)
    requires multiset(a) == multiset(b)
    ensures |a| == |b| && Total(a) == Total(b) && Squares(a) == Squares(b)
    decreases |a|
  {
    SameSize(a, b);
    if a != [] {
      var j := IndexOf(a, b, |a| - 1);
      RemoveSame(a, b, j);
      SumsOfMultiset(Front(a), Without(b, j));
      TotalWithout(b, j);
    }
  }

  lemma {:induction false} TotalOfDurations(ends: seq<int>, starts: seq<int>)
    requires |ends| == |starts|
    ensures Total(Durations(ends, starts)) == Total(ends) - Total(starts)
    ensures Squares(Durations(ends, starts)) == Squares(ends) + Squares(starts) - 2 * Dot(ends, starts)
  {
    if ends != [] {
      TotalOfDurations(Front(ends), Front(starts));
      var d := Durations(ends, starts);
      assert Front(d) == Durations(Front(ends), Front(starts));
      var e, s := Last(ends), Last(starts);
      assert Last(d) * Last(d) == e * e + s * s - 2 * (e * s);
    }
  }

  // ---------------------------------------------------------------- rearrangement

  function Swap(s: seq<int>, i: nat, j: nat): (r: seq<int>)
    requires i < |s| && j < |s|
    ensures |r| == |s|
  {
    s[i := s[j]][j := s[i]]
  }

  lemma SwapMultiset(s: seq<int>, i: nat, j: nat)
    requires i < |s| && j < |s|
    ensures multiset(Swap(s, i, j)) == multiset(s)
  {
  }

  lemma {:induction false} DotUpdate(a: seq<int>, b: seq<int>, i: nat, x: int)
    requires |a| == |b| && i < |b|
    ensures Dot(a, b[i := x]) == Dot(a, b) + a[i] * (x - b[i])
  {
    if i == |b| - 1 {
      assert Front(b[i := x]) == Front(b);
      assert a[i] * x == a[i] * b[i] + a[i] * (x - b[i]);
    } else {
      DotUpdate(Front(a), Front(b), i, x);
      assert Front(b[i := x]) == Front(b)[i := x];
    }
  }

  lemma DotSwap(a: seq<int>, b: seq<int>, i: nat, j: nat)
    requires |a| == |b| && i < |b| && j < |b|
    ensures Dot(a, Swap(b, i, j)) == Dot(a, b) + (a[j] - a[i]) * (b[i] - b[j])
  {
    DotUpdate(a, b, i, b[j]);
    DotUpdate(a, b[i := b[j]], j, b[i]);
    if i == j {
      assert Swap(b, i, j) == b;
    } else {
      assert a[i] * (b[j] - b[i]) + a[j] * (b[i] - b[j]) == (a[j] - a[i]) * (b[i] - b[j]);
    }
  }

  /** The largest start, brought into last place. */
  lemma PlaceLargest(t: seq<int>, s: seq<int>) returns (j: nat)
    requires multiset(t) == multiset(s) && s != [] && Sorted(s)
    ensures |t| == |s| && j < |t| && t[j] == Last(s)
    ensures forall k :: 0 <= k < |t| ==> t[k] <= t[j]
    ensures multiset(Front(Swap(t, j, |t| - 1))) == multiset(Front(s))
  {
    SameSize(t, s);
    j := IndexOf(s, t, |s| - 1);
    forall k | 0 <= k < |t| ensures t[k] <= t[j] {
      var i := IndexOf(t, s, k);
    }
    SwapMultiset(t, j, |t| - 1);
    SameFronts(Swap(t, j, |t| - 1), s);
  }

  lemma Product(x: int, y: int)
    requires x >= 0 && y >= 0
    ensures x * y >= 0
    ensures x > 0 && y > 0 ==> x * y > 0
  {
  }

  /** The rearrangement inequality: the sorted arrangement maximises the dot product. */
  lemma {:induction false} Rearrangement(a: seq<int>, t: seq<int>, s: seq<int>)
    requires Sorted(a) && Sorted(s) && multiset(t) == multiset(s) && |a| == |s|
    ensures |t| == |s| && Dot(a, t) <= Dot(a, s)
    decreases |s|
  {
    SameSize(t, s);
    if s != [] {
      var j := PlaceLargest(t, s);
      var n := |t| - 1;
      var u := Swap(t, j, n);
      DotSwap(a, t, j, n);
      Product(a[n] - a[j], t[j] - t[n]);
      Rearrangement(Front(a), Front(u), Front(s));
    }
  }

  lemma SwapDurations(ends: seq<int>, t: seq<int>, i: nat, j: nat)
    requires |ends| == |t| && i < |t| && j < |t| && (ends[i] == ends[j] || t[i] == t[j])
    ensures multiset(Durations(ends, Swap(t, i, j))) == multiset(Durations(ends, t))
  {
    var d := Durations(ends, t);
    if ends[i] == ends[j] {
      assert Durations(ends, Swap(t, i, j)) == Swap(d, i, j);
      SwapMultiset(d, i, j);
    } else {
      assert Swap(t, i, j) == t;
    }
  }

  lemma DurationsGrow(ends: seq<int>, u: seq<int>, s: seq<int>)
    requires |ends| == |u| == |s| > 0 && Last(u) == Last(s)
    requires multiset(Durations(Front(ends), Front(u))) == multiset(Durations(Front(ends), Front(s)))
    ensures multiset(Durations(ends, u)) == multiset(Durations(ends, s))
  {
    SameAppended(Durations(Front(ends), Front(u)), Durations(Front(ends), Front(s)),
                 Durations(ends, u), Durations(ends, s), Last(ends) - Last(s));
  }

  lemma {:induction false} UnnestedIsFifo(ends: seq<int>, t: seq<int>, s: seq<int>)
    requires Sorted(ends) && Sorted(s) && multiset(t) == multiset(s) && |ends| == |t| == |s|
    requires !Nested(ends, t)
    ensures multiset(Durations(ends, t)) == multiset(Durations(ends, s))
    decreases |s|
  {
    if s == [] {
      assert Durations(ends, t) == Durations(ends, s);
    } else {
      var j := PlaceLargest(t, s);
      var n := |t| - 1;
      var u := Swap(t, j, n);
      assert ends[j] == ends[n] || t[j] == t[n];
      SwapDurations(ends, t, j, n);
      SwapUnnested(ends, t, j, n);
      UnnestedIsFifo(Front(ends), Front(u), Front(s));
      DurationsGrow(ends, u, s);
    }
  }

  lemma SwapUnnested(ends: seq<int>, t: seq<int>, i: nat, j: nat)
    requires |ends| == |t| && i < |t| && j < |t| && (ends[i] == ends[j] || t[i] == t[j])
    requires !Nested(ends, t)
    ensures !Nested(ends, Swap(t, i, j))
    ensures j == |t| - 1 ==> !Nested(Front(ends), Front(Swap(t, i, j)))
  {
    var u := Swap(t, i, j);
    forall x, y | 0 <= x < |ends| && 0 <= y < |ends| && ends[x] < ends[y]
      ensures u[x] <= u[y]
    {
      if t[i] == t[j] {
        assert u == t;
      } else {
        var x' := if x == i then j else if x == j then i else x;
        var y' := if y == i then j else if y == j then i else y;
        assert t[x'] == u[x] && t[y'] == u[y];
      }
    }
  }

  /** A strictly nested pair makes the squared durations differ. */
  lemma NestedLosesSquares(ends: seq<int>, t: seq<int>, s: seq<int>, i: nat, j: nat)
    requires Sorted(ends) && Sorted(s) && multiset(t) == multiset(s) && |ends| == |t| == |s|
    requires i < |ends| && j < |ends| && ends[i] < ends[j] && t[i] > t[j]
    ensures Dot(ends, t) < Dot(ends, s)
  {
    DotSwap(ends, t, i, j);
    Product(ends[j] - ends[i], t[i] - t[j]);
    SwapMultiset(t, i, j);
    Rearrangement(ends, Swap(t, i, j), s);
  }

  /**
   For any arrangement `t` of the starts `s`: the total duration is the one
   first-in-first-out pairing reports; the multiset of durations is that one
   exactly when no two calls strictly nest.
   */
  lemma FifoDurationsExactly(ends: seq<int>, t: seq<int>, s: seq<int>)
    requires Sorted(ends) && Sorted(s) && multiset(t) == multiset(s) && |ends| == |t| == |s|
    ensures Total(Durations(ends, t)) == Total(Durations(ends, s))
    ensures multiset(Durations(ends, t)) == multiset(Durations(ends, s)) <==> !Nested(ends, t)
  {
    SumsOfMultiset(t, s);
    TotalOfDurations(ends, t);
    TotalOfDurations(ends, s);
    if multiset(Durations(ends, t)) == multiset(Durations(ends, s)) {
      SumsOfMultiset(Durations(ends, t), Durations(ends, s));
      forall i, j | 0 <= i < |ends| && 0 <= j < |ends| && ends[i] < ends[j] ensures t[i] <= t[j] {
        if t[i] > t[j] { NestedLosesSquares(ends, t, s, i, j); }
      }
    } else if !Nested(ends, t) {
      UnnestedIsFifo(ends, t, s);
    }
  }

  /** One call inside another: 1 and 9 long, reported as 4 and 6. */
  lemma NestedCallsAreMisreported()
    ensures var ends, t, s := [5, 10], [4, 1], [1, 4];
            && Durations(ends, t) == [1, 9] && Durations(ends, s) == [4, 6]
            && multiset(Durations(ends, t)) != multiset(Durations(ends, s))
  {
    var ends, t, s := [5, 10], [4, 1], [1, 4];
    assert Durations(ends, t) == [1, 9] && Durations(ends, s) == [4, 6];
    assert 1 in multiset([1, 9]) && 1 !in multiset([4, 6]);
  }
}

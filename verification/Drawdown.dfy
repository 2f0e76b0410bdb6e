// The running-peak drawdown: the loop of phase13/portfolio.py and the array expression of analytics/metrics.py.

module Drawdown {
  import opened Trading

  function Max(a: real, b: real): real { if a >= b then a else b }

  function Peak(curve: seq<real>, i: nat): real
    requires i < |curve|
  {
    if i == 0 then curve[0] else Max(Peak(curve, i - 1), curve[i])
  }

  function Drop(from: real, to: real): real
    requires from > 0.0
  {
    (from - to) / from
  }

  // The elementwise fall below the running peak that the array expression takes the minimum of.
  function FallAt(curve: seq<real>, i: nat): real
    requires i < |curve|
  {
    if Peak(curve, i) > 0.0 then -Drop(Peak(curve, i), curve[i]) else 0.0
  }

  // m is the minimum of the elementwise falls up to n: what the array expression returns.
  ghost predicate IsLeastFall(m: real, curve: seq<real>, n: nat)
    requires n <= |curve|
  {
    && (forall i :: 0 <= i < n ==> m <= FallAt(curve, i))
    && (exists i :: 0 <= i < n && FallAt(curve, i) == m)
  }

  lemma {:induction false} PeakIsMax(curve: seq<real>, j: nat)
    requires j < |curve|
    ensures forall i :: 0 <= i <= j ==> curve[i] <= Peak(curve, j)
    ensures exists i :: 0 <= i <= j && curve[i] == Peak(curve, j)
  {
    if j == 0 || Peak(curve, j) == curve[j] {
      assert curve[j] == Peak(curve, j);
    }
    if j > 0 {
      PeakIsMax(curve, j - 1);
      var i :| 0 <= i <= j - 1 && curve[i] == Peak(curve, j - 1);
      assert curve[i] == Peak(curve, j) || curve[j] == Peak(curve, j);
    }
  }

  // The two implementations agree on every curve, up to the sign they report.
  method MaxDrawdown(curve: seq<real>) returns (worst: Option<real>)
    ensures worst == None <==> curve == []
    ensures worst.Some? ==> worst.value >= 0.0 && IsLeastFall(-worst.value, curve, |curve|)
  {
    if curve == [] {
      return None;
    }
    var peak := curve[0];
    var deepest := 0.0;
    assert FallAt(curve, 0) == 0.0 by {
      if curve[0] > 0.0 {
        NoDrop(curve[0]);
      }
    }
    for i := 0 to |curve|
      invariant i > 0 ==> peak == Peak(curve, i - 1)
      invariant i == 0 ==> peak == curve[0] && deepest == 0.0
      invariant deepest >= 0.0
      invariant i > 0 ==> IsLeastFall(-deepest, curve, i)
    {
      hide Drop;
      ghost var before := deepest;
      peak := Max(peak, curve[i]);
      assert peak == Peak(curve, i);
      if peak > 0.0 {
        deepest := Max(deepest, Drop(peak, curve[i]));
      }
      assert -deepest == -before || -deepest == FallAt(curve, i);
      assert -deepest <= FallAt(curve, i);
    }
    return Some(deepest);
  }

  lemma NoDrop(x: real)
    requires x > 0.0
    ensures Drop(x, x) == 0.0
  {
  }

  // A higher starting point makes the same low a deeper drop.
  lemma DropMonotone(low: real, a: real, b: real)
    requires 0.0 <= low && 0.0 < a <= b
    ensures Drop(a, low) <= Drop(b, low)
  {
    DropAsRatio(a, low);
    DropAsRatio(b, low);
    QuotientOrder(low, a, b, low / a, low / b);
  }

  lemma QuotientOrder(low: real, a: real, b: real, y: real, x: real)
    requires 0.0 <= low && 0.0 < a <= b && y * a == low && x * b == low
    ensures x <= y
  {
    Cancel(0.0, y, a);
    assert y * (b - a) >= 0.0;
    Cancel(x, y, b);
  }

  lemma DropAsRatio(from: real, to: real)
    requires from > 0.0
    ensures Drop(from, to) == 1.0 - to / from
  {
    var r, d := to / from, Drop(from, to);
    assert r * from == to && d * from == from - to;
    assert (1.0 - r) * from == from - r * from;
    Cancel(d, 1.0 - r, from);
    Cancel(1.0 - r, d, from);
  }

  lemma Cancel(x: real, y: real, b: real)
    requires b > 0.0 && x * b <= y * b
    ensures x <= y
  {
  }

  // d is the largest relative fall over all pairs of an earlier positive point and a point not before it.
  ghost predicate IsWorstPair(d: real, curve: seq<real>) {
    && (forall i, j :: 0 <= i <= j < |curve| && curve[i] > 0.0 ==> Drop(curve[i], curve[j]) <= d)
    && (exists i, j :: 0 <= i <= j < |curve| && curve[i] > 0.0 && Drop(curve[i], curve[j]) == d)
  }

  ghost predicate HasPositive(curve: seq<real>) {
    exists i :: 0 <= i < |curve| && curve[i] > 0.0
  }

  // The point k below zero is at least as deep under its positive peak as j is under i, cross-multiplied.
  predicate Outdoes(curve: seq<real>, i: nat, j: nat, k: nat)
    requires i < |curve| && j < |curve| && k < |curve|
  {
    curve[k] < 0.0 < Peak(curve, k) && Value(curve[j], Peak(curve, k)) >= Value(curve[k], curve[i])
  }

  predicate Outdone(curve: seq<real>, i: nat, j: nat)
    requires i < |curve| && j < |curve|
  {
    exists k: nat :: k < |curve| && Outdoes(curve, i, j, k)
  }

  // Every fall from a positive point to one below zero is outdone under some running peak.
  ghost predicate NegativesCovered(curve: seq<real>) {
    forall i: nat, j: nat :: i <= j < |curve| && curve[i] > 0.0 > curve[j] ==> Outdone(curve, i, j)
  }

  // Dividing the cross products by the two positive peaks orders the falls.
  lemma DropCross(from: real, to: real, peak: real, low: real)
    requires from > 0.0 && peak > 0.0
    ensures Drop(from, to) <= Drop(peak, low) <==> Value(to, peak) >= Value(low, from)
  {
    DropAsRatio(from, to);
    DropAsRatio(peak, low);
    var x, y := to / from, low / peak;
    assert x * from == to && y * peak == low;
    var fp := Value(from, peak);
    ValuePositive(from, peak);
    assert Value(to, peak) == x * fp && Value(low, from) == y * fp by {
      assert (x * from) * peak == x * (from * peak);
      assert (y * peak) * from == y * (from * peak);
    }
    hide Drop, Value;
    if x * fp >= y * fp {
      Cancel(y, x, fp);
    }
    if x >= y {
      assert (x - y) * fp >= 0.0;
    }
  }

  // A fall that ends at or above zero never beats the running peak above its end.
  lemma PeakBeats(curve: seq<real>, i: nat, j: nat, d: real)
    requires i <= j < |curve| && curve[i] > 0.0 && curve[j] >= 0.0 && IsLeastFall(-d, curve, |curve|)
    ensures Drop(curve[i], curve[j]) <= d
  {
    PeakIsMax(curve, j);
    DropMonotone(curve[j], curve[i], Peak(curve, j));
    assert -d <= FallAt(curve, j);
    hide Drop;
  }

  // A covered fall below zero does not beat the result.
  lemma CoveredBeats(curve: seq<real>, i: nat, j: nat, k: nat, d: real)
    requires i <= j < |curve| && k < |curve| && curve[i] > 0.0 > curve[j] && IsLeastFall(-d, curve, |curve|)
    requires Outdoes(curve, i, j, k)
    ensures Drop(curve[i], curve[j]) <= d
  {
    DropCross(curve[i], curve[j], Peak(curve, k), curve[k]);
    assert -d <= FallAt(curve, k);
    hide Drop;
  }

  lemma FirstPositive(curve: seq<real>) returns (p: nat)
    requires HasPositive(curve)
    ensures p < |curve| && curve[p] > 0.0 && Peak(curve, p) == curve[p]
  {
    p := 0;
    while curve[p] <= 0.0
      invariant p < |curve| && (forall i :: 0 <= i < p ==> curve[i] <= 0.0) && (p > 0 ==> Peak(curve, p - 1) <= 0.0)
      decreases |curve| - p
    {
      p := p + 1;
      assert p < |curve|;
    }
  }

  // Where the result is attained: at some end under its peak, unless no peak is positive.
  lemma Attained(curve: seq<real>, d: real) returns (i: nat, j: nat)
    requires IsLeastFall(-d, curve, |curve|) && HasPositive(curve)
    ensures i <= j < |curve| && curve[i] > 0.0 && curve[i] == Peak(curve, j) && Drop(curve[i], curve[j]) == d
  {
    var p :| 0 <= p < |curve| && FallAt(curve, p) == -d;
    if Peak(curve, p) > 0.0 {
      j := p;
    } else {
      j := FirstPositive(curve);
      NoDrop(curve[j]);
    }
    PeakIsMax(curve, j);
    i :| 0 <= i <= j && curve[i] == Peak(curve, j);
    hide Drop;
  }

  // On every curve: one pass finds the worst of all pairs exactly when some point is positive and every fall from a
  // positive point to one below zero is outdone by a fall under the running peak.
  lemma WorstPairIff(curve: seq<real>, d: real)
    requires IsLeastFall(-d, curve, |curve|)
    ensures IsWorstPair(d, curve) <==> HasPositive(curve) && NegativesCovered(curve)
  {
    if HasPositive(curve) && NegativesCovered(curve) {
      forall i, j | 0 <= i <= j < |curve| && curve[i] > 0.0
        ensures Drop(curve[i], curve[j]) <= d
      {
        if curve[j] >= 0.0 {
          PeakBeats(curve, i, j, d);
        } else {
          assert Outdone(curve, i, j);
          var k: nat :| k < |curve| && Outdoes(curve, i, j, k);
          CoveredBeats(curve, i, j, k, d);
        }
      }
      var i, j := Attained(curve, d);
    }
    if IsWorstPair(d, curve) {
      var a, b := Attained(curve, d);
      forall i: nat, j: nat | i <= j < |curve| && curve[i] > 0.0 > curve[j]
        ensures Outdone(curve, i, j)
      {
        assert Drop(curve[i], curve[j]) <= d;
        AboveOne(curve[i], curve[j]);
        AboveOne(curve[a], curve[b]);
        DropCross(curve[i], curve[j], Peak(curve, b), curve[b]);
        assert Outdoes(curve, i, j, b);
      }
    }
  }

  lemma AboveOne(from: real, to: real)
    requires from > 0.0
    ensures Drop(from, to) > 1.0 <==> to < 0.0
  {
    DropAsRatio(from, to);
    assert to / from * from == to;
  }

  // On a curve that never goes below zero, one pass finds the worst of all pairs; equity that stays positive never
  // loses all of it.
  lemma OnePassIsWorstPair(curve: seq<real>, d: real)
    requires HasPositive(curve) && forall i :: 0 <= i < |curve| ==> curve[i] >= 0.0
    requires IsLeastFall(-d, curve, |curve|)
    ensures IsWorstPair(d, curve) && 0.0 <= d <= 1.0
    ensures (forall i :: 0 <= i < |curve| ==> curve[i] > 0.0) ==> d < 1.0
  {
    WorstPairIff(curve, d);
    var i, j := Attained(curve, d);
    PeakIsMax(curve, j);
    DropRange(curve[i], curve[j]);
    hide Drop;
  }

  lemma DropRange(from: real, to: real)
    requires 0.0 <= to <= from && from > 0.0
    ensures 0.0 <= Drop(from, to) <= 1.0
    ensures to > 0.0 ==> Drop(from, to) < 1.0
  {
    assert Drop(from, to) * from == from - to;
  }

  // Two curves below zero: on the first the running peak 2 hides the deeper relative fall from 1, on the second
  // nothing is hidden.
  lemma NegativeEquityMayHideFalls()
    ensures var curve := [1.0, 2.0, -1.0]; IsLeastFall(-1.5, curve, 3) && !IsWorstPair(1.5, curve)
    ensures var curve := [1.0, -1.0]; IsLeastFall(-2.0, curve, 2) && IsWorstPair(2.0, curve)
  {
    var hiding := [1.0, 2.0, -1.0];
    assert Peak(hiding, 0) == 1.0 && Peak(hiding, 1) == 2.0 && Peak(hiding, 2) == 2.0;
    assert FallAt(hiding, 2) == -1.5;
    assert Drop(hiding[0], hiding[2]) == 2.0;
    var open := [1.0, -1.0];
    assert Peak(open, 0) == 1.0 && Peak(open, 1) == 1.0;
    assert FallAt(open, 1) == -2.0;
    assert Drop(open[0], open[1]) == 2.0;
  }
}

/** The one-pass percentage drawdown of an equity curve, against its quadratic meaning. */
module Drawdown {
  import opened Common

  function Peak(equity: seq<real>): real
    requires equity != []
  {
    var n := |equity| - 1;
    if n == 0 then equity[0] else Max(Peak(equity[..n]), equity[n])
  }

  /** Where a level lies from a peak, as a share of the peak. */
  function Below(level: real, peak: real): real
    requires peak > 0.0
  {
    (level - peak) / peak
  }

  /** The lowest value of (equity - peak) / peak seen so far, starting from zero. */
  function Lowest(equity: seq<real>): real {
    if equity == [] then 0.0 else
    var n := |equity| - 1;
    var peak := Peak(equity);
    if peak > 0.0 then Min(Lowest(equity[..n]), Below(equity[n], peak)) else Lowest(equity[..n])
  }

  /** How far the curve fell from its i-th level to its j-th, as a share of the i-th. */
  function Fall(equity: seq<real>, i: nat, j: nat): real
    requires i <= j < |equity| && equity[i] > 0.0
  {
    (equity[i] - equity[j]) / equity[i]
  }

  ghost predicate BoundsEveryFall(equity: seq<real>, share: real) {
    forall i, j :: 0 <= i <= j < |equity| && equity[i] > 0.0 ==> Fall(equity, i, j) <= share
  }

  ghost predicate NonNegative(equity: seq<real>) {
    forall i :: 0 <= i < |equity| ==> equity[i] >= 0.0
  }

  method MaxDrawdownPct(equity: seq<real>) returns (r: real)
    ensures r == -Lowest(equity) >= 0.0
  {
    var peak: Option<real> := None;
    var maxDrawdown := 0.0;
    for k := 0 to |equity|
      invariant peak.None? <==> k == 0
      invariant k > 0 ==> peak.value == Peak(equity[..k])
      invariant maxDrawdown == Lowest(equity[..k]) <= 0.0
    {
      assert equity[..k + 1][..k] == equity[..k];
      peak := if peak.None? then Some(equity[k]) else Some(Max(peak.value, equity[k]));
      if peak.value > 0.0 {
        maxDrawdown := Min(maxDrawdown, Below(equity[k], peak.value));
      }
    }
    assert equity[..|equity|] == equity;
    r := Abs(maxDrawdown);
  }

  lemma {:induction false} PeakIsMaximum(equity: seq<real>) returns (at: nat)
    requires equity != []
    ensures at < |equity| && equity[at] == Peak(equity)
    ensures forall i :: 0 <= i < |equity| ==> equity[i] <= Peak(equity)
  {
    var n := |equity| - 1;
    if n == 0 {
      at := 0;
    } else {
      at := PeakIsMaximum(equity[..n]);
      forall i | 0 <= i < |equity|
        ensures equity[i] <= Peak(equity)
      {
        if i < n {
          assert equity[i] == equity[..n][i];
        }
      }
      if equity[n] > Peak(equity[..n]) {
        at := n;
      }
    }
  }

  /** Falling to the same level is worse from a higher start, as long as the level is not negative. */
  lemma FallMonotone(low: real, high: real, level: real)
    requires 0.0 < low <= high && level >= 0.0
    ensures (low - level) / low <= (high - level) / high <= 1.0
  {
    ShareLeft(low, level);
    ShareLeft(high, level);
    DivideMore(level, low, high);
  }

  lemma ShareLeft(x: real, level: real)
    requires x > 0.0
    ensures (x - level) / x == 1.0 - level / x
  {
    var q, r := (x - level) / x, level / x;
    assert q * x == x - level && r * x == level;
    AddProducts(q, r, x, x - level, level);
    Cancel(q + r, 1.0, x);
  }

  lemma AddProducts(q: real, r: real, k: real, a: real, b: real)
    requires q * k == a && r * k == b
    ensures (q + r) * k == a + b
  {
  }

  lemma Cancel(a: real, b: real, k: real)
    requires a * k == b * k && k > 0.0
    ensures a == b
  {
    if a > b {
      ScaleKeepsOrder(b, a, k);
    } else if b > a {
      ScaleKeepsOrder(a, b, k);
    }
  }

  lemma NegatedShare(x: real, y: real)
    requires x > 0.0
    ensures (y - x) / x == -((x - y) / x)
  {
    var p, q := (y - x) / x, (x - y) / x;
    assert p * x == y - x && q * x == x - y;
    assert (-q) * x == -(q * x);
    Cancel(p, -q, x);
  }

  lemma DivideMore(x: real, low: real, high: real)
    requires 0.0 < low <= high && x >= 0.0
    ensures 0.0 <= x / high <= x / low
  {
    var a, b := x / high, x / low;
    assert a * high == x && b * low == x;
    if a > b {
      ScaleKeepsOrder(b, a, low);
      ProductMonotone(low, high, a);
    }
  }

  lemma FallOnPrefix(equity: seq<real>, n: nat, i: nat, j: nat)
    requires i <= j < n <= |equity| && equity[i] > 0.0
    ensures Fall(equity[..n], i, j) == Fall(equity, i, j)
  {
  }

  /** The newest term of the one-pass result is a fall from the peak, and no other fall to the end is worse. */
  lemma NewestFall(equity: seq<real>) returns (at: nat)
    requires equity != [] && NonNegative(equity) && Peak(equity) > 0.0
    ensures var n := |equity| - 1;
            && at <= n && equity[at] == Peak(equity)
            && Below(equity[n], Peak(equity)) == -Fall(equity, at, n)
            && Fall(equity, at, n) <= 1.0
            && forall i :: 0 <= i <= n && equity[i] > 0.0 ==> Fall(equity, i, n) <= Fall(equity, at, n)
  {
    var n := |equity| - 1;
    at := PeakIsMaximum(equity);
    var peak := Peak(equity);
    NegatedShare(peak, equity[n]);
    FallMonotone(peak, peak, equity[n]);
    forall i | 0 <= i <= n && equity[i] > 0.0
      ensures Fall(equity, i, n) <= Fall(equity, at, n)
    {
      FallMonotone(equity[i], peak, equity[n]);
    }
  }

  /**
   On a curve that never goes negative, the one-pass result bounds every fall from any earlier level
   to any later one, and is a share between 0 and 1.
   */
  lemma {:induction false} OnePassBoundsEveryFall(equity: seq<real>)
    requires NonNegative(equity)
    ensures 0.0 <= -Lowest(equity) <= 1.0
    ensures BoundsEveryFall(equity, -Lowest(equity))
  {
    if equity != [] {
      var n := |equity| - 1;
      OnePassBoundsEveryFall(equity[..n]);
      var _ := PeakIsMaximum(equity);
      if Peak(equity) > 0.0 {
        var at := NewestFall(equity);
      }
      forall i, j | 0 <= i <= j < |equity| && equity[i] > 0.0
        ensures Fall(equity, i, j) <= -Lowest(equity)
      {
        if j < n {
          FallOnPrefix(equity, n, i, j);
        }
      }
    }
  }

  /** Unless it is zero, the one-pass result is the size of an actual fall. */
  lemma {:induction false} OnePassIsReached(equity: seq<real>) returns (i: nat, j: nat)
    requires NonNegative(equity) && Lowest(equity) != 0.0
    ensures i <= j < |equity| && equity[i] > 0.0 && Fall(equity, i, j) == -Lowest(equity)
  {
    var n := |equity| - 1;
    if Lowest(equity) == Lowest(equity[..n]) {
      i, j := OnePassIsReached(equity[..n]);
      FallOnPrefix(equity, n, i, j);
    } else {
      i := NewestFall(equity);
      j := n;
    }
  }

  // ---------- curves that go below zero ----------

  /** The one-pass term at the k-th point: how far it lies below the highest level so far. */
  function Term(equity: seq<real>, k: nat): real
    requires k < |equity| && Peak(equity[..k + 1]) > 0.0
  {
    -Below(equity[k], Peak(equity[..k + 1]))
  }

  ghost predicate HasTerm(equity: seq<real>, k: nat) {
    k < |equity| && Peak(equity[..k + 1]) > 0.0
  }

  lemma TermOfPrefix(equity: seq<real>, n: nat, k: nat)
    requires k < n <= |equity|
    ensures HasTerm(equity[..n], k) <==> HasTerm(equity, k)
    ensures HasTerm(equity, k) ==> Term(equity[..n], k) == Term(equity, k)
  {
    assert equity[..n][..k + 1] == equity[..k + 1];
  }

  /** On any curve the one-pass result bounds every term and, unless it is zero, is one of them. */
  lemma {:induction false} LowestIsExtreme(equity: seq<real>)
    ensures -Lowest(equity) >= 0.0
    ensures forall k: nat :: HasTerm(equity, k) ==> Term(equity, k) <= -Lowest(equity)
    ensures -Lowest(equity) == 0.0 || exists k: nat :: HasTerm(equity, k) && Term(equity, k) == -Lowest(equity)
  {
    if equity != [] {
      var n := |equity| - 1;
      var before := equity[..n];
      LowestIsExtreme(before);
      NewestTerm(equity);
      hide Lowest, Peak, Term;
      forall k: nat | HasTerm(equity, k) ensures Term(equity, k) <= -Lowest(equity) {
        if k < n {
          TermOfPrefix(equity, n, k);
        }
      }
      if Lowest(equity) == Lowest(before) && Lowest(before) != 0.0 {
        var k: nat :| HasTerm(before, k) && Term(before, k) == -Lowest(before);
        TermOfPrefix(equity, n, k);
      }
    }
  }

  lemma NewestTerm(equity: seq<real>)
    requires equity != []
    ensures var n := |equity| - 1;
            Lowest(equity) == if HasTerm(equity, n) then Min(Lowest(equity[..n]), -Term(equity, n))
              else Lowest(equity[..n])
  {
    hide Peak, Below;
    assert equity[..|equity|] == equity;
  }

  /** How far below zero the j-th level lies, in units of a positive level. */
  function Depth(equity: seq<real>, j: nat, level: real): real
    requires j < |equity| && level > 0.0
  {
    -equity[j] / level
  }

  lemma ShareIsOnePlusDepth(level: real, x: real)
    requires level > 0.0
    ensures (level - x) / level == 1.0 + -x / level == -Below(x, level)
    ensures x < 0.0 <==> -x / level > 0.0
  {
    ShareLeft(level, x);
    NegatedShare(level, x);
    var p, q := x / level, -x / level;
    assert p * level == x && q * level == -x;
    assert (-p) * level == -(p * level);
    Cancel(-p, q, level);
    ScaleKeepsSign(q, level);
  }

  /** A plunge below zero from any earlier positive level is no deeper than some plunge from the running peak. */
  ghost predicate PlungesMatched(equity: seq<real>) {
    forall i: nat, j: nat :: i <= j < |equity| && equity[i] > 0.0 && equity[j] < 0.0 ==> Matched(equity, i, j)
  }

  ghost predicate Matched(equity: seq<real>, i: nat, j: nat)
    requires i <= j < |equity| && equity[i] > 0.0
  {
    exists k: nat :: HasTerm(equity, k) && Depth(equity, j, equity[i]) <= Depth(equity, k, Peak(equity[..k + 1]))
  }

  lemma NonNegativePointIsBounded(equity: seq<real>, i: nat, j: nat)
    requires i <= j < |equity| && equity[i] > 0.0 && equity[j] >= 0.0
    ensures Fall(equity, i, j) <= -Lowest(equity)
  {
    var prefix := equity[..j + 1];
    var at := PeakIsMaximum(prefix);
    assert prefix[i] == equity[i] && prefix[j] == equity[j];
    FallMonotone(equity[i], Peak(prefix), equity[j]);
    NegatedShare(Peak(prefix), equity[j]);
    LowestIsExtreme(equity);
    assert HasTerm(equity, j);
  }

  /**
   On any curve the one-pass result bounds every fall exactly when every plunge below zero, measured
   from any earlier positive level, is matched by one measured from the running peak. Levels that are
   not negative never matter.
   */
  lemma OnePassBoundsEveryFallExactly(equity: seq<real>)
    ensures BoundsEveryFall(equity, -Lowest(equity)) <==> PlungesMatched(equity)
  {
    hide Lowest;
    LowestIsExtreme(equity);
    forall i: nat, j: nat | i <= j < |equity| && equity[i] > 0.0
      ensures equity[j] >= 0.0 ==> Fall(equity, i, j) <= -Lowest(equity)
      ensures equity[j] < 0.0 ==> (Fall(equity, i, j) <= -Lowest(equity) <==> Matched(equity, i, j))
    {
      if equity[j] >= 0.0 {
        NonNegativePointIsBounded(equity, i, j);
      } else {
        PlungeBoundedExactly(equity, i, j);
      }
    }
  }

  lemma PlungeBoundedExactly(equity: seq<real>, i: nat, j: nat)
    requires i <= j < |equity| && equity[i] > 0.0 && equity[j] < 0.0
    ensures Fall(equity, i, j) <= -Lowest(equity) <==> Matched(equity, i, j)
  {
    hide Lowest;
    LowestIsExtreme(equity);
    ShareIsOnePlusDepth(equity[i], equity[j]);
    forall k: nat | HasTerm(equity, k)
      ensures Term(equity, k) == 1.0 + Depth(equity, k, Peak(equity[..k + 1]))
    {
      ShareIsOnePlusDepth(Peak(equity[..k + 1]), equity[k]);
    }
  }

  /**
   At the first level below zero of a curve the one-pass result still bounds every fall exactly when all
   the positive levels before it are equal.
   */
  lemma FirstNegativeLevelExactly(equity: seq<real>, x: real)
    requires NonNegative(equity) && x < 0.0
    ensures BoundsEveryFall(equity + [x], -Lowest(equity + [x])) <==>
            forall i, j :: 0 <= i < |equity| && 0 <= j < |equity| && equity[i] > 0.0 && equity[j] > 0.0 ==>
              equity[i] == equity[j]
  {
    var n, all := |equity|, equity + [x];
    hide Lowest;
    forall i: nat | i < n && equity[i] > 0.0
      ensures Fall(all, i, n) <= -Lowest(all) <==> equity[i] == Peak(equity)
    {
      PlungeBoundedExactly(all, i, n);
      LastPlungeMatchedExactly(equity, x, i);
    }
    if equity != [] {
      var at := PeakIsMaximum(equity);
    }
    forall i: nat, j: nat | i <= j < n && all[i] > 0.0 ensures Fall(all, i, j) <= -Lowest(all) {
      NonNegativePointIsBounded(all, i, j);
    }
  }

  lemma NoDepthAboveZero(level: real, x: real)
    requires level > 0.0 && x >= 0.0
    ensures -x / level <= 0.0
  {
    var q := -x / level;
    assert q * level == -x;
    ScaleKeepsSign(q, level);
  }

  lemma PeakIgnoresNegative(equity: seq<real>, x: real, i: nat)
    requires NonNegative(equity) && x < 0.0 && i < |equity|
    ensures (equity + [x])[..|equity| + 1] == equity + [x]
    ensures Peak(equity + [x]) == Peak(equity) >= equity[i]
  {
    var at := PeakIsMaximum(equity);
    assert (equity + [x])[..|equity|] == equity;
  }

  lemma EarlierTermsAreShallow(equity: seq<real>, x: real, k: nat)
    requires NonNegative(equity) && k < |equity| && HasTerm(equity + [x], k)
    ensures Depth(equity + [x], k, Peak((equity + [x])[..k + 1])) <= 0.0
  {
    hide Peak;
    NoDepthAboveZero(Peak((equity + [x])[..k + 1]), equity[k]);
  }

  lemma LastPlungeMatchedExactly(equity: seq<real>, x: real, i: nat)
    requires NonNegative(equity) && x < 0.0 && i < |equity| && equity[i] > 0.0
    ensures Matched(equity + [x], i, |equity|) <==> equity[i] == Peak(equity)
  {
    hide Peak, NonNegative;
    var n, all := |equity|, equity + [x];
    PeakIgnoresNegative(equity, x, i);
    ShareIsOnePlusDepth(equity[i], x);
    DeeperFromLower(equity[i], Peak(equity), x);
    if Matched(all, i, n) {
      var k: nat :| HasTerm(all, k) && Depth(all, n, equity[i]) <= Depth(all, k, Peak(all[..k + 1]));
      if k < n {
        EarlierTermsAreShallow(equity, x, k);
      }
    } else {
      assert HasTerm(all, n);
    }
  }

  lemma DeeperFromLower(low: real, high: real, x: real)
    requires 0.0 < low <= high && x < 0.0
    ensures -x / low <= -x / high <==> low == high
  {
    var a, b := -x / low, -x / high;
    var y := -x;
    assert a * low == y && b * high == y;
    ScaleKeepsSign(b, high);
    ScaleKeepsOrder(low, high, b);
    ScaleKeepsOrder(a, b, low);
    assert low < high ==> b * low < y;
  }

  /** With a negative level the one-pass result can miss the worst fall: 1, 10, -1 falls by 200% from 1. */
  lemma NegativeEquityIsUnderstated()
    ensures var equity := [1.0, 10.0, -1.0];
            -Lowest(equity) == 1.1 && Fall(equity, 0, 2) == 2.0
  {
    var equity := [1.0, 10.0, -1.0];
    assert equity[..2] == [1.0, 10.0] && equity[..2][..1] == [1.0] && [1.0][..0] == [];
    assert Peak([1.0]) == 1.0 && Peak([1.0, 10.0]) == 10.0 && Peak(equity) == 10.0;
    assert Lowest([1.0]) == 0.0;
    assert Lowest([1.0, 10.0]) == 0.0;
  }
}

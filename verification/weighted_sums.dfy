/**
 * Facts about weighted sums of real numbers, stated over plain sequences of
 * values and weights so that their proofs never see a concrete weight table.
 * The HMPI properties reach them through lemmas that rewrite the engine's
 * sums into these forms.
 */
module WeightedSums {

  /** The sum of the weights; positive when every weight is and there is one. */
  function Total(ws: seq<real>): (t: real)
    ensures Positive(ws) && ws != [] ==> t > 0.0
  {
    if ws == [] then 0.0 else Total(ws[..|ws| - 1]) + ws[|ws| - 1]
  }

  /** The sum of value times weight, from left to right. */
  function Dot(xs: seq<real>, ws: seq<real>): real
    requires |xs| == |ws|
  {
    if xs == [] then 0.0 else Dot(xs[..|xs| - 1], ws[..|ws| - 1]) + xs[|xs| - 1] * ws[|ws| - 1]
  }

  /** The sum of every term's share of `total`, in percent. */
  function ShareSum(xs: seq<real>, ws: seq<real>, total: real): real
    requires |xs| == |ws| && total != 0.0
  {
    if xs == [] then 0.0
    else ShareSum(xs[..|xs| - 1], ws[..|ws| - 1], total) + xs[|xs| - 1] * ws[|ws| - 1] / total * 100.0
  }

  /** The last term of ShareSum, split off. */
  lemma {:induction false} ShareSumStep(xs: seq<real>, ws: seq<real>, total: real)
    requires |xs| == |ws| && total != 0.0 && xs != []
    ensures var n := |xs| - 1;
      ShareSum(xs, ws, total) == ShareSum(xs[..n], ws[..n], total) + xs[n] * ws[n] / total * 100.0
  {
  }

  predicate Positive(ws: seq<real>)
  {
    forall i :: 0 <= i < |ws| ==> ws[i] > 0.0
  }

  lemma {:induction false} MulMonotone(a: real, b: real, w: real)
    requires a <= b && w >= 0.0
    ensures a * w <= b * w
  {
  }

  lemma {:induction false} MulDistributes(k: real, a: real, b: real)
    ensures k * (a + b) == k * a + k * b
  {
  }

  /** Adding one term of value at least lo keeps the numerator at least lo times the weight. */
  lemma {:induction false} LowerStep(lo: real, n: real, w: real, x: real, v: real, n': real, w': real)
    requires lo * w <= n && lo <= x && v > 0.0
    requires n' == n + x * v && w' == w + v
    ensures lo * w' <= n'
  {
    MulMonotone(lo, x, v);
    MulDistributes(lo, w, v);
  }

  /** Adding one term of value at most hi keeps the numerator at most hi times the weight. */
  lemma {:induction false} UpperStep(hi: real, n: real, w: real, x: real, v: real, n': real, w': real)
    requires n <= hi * w && x <= hi && v > 0.0
    requires n' == n + x * v && w' == w + v
    ensures n' <= hi * w'
  {
    MulMonotone(x, hi, v);
    MulDistributes(hi, w, v);
  }

  /** The last term of Dot and of Total, split off. */
  lemma {:induction false} DotStep(xs: seq<real>, ws: seq<real>)
    requires |xs| == |ws| && xs != []
    ensures var n := |xs| - 1;
      Dot(xs, ws) == Dot(xs[..n], ws[..n]) + xs[n] * ws[n] && Total(ws) == Total(ws[..n]) + ws[n]
  {
  }

  /** Values of at least lo and positive weights put the weighted sum at least lo times the total weight. */
  lemma {:induction false} DotAtLeast(xs: seq<real>, ws: seq<real>, lo: real)
    requires |xs| == |ws| && Positive(ws)
    requires forall i :: 0 <= i < |xs| ==> lo <= xs[i]
    ensures lo * Total(ws) <= Dot(xs, ws)
  {
    if xs != [] {
      var n := |xs| - 1;
      DotAtLeast(xs[..n], ws[..n], lo);
      DotStep(xs, ws);
      LowerStep(lo, Dot(xs[..n], ws[..n]), Total(ws[..n]), xs[n], ws[n], Dot(xs, ws), Total(ws));
    }
  }

  /** Values of at most hi and positive weights put the weighted sum at most hi times the total weight. */
  lemma {:induction false} DotAtMost(xs: seq<real>, ws: seq<real>, hi: real)
    requires |xs| == |ws| && Positive(ws)
    requires forall i :: 0 <= i < |xs| ==> xs[i] <= hi
    ensures Dot(xs, ws) <= hi * Total(ws)
  {
    if xs != [] {
      var n := |xs| - 1;
      DotAtMost(xs[..n], ws[..n], hi);
      DotStep(xs, ws);
      UpperStep(hi, Dot(xs[..n], ws[..n]), Total(ws[..n]), xs[n], ws[n], Dot(xs, ws), Total(ws));
    }
  }

  lemma {:induction false} DivMonotone(a: real, b: real, t: real)
    requires a <= b && t > 0.0
    ensures a / t <= b / t
  {
    MulMonotone(a, b, 1.0 / t);
    assert a / t == a * (1.0 / t) && b / t == b * (1.0 / t);
  }

  /** A quotient of a numerator bounded by lo and hi times a positive denominator lies in [lo, hi]. */
  lemma {:induction false} QuotientBounds(n: real, w: real, lo: real, hi: real)
    requires w > 0.0 && lo * w <= n <= hi * w
    ensures lo <= n / w <= hi
  {
    MulMonotone(lo * w, n, 1.0 / w);
    MulMonotone(n, hi * w, 1.0 / w);
    assert lo * w * (1.0 / w) == lo && hi * w * (1.0 / w) == hi;
    assert n * (1.0 / w) == n / w;
  }

  /** Values within [lo, hi] and positive weights put the weighted mean within [lo, hi]. */
  lemma {:induction false} MeanBounds(xs: seq<real>, ws: seq<real>, lo: real, hi: real)
    requires |xs| == |ws| && Positive(ws) && ws != []
    requires forall i :: 0 <= i < |xs| ==> lo <= xs[i] <= hi
    ensures lo <= Dot(xs, ws) / Total(ws) <= hi
  {
    DotAtLeast(xs, ws, lo);
    DotAtMost(xs, ws, hi);
    QuotientBounds(Dot(xs, ws), Total(ws), lo, hi);
  }

  /** Raising one value raises the weighted sum by that change times its weight. */
  lemma {:induction false} DotUpdate(xs: seq<real>, ws: seq<real>, k: int, x: real)
    requires |xs| == |ws| && 0 <= k < |xs|
    ensures Dot(xs[k := x], ws) == Dot(xs, ws) + (x - xs[k]) * ws[k]
  {
    var n := |xs| - 1;
    if k == n {
      assert xs[k := x][..n] == xs[..n];
    } else {
      assert xs[k := x][..n] == xs[..n][k := x];
      DotUpdate(xs[..n], ws[..n], k, x);
    }
  }

  /** Raising one value with a positive weight never lowers the weighted mean. */
  lemma {:induction false} MeanMonotone(xs: seq<real>, ws: seq<real>, k: int, x: real)
    requires |xs| == |ws| && Positive(ws) && 0 <= k < |xs| && xs[k] <= x
    ensures Dot(xs[k := x], ws) / Total(ws) >= Dot(xs, ws) / Total(ws)
  {
    DotUpdate(xs, ws, k, x);
    MulMonotone(0.0, x - xs[k], ws[k]);
    DivMonotone(Dot(xs, ws), Dot(xs[k := x], ws), Total(ws));
  }

  /** The shares of a non-zero total add up to the weighted sum over that total, in percent. */
  lemma {:induction false} SharesAddUp(xs: seq<real>, ws: seq<real>, total: real)
    requires |xs| == |ws| && total != 0.0
    ensures ShareSum(xs, ws, total) == Dot(xs, ws) / total * 100.0
  {
    if xs != [] {
      var n := |xs| - 1;
      SharesAddUp(xs[..n], ws[..n], total);
      var d, t := Dot(xs[..n], ws[..n]), xs[n] * ws[n];
      assert d / total * 100.0 + t / total * 100.0 == (d + t) / total * 100.0;
    }
  }

  /** The shares of the weighted sum itself add up to 100. */
  lemma {:induction false} SharesOfOwnSum(xs: seq<real>, ws: seq<real>)
    requires |xs| == |ws| && Dot(xs, ws) != 0.0
    ensures ShareSum(xs, ws, Dot(xs, ws)) == 100.0
  {
    var d := Dot(xs, ws);
    SharesAddUp(xs, ws, d);
    assert d / d == 1.0;
  }

  /** Non-negative values with positive weights give a non-negative weighted sum, positive when one value is. */
  lemma {:induction false} DotSign(xs: seq<real>, ws: seq<real>)
    requires |xs| == |ws| && Positive(ws)
    requires forall i :: 0 <= i < |xs| ==> xs[i] >= 0.0
    ensures Dot(xs, ws) >= 0.0
    ensures (exists i :: 0 <= i < |xs| && xs[i] > 0.0) ==> Dot(xs, ws) > 0.0
  {
    if xs != [] {
      var n := |xs| - 1;
      DotSign(xs[..n], ws[..n]);
      MulMonotone(0.0, xs[n], ws[n]);
      assert xs[n] > 0.0 ==> xs[n] * ws[n] > 0.0;
      if exists i :: 0 <= i < |xs| && xs[i] > 0.0 {
        var i :| 0 <= i < |xs| && xs[i] > 0.0;
        if i < n {
          assert xs[..n][i] == xs[i];
        }
      }
    }
  }

  /** A non-negative term over a positive total is a non-negative percentage. */
  lemma {:induction false} ShareSign(t: real, total: real)
    requires t >= 0.0 && total > 0.0
    ensures t / total * 100.0 >= 0.0
  {
  }
}

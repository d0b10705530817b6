/** Scoring a calibration: per-view and pooled root-mean-square reprojection
    errors.  The projection itself, the L2 norm and the square root are
    numerical library routines and enter as oracles. */
module Reprojection {
  import opened Pattern

  /** A 3-vector: a rotation (Rodrigues) or a translation of one view. */
  datatype Vec3 = Vec3(a: real, b: real, c: real)

  /** A dense matrix, row by row. */
  type Mat = seq<seq<real>>

  /** The L2 norm of the difference between a view's observed points and its
      reference points projected through (rvec, tvec, camera matrix, distortion). */
  type ResidualNorm = (seq<Point3>, seq<Point2>, Vec3, Vec3, Mat, Mat) -> real

  predicate ShapesAgree(objectPoints: seq<seq<Point3>>, imagePoints: seq<seq<Point2>>,
                        rvecs: seq<Vec3>, tvecs: seq<Vec3>)
  {
    |imagePoints| >= |objectPoints| && |rvecs| >= |objectPoints| && |tvecs| >= |objectPoints|
  }

  /** The residual norm of every view. */
  function Residuals(objectPoints: seq<seq<Point3>>, imagePoints: seq<seq<Point2>>,
                     rvecs: seq<Vec3>, tvecs: seq<Vec3>, cameraMatrix: Mat, distCoeffs: Mat,
                     norm: ResidualNorm): (e: seq<real>)
    requires ShapesAgree(objectPoints, imagePoints, rvecs, tvecs)
    ensures |e| == |objectPoints|
  {
    seq(|objectPoints|, i requires 0 <= i < |objectPoints| =>
      norm(objectPoints[i], imagePoints[i], rvecs[i], tvecs[i], cameraMatrix, distCoeffs))
  }

  /** The number of points of every view. */
  function PointCounts(objectPoints: seq<seq<Point3>>): (n: seq<nat>)
    ensures |n| == |objectPoints|
    ensures forall i :: 0 <= i < |n| ==> n[i] == |objectPoints[i]|
  {
    seq(|objectPoints|, i requires 0 <= i < |objectPoints| => |objectPoints[i]|)
  }

  function Sq(x: real): real {
    x * x
  }

  function SumSquares(e: seq<real>): real {
    if e == [] then 0.0 else SumSquares(e[..|e| - 1]) + Sq(e[|e| - 1])
  }

  function Sum(n: seq<nat>): nat {
    if n == [] then 0 else Sum(n[..|n| - 1]) + n[|n| - 1]
  }

  predicate AllPositive(n: seq<nat>) {
    forall i :: 0 <= i < |n| ==> n[i] > 0
  }

  lemma {:induction false} SumPositive(n: seq<nat>)
    requires AllPositive(n) && |n| > 0
    ensures Sum(n) > 0
  {
    if |n| > 1 {
      SumPositive(n[..|n| - 1]);
    }
  }

  /** `k` views sharing one grid pool `k * |grid|` points. */
  lemma {:induction false} SumCopies(k: nat, grid: seq<Point3>)
    ensures Sum(PointCounts(seq(k, _ => grid))) == k * |grid|
  {
    if k > 0 {
      SumCopies(k - 1, grid);
      var n := PointCounts(seq(k, _ => grid));
      assert n[..k - 1] == PointCounts(seq(k - 1, _ => grid));
      assert k * |grid| == (k - 1) * |grid| + |grid|;
    }
  }

  /** Mean of the squared residuals of one view. */
  function MeanSquare(err: real, n: nat): real
    requires n > 0
  {
    Sq(err) / (n as real)
  }

  /** The sum of every view's mean square weighted by its point count. */
  function WeightedMeanSquares(e: seq<real>, n: seq<nat>): real
    requires |e| == |n| && AllPositive(n)
  {
    if e == [] then 0.0
    else WeightedMeanSquares(e[..|e| - 1], n[..|n| - 1])
         + (n[|n| - 1] as real) * MeanSquare(e[|e| - 1], n[|n| - 1])
  }

  /** The pooled mean square is the point-weighted mean of the per-view mean
      squares: with per-view RMS values r_i over n_i points, the pooled RMS is
      sqrt((n_1 r_1^2 + ... + n_k r_k^2) / (n_1 + ... + n_k)). */
  lemma {:induction false} PooledIsPointWeighted(e: seq<real>, n: seq<nat>)
    requires |e| == |n| && AllPositive(n)
    ensures SumSquares(e) == WeightedMeanSquares(e, n)
  {
    if e != [] {
      var k := |e| - 1;
      PooledIsPointWeighted(e[..k], n[..k]);
      assert (n[k] as real) * (Sq(e[k]) / (n[k] as real)) == Sq(e[k]);
    }
  }

  /** The RMS error of every view over its own point count. */
  function PerViewErrors(objectPoints: seq<seq<Point3>>, e: seq<real>, sqrt: real -> real): (r: seq<real>)
    requires |e| == |objectPoints| && AllPositive(PointCounts(objectPoints))
    ensures |r| == |objectPoints|
  {
    seq(|e|, i requires 0 <= i < |e| => sqrt(MeanSquare(e[i], |objectPoints[i]|)))
  }

  /** The pooled RMS error: all squared residuals of all views over all points. */
  function PooledError(objectPoints: seq<seq<Point3>>, e: seq<real>, sqrt: real -> real): real
    requires |objectPoints| > 0 && AllPositive(PointCounts(objectPoints))
  {
    SumPositive(PointCounts(objectPoints));
    sqrt(SumSquares(e) / (Sum(PointCounts(objectPoints)) as real))
  }

  /** `sqrt` returns the non-negative square root of `x`. */
  predicate RootOf(sqrt: real -> real, x: real) {
    sqrt(x) >= 0.0 && Sq(sqrt(x)) == x
  }

  /** Two non-negative numbers with the same square are equal. */
  lemma SquareInjective(x: real, y: real)
    requires x >= 0.0 && y >= 0.0 && Sq(x) == Sq(y)
    ensures x == y
  {
    var d := x - y;
    var s := x + y;
    assert d * s == Sq(x) - Sq(y) == 0.0;
    if s > 0.0 {
      assert d == (d * s) / s;
    }
  }

  /** The reported total is not the mean of the reported per-view errors: a
      view of one point and a view of four, both with residual norm 2, have
      per-view RMS errors 2 and 1 (mean 3/2), while the pooled RMS error is
      the square root of 8/5, whose square is not 9/4. */
  lemma PooledIsNotMeanOfViews(p: Point3, sqrt: real -> real)
    requires RootOf(sqrt, 4.0) && RootOf(sqrt, 1.0) && RootOf(sqrt, 1.6)
    ensures var objectPoints := [[p], [p, p, p, p]];
      var e := [2.0, 2.0];
      var r := PerViewErrors(objectPoints, e, sqrt);
      && r == [2.0, 1.0]
      && PooledError(objectPoints, e, sqrt) != (r[0] + r[1]) / 2.0
  {
    var objectPoints := [[p], [p, p, p, p]];
    var e := [2.0, 2.0];
    assert PointCounts(objectPoints) == [1, 4];
    assert MeanSquare(2.0, 1) == 4.0 && MeanSquare(2.0, 4) == 1.0;
    SquareInjective(sqrt(4.0), 2.0);
    SquareInjective(sqrt(1.0), 1.0);
    var r := PerViewErrors(objectPoints, e, sqrt);
    assert r == [2.0, 1.0];
    assert e[..1] == [2.0] && e[..1][..0] == [];
    assert SumSquares(e) == 8.0;
    assert [1, 4][..1] == [1] && [1][..0] == [];
    assert Sum([1, 4]) == 5;
    assert PooledError(objectPoints, e, sqrt) == sqrt(1.6);
    assert Sq(1.5) == 2.25;
  }

  lemma SumSquaresStep(e: seq<real>, i: nat)
    requires i < |e|
    ensures SumSquares(e[..i + 1]) == SumSquares(e[..i]) + Sq(e[i])
  {
    assert e[..i + 1][..i] == e[..i];
  }

  lemma SumStep(n: seq<nat>, i: nat)
    requires i < |n|
    ensures Sum(n[..i + 1]) == Sum(n[..i]) + n[i]
  {
    assert n[..i + 1][..i] == n[..i];
  }

  /** Projects every view, records its RMS error (over its own point count)
      and accumulates squared norms and point counts for the pooled RMS. */
  method ComputeReprojectionErrors(objectPoints: seq<seq<Point3>>, imagePoints: seq<seq<Point2>>,
                                   rvecs: seq<Vec3>, tvecs: seq<Vec3>,
                                   cameraMatrix: Mat, distCoeffs: Mat,
                                   norm: ResidualNorm, sqrt: real -> real)
    returns (totalAvgErr: real, perViewErrors: seq<real>)
    requires ShapesAgree(objectPoints, imagePoints, rvecs, tvecs)
    requires |objectPoints| > 0 && AllPositive(PointCounts(objectPoints))
    ensures var e := Residuals(objectPoints, imagePoints, rvecs, tvecs, cameraMatrix, distCoeffs, norm);
      && perViewErrors == PerViewErrors(objectPoints, e, sqrt)
      && totalAvgErr == PooledError(objectPoints, e, sqrt)
  {
    ghost var e := Residuals(objectPoints, imagePoints, rvecs, tvecs, cameraMatrix, distCoeffs, norm);
    ghost var counts := PointCounts(objectPoints);
    var totalPoints := 0;
    var totalErr := 0.0;
    perViewErrors := seq(|objectPoints|, _ => 0.0);
    var i := 0;
    while i < |objectPoints|
      invariant 0 <= i <= |objectPoints|
      invariant |perViewErrors| == |objectPoints|
      invariant forall k :: 0 <= k < i ==> perViewErrors[k] == sqrt(MeanSquare(e[k], |objectPoints[k]|))
      invariant totalErr == SumSquares(e[..i])
      invariant totalPoints == Sum(counts[..i])
    {
      var err := norm(objectPoints[i], imagePoints[i], rvecs[i], tvecs[i], cameraMatrix, distCoeffs);
      var n := |objectPoints[i]|;
      assert err == e[i] && n == counts[i];
      perViewErrors := perViewErrors[i := sqrt(MeanSquare(err, n))];
      SumSquaresStep(e, i);
      SumStep(counts, i);
      totalErr := totalErr + err * err;
      assert err * err == Sq(e[i]);
      totalPoints := totalPoints + n;
      i := i + 1;
    }
    assert e[..i] == e && counts[..i] == counts;
    assert perViewErrors == PerViewErrors(objectPoints, e, sqrt);
    SumPositive(counts);
    totalAvgErr := sqrt(totalErr / (totalPoints as real));
  }
}

/** One calibration attempt: the correspondences and initial guesses handed
    to the solver, the range check of its output and the scoring of the fit. */
module Calibration {
  import opened CalibFlags
  import opened Pattern
  import opened Reprojection

  /** Everything the sample passes to the camera-calibration solver. */
  datatype SolverRequest = SolverRequest(
    objectPoints: seq<seq<Point3>>,
    imagePoints: seq<seq<Point2>>,
    imageSize: Size,
    cameraMatrix: Mat,
    distCoeffs: Mat,
    flags: Flags)

  /** What the solver hands back: its own RMS figure, the fitted intrinsics
      and one rotation and one translation per view. */
  datatype SolverResult = SolverResult(
    rms: real,
    cameraMatrix: Mat,
    distCoeffs: Mat,
    rvecs: seq<Vec3>,
    tvecs: seq<Vec3>)

  /** The numerical library routines one attempt relies on. */
  datatype Numerics = Numerics(
    calibrate: SolverRequest -> SolverResult,
    checkRange: Mat -> bool,
    norm: ResidualNorm,
    sqrt: real -> real)

  function Eye(n: nat): Mat {
    seq(n, r => seq(n, c => if r == c then 1.0 else 0.0))
  }

  function Zeros(rows: nat, cols: nat): Mat {
    seq(rows, _ => seq(cols, _ => 0.0))
  }

  /** The initial camera matrix: the 3x3 identity, except that entry (0,0)
      holds the aspect ratio when the aspect ratio is fixed. */
  function InitialCameraMatrix(flags: Flags, aspectRatio: real): (k: Mat)
    ensures |k| == 3 && forall r :: 0 <= r < 3 ==> |k[r]| == 3
    ensures forall r, c :: 0 <= r < 3 && 0 <= c < 3 && (r != 0 || c != 0) ==>
      k[r][c] == if r == c then 1.0 else 0.0
    ensures k[0][0] == if Has(flags, FIX_ASPECT_RATIO) then aspectRatio else 1.0
  {
    var eye := Eye(3);
    if Has(flags, FIX_ASPECT_RATIO) then eye[0 := eye[0][0 := aspectRatio]] else eye
  }

  /** The solver always runs with the two highest radial terms held fixed,
      on top of whatever the caller asked for. */
  function SolverFlags(flags: Flags): (f: Flags)
    ensures Has(f, FIX_K4) && Has(f, FIX_K5)
    ensures f & !(FIX_K4 | FIX_K5) == flags & !(FIX_K4 | FIX_K5)
  {
    flags | FIX_K4 | FIX_K5
  }

  /** The request of one attempt over the accepted views `imagePoints`. */
  function SolverRequestFor(imagePoints: seq<seq<Point2>>, imageSize: Size, boardSize: Size,
                            patternType: PatternKind, squareSize: real, aspectRatio: real,
                            flags: Flags): (r: SolverRequest)
    ensures |r.objectPoints| == |imagePoints|
    ensures forall i :: 0 <= i < |r.objectPoints| ==>
      r.objectPoints[i] == ReferenceGrid(boardSize, squareSize, patternType)
    ensures r.imagePoints == imagePoints && r.imageSize == imageSize
    ensures r.cameraMatrix == InitialCameraMatrix(flags, aspectRatio)
    ensures |r.distCoeffs| == 8 && forall i :: 0 <= i < 8 ==> r.distCoeffs[i] == [0.0]
    ensures r.flags == SolverFlags(flags)
  {
    var grid := ReferenceGrid(boardSize, squareSize, patternType);
    SolverRequest(seq(|imagePoints|, _ => grid), imagePoints, imageSize,
                  InitialCameraMatrix(flags, aspectRatio), Zeros(8, 1), SolverFlags(flags))
  }

  /** The solver returns one rotation and one translation per view. */
  predicate OnePosePerView(res: SolverResult, views: nat) {
    |res.rvecs| == views && |res.tvecs| == views
  }

  lemma GridNonEmpty(boardSize: Size, squareSize: real, patternType: PatternKind)
    requires boardSize.width > 0 && boardSize.height > 0
    ensures |ReferenceGrid(boardSize, squareSize, patternType)| > 0
  {
    GridLayout(boardSize, squareSize, patternType);
    assert Count(boardSize.height) * Count(boardSize.width) > 0;
  }

  /** The pooled error of an attempt divides by the number of views times
      the number of grid points. */
  lemma RequestPointTotal(imagePoints: seq<seq<Point2>>, imageSize: Size, boardSize: Size,
                          patternType: PatternKind, squareSize: real, aspectRatio: real, flags: Flags)
    ensures var req := SolverRequestFor(imagePoints, imageSize, boardSize, patternType,
                                        squareSize, aspectRatio, flags);
      Sum(PointCounts(req.objectPoints))
        == |imagePoints| * Count(boardSize.height) * Count(boardSize.width)
  {
    var grid := ReferenceGrid(boardSize, squareSize, patternType);
    var req := SolverRequestFor(imagePoints, imageSize, boardSize, patternType,
                                squareSize, aspectRatio, flags);
    assert req.objectPoints == seq(|imagePoints|, _ => grid);
    SumCopies(|imagePoints|, grid);
    GridLayout(boardSize, squareSize, patternType);
    assert |imagePoints| * (Count(boardSize.height) * Count(boardSize.width))
        == |imagePoints| * Count(boardSize.height) * Count(boardSize.width);
  }

  /** Runs one calibration attempt: builds the reference grid once, copies it
      for every accepted view, calls the solver with identity / zero initial
      guesses and the forced flags, checks the fitted intrinsics for range and
      scores the fit.  The attempt is `ok` exactly when both the camera matrix
      and the distortion vector pass the range check; the errors are computed
      either way. */
  method RunCalibration(imagePoints: seq<seq<Point2>>, imageSize: Size, boardSize: Size,
                        patternType: PatternKind, squareSize: real, aspectRatio: real,
                        flags: Flags, num: Numerics)
    returns (ok: bool, cameraMatrix: Mat, distCoeffs: Mat, rvecs: seq<Vec3>, tvecs: seq<Vec3>,
             reprojErrs: seq<real>, totalAvgErr: real)
    requires |imagePoints| > 0 && boardSize.width > 0 && boardSize.height > 0
    requires OnePosePerView(num.calibrate(SolverRequestFor(imagePoints, imageSize, boardSize,
               patternType, squareSize, aspectRatio, flags)), |imagePoints|)
    ensures var req := SolverRequestFor(imagePoints, imageSize, boardSize, patternType,
                                        squareSize, aspectRatio, flags);
      var res := num.calibrate(req);
      && cameraMatrix == res.cameraMatrix && distCoeffs == res.distCoeffs
      && rvecs == res.rvecs && tvecs == res.tvecs
      && ok == (num.checkRange(cameraMatrix) && num.checkRange(distCoeffs))
      && AllPositive(PointCounts(req.objectPoints))
      && var e := Residuals(req.objectPoints, imagePoints, rvecs, tvecs, cameraMatrix, distCoeffs, num.norm);
         && reprojErrs == PerViewErrors(req.objectPoints, e, num.sqrt)
         && totalAvgErr == PooledError(req.objectPoints, e, num.sqrt)
  {
    var initialCamera := Eye(3);
    if flags & FIX_ASPECT_RATIO != 0 {
      initialCamera := initialCamera[0 := initialCamera[0][0 := aspectRatio]];
    }
    var initialDist := Zeros(8, 1);

    var grid := CalcChessboardCorners(boardSize, squareSize, patternType);
    var objectPoints := seq(|imagePoints|, _ => grid);

    var req := SolverRequest(objectPoints, imagePoints, imageSize, initialCamera, initialDist,
                             flags | FIX_K4 | FIX_K5);
    assert req == SolverRequestFor(imagePoints, imageSize, boardSize, patternType,
                                   squareSize, aspectRatio, flags);
    var res := num.calibrate(req);
    cameraMatrix, distCoeffs, rvecs, tvecs := res.cameraMatrix, res.distCoeffs, res.rvecs, res.tvecs;

    ok := num.checkRange(cameraMatrix) && num.checkRange(distCoeffs);

    GridNonEmpty(boardSize, squareSize, patternType);
    totalAvgErr, reprojErrs := ComputeReprojectionErrors(objectPoints, imagePoints, rvecs, tvecs,
                                                        cameraMatrix, distCoeffs, num.norm, num.sqrt);
  }
}

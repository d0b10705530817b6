/** The calibration result file, modelled as the ordered list of entries the
    sample streams into it, and the image-list file it reads. */
module Record {
  import opened Wrappers
  import opened CalibFlags
  import opened Pattern
  import opened Reprojection
  import opened Calibration

  /** The fields of the result file, in the order the sample writes them. */
  datatype Key =
    | CalibrationTime | NFrames | ImageWidth | ImageHeight | BoardWidth | BoardHeight
    | SquareSize | AspectRatio | FlagsField | CameraMatrix | DistortionCoefficients
    | AvgReprojectionError | PerViewReprojectionErrors | ExtrinsicParameters | ImagePoints

  /** The name a field is stored under. */
  function KeyName(k: Key): string {
    match k
    case CalibrationTime => "calibration_time"
    case NFrames => "nframes"
    case ImageWidth => "image_width"
    case ImageHeight => "image_height"
    case BoardWidth => "board_width"
    case BoardHeight => "board_height"
    case SquareSize => "square_size"
    case AspectRatio => "aspectRatio"
    case FlagsField => "flags"
    case CameraMatrix => "camera_matrix"
    case DistortionCoefficients => "distortion_coefficients"
    case AvgReprojectionError => "avg_reprojection_error"
    case PerViewReprojectionErrors => "per_view_reprojection_errors"
    case ExtrinsicParameters => "extrinsic_parameters"
    case ImagePoints => "image_points"
  }

  /** Distinct fields are stored under distinct names, so looking a field up
      by its `Key` is looking it up by its name in the file. */
  lemma KeyNamesDistinct(a: Key, b: Key)
    ensures KeyName(a) == KeyName(b) <==> a == b
  {
  }

  datatype Value =
    | Text(text: string)
    | Int(intValue: int)
    | Real(realValue: real)
    | Matrix(rows: Mat)
    | PointMatrix(points: seq<seq<Point2>>)

  datatype Entry = Field(key: Key, value: Value) | Comment(text: string)

  /** Everything one save is given (the timestamp already formatted). */
  datatype SaveInput = SaveInput(
    timeText: string,
    imageSize: Size,
    boardSize: Size,
    squareSize: real,
    aspectRatio: real,
    flags: Flags,
    cameraMatrix: Mat,
    distCoeffs: Mat,
    rvecs: seq<Vec3>,
    tvecs: seq<Vec3>,
    reprojErrs: seq<real>,
    imagePoints: seq<seq<Point2>>,
    totalAvgErr: real)

  predicate WellShaped(p: SaveInput) {
    && (p.rvecs != [] && p.tvecs != [] ==> |p.tvecs| >= |p.rvecs|)
    && (forall i :: 0 <= i < |p.imagePoints| ==> |p.imagePoints[i]| == |p.imagePoints[0]|)
  }

  /** The comment naming the set flags, tokens in a fixed order. */
  function FlagsComment(flags: Flags): string {
    "flags: "
    + (if Has(flags, USE_INTRINSIC_GUESS) then "+use_intrinsic_guess" else "")
    + (if Has(flags, FIX_ASPECT_RATIO) then "+fix_aspectRatio" else "")
    + (if Has(flags, FIX_PRINCIPAL_POINT) then "+fix_principal_point" else "")
    + (if Has(flags, ZERO_TANGENT_DIST) then "+zero_tangent_dist" else "")
  }

  const EXTRINSICS_COMMENT: string := "a set of 6-tuples (rotation vector + translation vector) for each view"

  function Max(a: nat, b: nat): nat {
    if a >= b then a else b
  }

  /** One row of the extrinsics matrix: columns 0-2 the rotation, 3-5 the translation. */
  function ExtrinsicRow(r: Vec3, t: Vec3): seq<real> {
    [r.a, r.b, r.c, t.a, t.b, t.c]
  }

  function Components(v: Vec3): seq<real> {
    [v.a, v.b, v.c]
  }

  /** The extrinsics matrix: one row of six values per view, the rotation in
      columns 0-2 and the translation in columns 3-5. */
  function ExtrinsicRows(rvecs: seq<Vec3>, tvecs: seq<Vec3>): (m: Mat)
    requires |tvecs| >= |rvecs|
    ensures |m| == |rvecs|
  {
    seq(|rvecs|, i requires 0 <= i < |rvecs| => ExtrinsicRow(rvecs[i], tvecs[i]))
  }

  /** Row `i` of the extrinsics matrix has six values: rvec_i, then tvec_i. */
  lemma ExtrinsicLayout(rvecs: seq<Vec3>, tvecs: seq<Vec3>, i: int)
    requires |tvecs| >= |rvecs| && 0 <= i < |rvecs|
    ensures var row := ExtrinsicRows(rvecs, tvecs)[i];
      |row| == 6 && row[..3] == Components(rvecs[i]) && row[3..] == Components(tvecs[i])
  {
  }

  /** A vector stored as a one-column matrix. */
  function Column(v: seq<real>): (m: Mat)
    ensures |m| == |v|
  {
    seq(|v|, i requires 0 <= i < |v| => [v[i]])
  }

  /** The entry `e` when `c` holds, nothing otherwise. */
  function Opt(c: bool, e: Entry): seq<Entry> {
    if c then [e] else []
  }

  /** The entries of the result file, in the order they are written. */
  function CameraRecord(p: SaveInput): seq<Entry>
    requires WellShaped(p)
  {
    RecordHeader(p) + RecordIntrinsics(p) + RecordViews(p)
  }

  /** Time stamp, view count, image and board geometry. */
  function RecordHeader(p: SaveInput): seq<Entry> {
    [Field(CalibrationTime, Text(p.timeText))]
    + Opt(p.rvecs != [] || p.reprojErrs != [], Field(NFrames, Int(Max(|p.rvecs|, |p.reprojErrs|))))
    + [Field(ImageWidth, Int(p.imageSize.width))]
    + [Field(ImageHeight, Int(p.imageSize.height))]
    + [Field(BoardWidth, Int(p.boardSize.width))]
    + [Field(BoardHeight, Int(p.boardSize.height))]
    + [Field(SquareSize, Real(p.squareSize))]
  }

  /** Flags, intrinsics and the overall error. */
  function RecordIntrinsics(p: SaveInput): seq<Entry> {
    Opt(Has(p.flags, FIX_ASPECT_RATIO), Field(AspectRatio, Real(p.aspectRatio)))
    + Opt(p.flags != 0, Comment(FlagsComment(p.flags)))
    + [Field(FlagsField, Int(p.flags as int))]
    + [Field(CameraMatrix, Matrix(p.cameraMatrix))]
    + [Field(DistortionCoefficients, Matrix(p.distCoeffs))]
    + [Field(AvgReprojectionError, Real(p.totalAvgErr))]
  }

  /** The optional per-view data. */
  function RecordViews(p: SaveInput): seq<Entry>
    requires WellShaped(p)
  {
    Opt(p.reprojErrs != [], Field(PerViewReprojectionErrors, Matrix(Column(p.reprojErrs))))
    + Opt(p.rvecs != [] && p.tvecs != [], Comment(EXTRINSICS_COMMENT))
    + (if p.rvecs != [] && p.tvecs != [] then [Field(ExtrinsicParameters, Matrix(ExtrinsicRows(p.rvecs, p.tvecs)))] else [])
    + Opt(p.imagePoints != [], Field(ImagePoints, PointMatrix(p.imagePoints)))
  }

  /** The value stored under a key: the first field with that key. */
  function Lookup(entries: seq<Entry>, k: Key): Option<Value> {
    if entries == [] then None
    else if entries[0].Field? && entries[0].key == k then Some(entries[0].value)
    else Lookup(entries[1..], k)
  }

  /** `entries` holds no field with key `k`. */
  predicate Absent(entries: seq<Entry>, k: Key) {
    forall e :: e in entries ==> !(e.Field? && e.key == k)
  }

  /** Every field of `entries` with key `k` holds `v`, and there is one. */
  predicate HoldsOnly(entries: seq<Entry>, k: Key, v: Value) {
    && Field(k, v) in entries
    && forall e :: e in entries && e.Field? && e.key == k ==> e.value == v
  }

  lemma {:induction false} LookupAbsent(entries: seq<Entry>, k: Key)
    requires Absent(entries, k)
    ensures Lookup(entries, k) == None
  {
    if entries != [] {
      assert entries[0] in entries;
      assert forall e :: e in entries[1..] ==> e in entries;
      LookupAbsent(entries[1..], k);
    }
  }

  lemma {:induction false} LookupHolds(entries: seq<Entry>, k: Key, v: Value)
    requires HoldsOnly(entries, k, v)
    ensures Lookup(entries, k) == Some(v)
  {
    assert entries[0] in entries;
    if !(entries[0].Field? && entries[0].key == k) {
      assert forall e :: e in entries[1..] ==> e in entries;
      assert Field(k, v) in entries[1..] by {
        var i :| 0 <= i < |entries| && entries[i] == Field(k, v);
        assert i > 0 && entries[1..][i - 1] == Field(k, v);
      }
      LookupHolds(entries[1..], k, v);
    }
  }

  /** What the result file holds under each key, independent of the order of writing. */
  function FieldValue(p: SaveInput, k: Key): Option<Value>
    requires WellShaped(p)
  {
    match k
    case CalibrationTime => Some(Text(p.timeText))
    case NFrames =>
      if p.rvecs != [] || p.reprojErrs != [] then Some(Int(Max(|p.rvecs|, |p.reprojErrs|))) else None
    case ImageWidth => Some(Int(p.imageSize.width))
    case ImageHeight => Some(Int(p.imageSize.height))
    case BoardWidth => Some(Int(p.boardSize.width))
    case BoardHeight => Some(Int(p.boardSize.height))
    case SquareSize => Some(Real(p.squareSize))
    case AspectRatio => if Has(p.flags, FIX_ASPECT_RATIO) then Some(Real(p.aspectRatio)) else None
    case FlagsField => Some(Int(p.flags as int))
    case CameraMatrix => Some(Matrix(p.cameraMatrix))
    case DistortionCoefficients => Some(Matrix(p.distCoeffs))
    case AvgReprojectionError => Some(Real(p.totalAvgErr))
    case PerViewReprojectionErrors =>
      if p.reprojErrs != [] then Some(Matrix(Column(p.reprojErrs))) else None
    case ExtrinsicParameters =>
      if p.rvecs != [] && p.tvecs != [] then Some(Matrix(ExtrinsicRows(p.rvecs, p.tvecs))) else None
    case ImagePoints => if p.imagePoints != [] then Some(PointMatrix(p.imagePoints)) else None
  }

  /** A field the table prescribes is written. */
  lemma FieldWritten(p: SaveInput, k: Key)
    requires WellShaped(p)
    requires FieldValue(p, k).Some?
    ensures Field(k, FieldValue(p, k).value) in CameraRecord(p)
  {
  }

  /** Every field written holds the value the table prescribes for its key. */
  lemma FieldPrescribed(p: SaveInput, e: Entry)
    requires WellShaped(p)
    requires e in CameraRecord(p) && e.Field?
    ensures FieldValue(p, e.key) == Some(e.value)
  {
    assert e in RecordHeader(p) + RecordIntrinsics(p) || e in RecordViews(p);
    if e in RecordHeader(p) {
      HeaderPrescribed(p, e);
    } else if e in RecordIntrinsics(p) {
      IntrinsicsPrescribed(p, e);
    } else {
      ViewsPrescribed(p, e);
    }
  }

  lemma HeaderPrescribed(p: SaveInput, e: Entry)
    requires WellShaped(p)
    requires e in RecordHeader(p) && e.Field?
    ensures FieldValue(p, e.key) == Some(e.value)
  {
  }

  lemma IntrinsicsPrescribed(p: SaveInput, e: Entry)
    requires WellShaped(p)
    requires e in RecordIntrinsics(p) && e.Field?
    ensures FieldValue(p, e.key) == Some(e.value)
  {
  }

  lemma ViewsPrescribed(p: SaveInput, e: Entry)
    requires WellShaped(p)
    requires e in RecordViews(p) && e.Field?
    ensures FieldValue(p, e.key) == Some(e.value)
  {
  }

  /** Every key of the written record holds exactly the value the field table
      prescribes: `nframes` only when some extrinsics or per-view errors are
      given (with the larger of the two counts), `aspectRatio` only under
      FIX_ASPECT_RATIO, the optional matrices only when their data is given. */
  lemma RecordFields(p: SaveInput, k: Key)
    requires WellShaped(p)
    ensures Lookup(CameraRecord(p), k) == FieldValue(p, k)
  {
    var rec := CameraRecord(p);
    forall e | e in rec && e.Field? && e.key == k
      ensures FieldValue(p, k) == Some(e.value)
    {
      FieldPrescribed(p, e);
    }
    match FieldValue(p, k)
    case Some(v) =>
      FieldWritten(p, k);
      LookupHolds(rec, k, v);
    case None =>
      LookupAbsent(rec, k);
  }

  /** The record carries the flags comment exactly when some flag is set, the
      extrinsics comment exactly when extrinsics are written, and no other comment. */
  lemma RecordComments(p: SaveInput, c: string)
    requires WellShaped(p)
    ensures Comment(c) in CameraRecord(p) <==>
      || (p.flags != 0 && c == FlagsComment(p.flags))
      || (p.rvecs != [] && p.tvecs != [] && c == EXTRINSICS_COMMENT)
  {
    assert CameraRecord(p) == RecordHeader(p) + RecordIntrinsics(p) + RecordViews(p);
    HeaderComments(p, c);
    IntrinsicsComments(p, c);
    ViewsComments(p, c);
  }

  lemma HeaderComments(p: SaveInput, c: string)
    ensures Comment(c) !in RecordHeader(p)
  {
  }

  lemma IntrinsicsComments(p: SaveInput, c: string)
    ensures Comment(c) in RecordIntrinsics(p) <==> p.flags != 0 && c == FlagsComment(p.flags)
  {
  }

  lemma ViewsComments(p: SaveInput, c: string)
    requires WellShaped(p)
    ensures Comment(c) in RecordViews(p) <==> p.rvecs != [] && p.tvecs != [] && c == EXTRINSICS_COMMENT
  {
  }

  /** The caller's masking: extrinsics and per-view errors are passed only with
      `writeExtrinsics`, observed points only with `writePoints`. */
  function Masked(p: SaveInput, writeExtrinsics: bool, writePoints: bool): (q: SaveInput)
    requires WellShaped(p)
    ensures WellShaped(q)
  {
    p.(rvecs := if writeExtrinsics then p.rvecs else [],
       tvecs := if writeExtrinsics then p.tvecs else [],
       reprojErrs := if writeExtrinsics then p.reprojErrs else [],
       imagePoints := if writePoints then p.imagePoints else [])
  }

  /** Without `writeExtrinsics` the saved record has no `nframes`, no per-view
      errors and no extrinsics; without `writePoints` it has no image points.
      With `writeExtrinsics` and one pose and one error per view, `nframes` is
      the number of views and extrinsic row `i` is rvec_i followed by tvec_i. */
  lemma MaskedRecord(p: SaveInput, writeExtrinsics: bool, writePoints: bool)
    requires WellShaped(p)
    ensures var rec := CameraRecord(Masked(p, writeExtrinsics, writePoints));
      && (!writeExtrinsics ==>
            && Lookup(rec, NFrames) == None
            && Lookup(rec, PerViewReprojectionErrors) == None
            && Lookup(rec, ExtrinsicParameters) == None)
      && (!writePoints ==> Lookup(rec, ImagePoints) == None)
      && (writePoints && p.imagePoints != [] ==> Lookup(rec, ImagePoints) == Some(PointMatrix(p.imagePoints)))
      && (writeExtrinsics && p.rvecs != [] && |p.rvecs| == |p.tvecs| == |p.reprojErrs| ==>
            && Lookup(rec, NFrames) == Some(Int(|p.rvecs|))
            && Lookup(rec, ExtrinsicParameters) == Some(Matrix(ExtrinsicRows(p.rvecs, p.tvecs))))
  {
    var q := Masked(p, writeExtrinsics, writePoints);
    RecordFields(q, NFrames);
    RecordFields(q, PerViewReprojectionErrors);
    RecordFields(q, ExtrinsicParameters);
    RecordFields(q, ImagePoints);
  }

  /** Fills the extrinsics matrix row by row. */
  method ExtrinsicsMatrix(rvecs: seq<Vec3>, tvecs: seq<Vec3>) returns (bigmat: Mat)
    requires |tvecs| >= |rvecs|
    ensures bigmat == ExtrinsicRows(rvecs, tvecs)
  {
    bigmat := seq(|rvecs|, _ => seq(6, _ => 0.0));
    var i := 0;
    while i < |rvecs|
      invariant 0 <= i <= |rvecs| && |bigmat| == |rvecs|
      invariant forall k :: 0 <= k < i ==> bigmat[k] == ExtrinsicRow(rvecs[k], tvecs[k])
    {
      var r := rvecs[i];
      var t := tvecs[i];
      bigmat := bigmat[i := [r.a, r.b, r.c] + [t.a, t.b, t.c]];
      i := i + 1;
    }
  }

  /** Copies the observed points of every view into one row of the points matrix. */
  method ImagePointsMatrix(imagePoints: seq<seq<Point2>>) returns (imagePtMat: seq<seq<Point2>>)
    requires imagePoints != []
    requires forall i :: 0 <= i < |imagePoints| ==> |imagePoints[i]| == |imagePoints[0]|
    ensures imagePtMat == imagePoints
  {
    var cols := |imagePoints[0]|;
    imagePtMat := seq(|imagePoints|, _ => seq(cols, _ => Point2(0.0, 0.0)));
    var i := 0;
    while i < |imagePoints|
      invariant 0 <= i <= |imagePoints| && |imagePtMat| == |imagePoints|
      invariant forall k :: 0 <= k < i ==> imagePtMat[k] == imagePoints[k]
      invariant forall k :: i <= k < |imagePoints| ==> |imagePtMat[k]| == cols
    {
      imagePtMat := imagePtMat[i := imagePoints[i]];
      i := i + 1;
    }
  }

  /** Streams the fields of one calibration result, each under its condition. */
  method SaveCameraParams(p: SaveInput) returns (fs: seq<Entry>)
    requires WellShaped(p)
    ensures fs == CameraRecord(p)
  {
    var header := WriteHeader(p);
    var intrinsics := WriteIntrinsics(p);
    var views := WriteViews(p);
    fs := header + intrinsics + views;
  }

  method WriteHeader(p: SaveInput) returns (fs: seq<Entry>)
    ensures fs == RecordHeader(p)
  {
    fs := [Field(CalibrationTime, Text(p.timeText))];
    if p.rvecs != [] || p.reprojErrs != [] {
      fs := fs + [Field(NFrames, Int(Max(|p.rvecs|, |p.reprojErrs|)))];
    }
    fs := fs + [Field(ImageWidth, Int(p.imageSize.width))];
    fs := fs + [Field(ImageHeight, Int(p.imageSize.height))];
    fs := fs + [Field(BoardWidth, Int(p.boardSize.width))];
    fs := fs + [Field(BoardHeight, Int(p.boardSize.height))];
    fs := fs + [Field(SquareSize, Real(p.squareSize))];
  }

  method WriteIntrinsics(p: SaveInput) returns (fs: seq<Entry>)
    ensures fs == RecordIntrinsics(p)
  {
    fs := [];
    if p.flags & FIX_ASPECT_RATIO != 0 {
      fs := fs + [Field(AspectRatio, Real(p.aspectRatio))];
    }
    if p.flags != 0 {
      fs := fs + [Comment(FlagsComment(p.flags))];
    }
    fs := fs + [Field(FlagsField, Int(p.flags as int))];
    fs := fs + [Field(CameraMatrix, Matrix(p.cameraMatrix))];
    fs := fs + [Field(DistortionCoefficients, Matrix(p.distCoeffs))];
    fs := fs + [Field(AvgReprojectionError, Real(p.totalAvgErr))];
  }

  method WriteViews(p: SaveInput) returns (fs: seq<Entry>)
    requires WellShaped(p)
    ensures fs == RecordViews(p)
  {
    fs := [];
    if p.reprojErrs != [] {
      fs := fs + [Field(PerViewReprojectionErrors, Matrix(Column(p.reprojErrs)))];
    }
    if p.rvecs != [] && p.tvecs != [] {
      var bigmat := ExtrinsicsMatrix(p.rvecs, p.tvecs);
      fs := fs + [Comment(EXTRINSICS_COMMENT)];
      fs := fs + [Field(ExtrinsicParameters, Matrix(bigmat))];
    }
    if p.imagePoints != [] {
      var imagePtMat := ImagePointsMatrix(p.imagePoints);
      fs := fs + [Field(ImagePoints, PointMatrix(imagePtMat))];
    }
  }

  /** Runs one calibration attempt and, only when it is `ok`, saves the result
      with the caller's masking applied. */
  method RunAndSave(imagePoints: seq<seq<Point2>>, imageSize: Size, boardSize: Size,
                    patternType: PatternKind, squareSize: real, aspectRatio: real, flags: Flags,
                    writeExtrinsics: bool, writePoints: bool, timeText: string, num: Numerics)
    returns (ok: bool, cameraMatrix: Mat, distCoeffs: Mat, saved: Option<seq<Entry>>)
    requires |imagePoints| > 0 && boardSize.width > 0 && boardSize.height > 0
    requires forall i :: 0 <= i < |imagePoints| ==> |imagePoints[i]| == |imagePoints[0]|
    requires OnePosePerView(num.calibrate(SolverRequestFor(imagePoints, imageSize, boardSize,
               patternType, squareSize, aspectRatio, flags)), |imagePoints|)
    ensures var req := SolverRequestFor(imagePoints, imageSize, boardSize, patternType,
                                        squareSize, aspectRatio, flags);
      var res := num.calibrate(req);
      && ok == (num.checkRange(res.cameraMatrix) && num.checkRange(res.distCoeffs))
      && cameraMatrix == res.cameraMatrix && distCoeffs == res.distCoeffs
      && AllPositive(PointCounts(req.objectPoints))
      && var e := Residuals(req.objectPoints, imagePoints, res.rvecs, res.tvecs,
                            res.cameraMatrix, res.distCoeffs, num.norm);
         var full := SaveInput(timeText, imageSize, boardSize, squareSize, aspectRatio, flags,
                               res.cameraMatrix, res.distCoeffs, res.rvecs, res.tvecs,
                               PerViewErrors(req.objectPoints, e, num.sqrt), imagePoints,
                               PooledError(req.objectPoints, e, num.sqrt));
         && WellShaped(full)
         && saved == if ok then Some(CameraRecord(Masked(full, writeExtrinsics, writePoints))) else None
  {
    var rvecs, tvecs, reprojErrs, totalAvgErr;
    ok, cameraMatrix, distCoeffs, rvecs, tvecs, reprojErrs, totalAvgErr :=
      RunCalibration(imagePoints, imageSize, boardSize, patternType, squareSize, aspectRatio, flags, num);
    if ok {
      var record := SaveCameraParams(SaveInput(timeText, imageSize, boardSize, squareSize, aspectRatio,
        flags, cameraMatrix, distCoeffs,
        if writeExtrinsics then rvecs else [],
        if writeExtrinsics then tvecs else [],
        if writeExtrinsics then reprojErrs else [],
        if writePoints then imagePoints else [],
        totalAvgErr));
      saved := Some(record);
    } else {
      saved := None;
    }
  }

  /** The top-level node of a structured document, as far as the image list
      reader cares: a sequence of strings or anything else. */
  datatype FileNode = SeqNode(items: seq<string>) | OtherNode

  /** A structured document that could not be opened, or its first top-level node. */
  datatype Storage = Unopened | Document(firstTopLevel: FileNode)

  /** Reads the list of image names; the output list is emptied first and
      stays empty unless the document opens and its first node is a sequence. */
  method ReadStringList(fs: Storage) returns (ok: bool, l: seq<string>)
    ensures ok <==> fs.Document? && fs.firstTopLevel.SeqNode?
    ensures l == if ok then fs.firstTopLevel.items else []
  {
    l := [];
    if fs.Unopened? {
      return false, l;
    }
    var n := fs.firstTopLevel;
    if !n.SeqNode? {
      return false, l;
    }
    var it := 0;
    while it < |n.items|
      invariant 0 <= it <= |n.items|
      invariant l == n.items[..it]
    {
      l := l + [n.items[it]];
      it := it + 1;
    }
    assert n.items[..it] == n.items;
    ok := true;
  }
}

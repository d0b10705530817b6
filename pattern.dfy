/** The reference grid of a calibration pattern: the 3-D coordinates of its
    corners (or circle centres) on the z = 0 plane, in row-major order. */
module Pattern {

  datatype Point3 = Point3(x: real, y: real, z: real)
  datatype Point2 = Point2(x: real, y: real)

  datatype PatternKind = Chessboard | CirclesGrid | AsymmetricCirclesGrid

  /** A board or image size; the sample's `Size` holds two C ints. */
  datatype Size = Size(width: int, height: int)

  /** How many times a C loop `for (k = 0; k < n; k++)` runs. */
  function Count(n: int): nat {
    if n > 0 then n else 0
  }

  /** Chessboard corners and symmetric circle centres: one square apart. */
  function SquarePoint(squareSize: real, i: int, j: int): Point3 {
    Point3((j as real) * squareSize, (i as real) * squareSize, 0.0)
  }

  /** Asymmetric circle centres: every odd row shifted by half a cell (one
      square) to the right. */
  function StaggeredPoint(squareSize: real, i: int, j: int): Point3 {
    Point3(((2 * j + i % 2) as real) * squareSize, (i as real) * squareSize, 0.0)
  }

  /** The reference point at row `i`, column `j`. */
  function GridPoint(kind: PatternKind, squareSize: real, i: int, j: int): Point3 {
    match kind
    case AsymmetricCirclesGrid => StaggeredPoint(squareSize, i, j)
    case _ => SquarePoint(squareSize, i, j)
  }

  /** Row `i` of the grid: the points for columns 0 .. width-1. */
  function GridRow(kind: PatternKind, squareSize: real, width: int, i: int): seq<Point3> {
    seq(Count(width), j => GridPoint(kind, squareSize, i, j))
  }

  /** The first `n` rows of the grid, one after another. */
  function GridRows(kind: PatternKind, squareSize: real, width: int, n: nat): seq<Point3> {
    if n == 0 then [] else GridRows(kind, squareSize, width, n - 1) + GridRow(kind, squareSize, width, n - 1)
  }

  /** The whole reference grid of a board. */
  function ReferenceGrid(boardSize: Size, squareSize: real, kind: PatternKind): seq<Point3> {
    GridRows(kind, squareSize, boardSize.width, Count(boardSize.height))
  }

  /** Position of row `i`, column `j` in a row-major list of rows of `width` points. */
  function RowMajor(width: nat, i: nat, j: nat): nat {
    i * width + j
  }

  /** `a * w` grows with `a`. */
  lemma {:induction false} MulMonotone(a: nat, b: nat, w: nat)
    requires a <= b
    ensures a * w <= b * w
    decreases b - a
  {
    if a < b {
      MulMonotone(a, b - 1, w);
      assert b * w == (b - 1) * w + w;
    }
  }

  /** Index `i * w + j` of `m` rows of `w` points followed by one more row
      falls in the earlier rows when `i < m` and at column `j` of the new row
      when `i == m`. */
  lemma RowMajorAppend<T>(prev: seq<T>, row: seq<T>, w: nat, m: nat, i: nat, j: nat)
    requires |prev| == m * w && |row| == w && i <= m && j < w
    ensures RowMajor(w, i, j) < |prev + row|
    ensures i < m ==> RowMajor(w, i, j) < |prev|
    ensures (prev + row)[RowMajor(w, i, j)] == if i < m then prev[RowMajor(w, i, j)] else row[j]
  {
    if i < m {
      MulMonotone(i + 1, m, w);
      assert (i + 1) * w == i * w + w;
      assert RowMajor(w, i, j) < |prev|;
    } else {
      assert RowMajor(w, i, j) == |prev| + j;
    }
  }

  /** The first `n` rows hold exactly `n * width` points, point `i * width + j`
      being the one at row `i`, column `j`. */
  lemma {:induction false} GridRowsLayout(kind: PatternKind, squareSize: real, width: int, n: nat)
    ensures |GridRows(kind, squareSize, width, n)| == n * Count(width)
    ensures forall i: nat, j: nat | i < n && j < Count(width) ::
      && RowMajor(Count(width), i, j) < |GridRows(kind, squareSize, width, n)|
      && GridRows(kind, squareSize, width, n)[RowMajor(Count(width), i, j)] == GridPoint(kind, squareSize, i, j)
  {
    if n > 0 {
      var w := Count(width);
      GridRowsLayout(kind, squareSize, width, n - 1);
      var m := n - 1;
      var prev := GridRows(kind, squareSize, width, m);
      var row := GridRow(kind, squareSize, width, m);
      assert n * w == m * w + w;
      forall i: nat, j: nat | i < n && j < w
        ensures RowMajor(w, i, j) < |prev + row|
        ensures (prev + row)[RowMajor(w, i, j)] == GridPoint(kind, squareSize, i, j)
      {
        RowMajorAppend(prev, row, w, m, i, j);
      }
    }
  }

  /** The grid of a board with `height` rows and `width` columns has exactly
      `height * width` points, in row-major order: point `i * width + j` is
      `(j * s, i * s, 0)` for chessboards and symmetric circle grids and
      `((2j + i mod 2) * s, i * s, 0)` for asymmetric circle grids. */
  lemma GridLayout(boardSize: Size, squareSize: real, kind: PatternKind)
    ensures |ReferenceGrid(boardSize, squareSize, kind)| == Count(boardSize.height) * Count(boardSize.width)
    ensures forall i: nat, j: nat | i < Count(boardSize.height) && j < Count(boardSize.width) ::
      && RowMajor(Count(boardSize.width), i, j) < |ReferenceGrid(boardSize, squareSize, kind)|
      && ReferenceGrid(boardSize, squareSize, kind)[RowMajor(Count(boardSize.width), i, j)]
        == if kind == AsymmetricCirclesGrid
           then Point3(((2 * j + i % 2) as real) * squareSize, (i as real) * squareSize, 0.0)
           else Point3((j as real) * squareSize, (i as real) * squareSize, 0.0)
  {
    GridRowsLayout(kind, squareSize, boardSize.width, Count(boardSize.height));
    forall i: nat, j: nat | i < Count(boardSize.height) && j < Count(boardSize.width)
      ensures GridPoint(kind, squareSize, i, j)
        == if kind == AsymmetricCirclesGrid
           then Point3(((2 * j + i % 2) as real) * squareSize, (i as real) * squareSize, 0.0)
           else Point3((j as real) * squareSize, (i as real) * squareSize, 0.0)
    {
    }
  }

  /** In an asymmetric circle grid an odd row sits one square to the right of
      the even row above it. */
  lemma AsymmetricStagger(squareSize: real, k: nat, j: int)
    ensures GridPoint(AsymmetricCirclesGrid, squareSize, 2 * k + 1, j).x
         == GridPoint(AsymmetricCirclesGrid, squareSize, 2 * k, j).x + squareSize
  {
    assert (2 * k + 1) % 2 == 1 && (2 * k) % 2 == 0;
    assert ((2 * j + 1) as real) * squareSize == ((2 * j) as real) * squareSize + squareSize;
  }

  /** Builds the reference grid row by row, as the nested loops of the sample
      do, one loop nest per kind of pattern; whatever the output list held
      before is discarded. */
  method CalcChessboardCorners(boardSize: Size, squareSize: real, patternType: PatternKind)
    returns (corners: seq<Point3>)
    ensures corners == ReferenceGrid(boardSize, squareSize, patternType)
  {
    corners := [];
    match patternType {
      case Chessboard | CirclesGrid =>
        var i := 0;
        while i < boardSize.height
          invariant 0 <= i <= Count(boardSize.height)
          invariant corners == GridRows(patternType, squareSize, boardSize.width, i)
        {
          ghost var done := corners;
          ghost var row := GridRow(patternType, squareSize, boardSize.width, i);
          var j := 0;
          while j < boardSize.width
            invariant 0 <= j <= Count(boardSize.width) == |row|
            invariant corners == done + row[..j]
          {
            var p := SquarePoint(squareSize, i, j);
            assert p == row[j];
            assert row[..j + 1] == row[..j] + [p];
            corners := corners + [p];
            j := j + 1;
          }
          assert row[..j] == row;
          assert GridRows(patternType, squareSize, boardSize.width, i + 1) == done + row;
          i := i + 1;
        }
      case AsymmetricCirclesGrid =>
        var i := 0;
        while i < boardSize.height
          invariant 0 <= i <= Count(boardSize.height)
          invariant corners == GridRows(patternType, squareSize, boardSize.width, i)
        {
          ghost var done := corners;
          ghost var row := GridRow(patternType, squareSize, boardSize.width, i);
          var j := 0;
          while j < boardSize.width
            invariant 0 <= j <= Count(boardSize.width) == |row|
            invariant corners == done + row[..j]
          {
            var p := StaggeredPoint(squareSize, i, j);
            assert p == row[j];
            assert row[..j + 1] == row[..j] + [p];
            corners := corners + [p];
            j := j + 1;
          }
          assert row[..j] == row;
          assert GridRows(patternType, squareSize, boardSize.width, i + 1) == done + row;
          i := i + 1;
        }
    }
  }
}

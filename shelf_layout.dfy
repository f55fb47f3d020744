/**
 * The arithmetic ShelfObject::initialize uses to lay out the shelf: the four
 * vertical walls, the twelve bins built column by column between them, and the
 * five horizontal surfaces, all in the shelf's own frame (x into the shelf,
 * y across it from the right, z up). It is exact arithmetic on reals; the
 * parameters are the values initialize loads from the parameter server.
 */
module ShelfLayout {

  datatype Vec3 = Vec3(x: real, y: real, z: real)

  /** The two corners a RectangleObject is given: bottom right and top left. */
  datatype Box = Box(bottomRight: Vec3, topLeft: Vec3)

  datatype ShelfParams = ShelfParams(
    shelfWidth: real,
    shelfHeight: real,
    shelfDepth: real,
    shelfWallWidth: real,
    shelfInnerWallWidth: real,
    shelfSurfaceThickness: real,
    firstBinFromBottom: real,
    binRightWidth: real,
    binMiddleWidth: real,
    binLeftWidth: real,
    binShortHeight: real,
    binTallHeight: real,
    binDepth: real,
    numBins: int)

  /** Number of walls, of bin columns and of bin rows the shelf is built with. */
  const WALLS: nat := 4
  const COLUMNS: nat := 3
  const ROWS: nat := 4
  const SURFACES: nat := 5

  // ---------------------------------------------------------------------------
  // Bin names
  // ---------------------------------------------------------------------------

  /** Converting an integer to `char` keeps its low byte. */
  function ByteChar(v: int): (c: char)
    ensures c as int == v % 256
  {
    (v % 256) as char
  }

  /** Within the range of a signed char, different values give different characters. */
  lemma ByteCharInjective(a: int, b: int)
    requires -128 <= a < 128 && -128 <= b < 128
    requires ByteChar(a) == ByteChar(b)
    ensures a == b
  {
    assert a % 256 == b % 256;
    if a < 0 {
      assert a % 256 == a + 256;
    }
    if b < 0 {
      assert b % 256 == b + 256;
    }
  }

  /**
   * insertBinHelper names bin `binId` after the letter 65 + num_bins - id - 1,
   * so the lettering runs backwards. That value is a double converted to
   * `char`, which is defined only when it fits a (signed) char.
   */
  predicate LetterFits(numBins: int, binId: int)
  {
    -128 <= 65 + numBins - binId - 1 < 128
  }

  function BinName(numBins: int, binId: int): (name: string)
    requires LetterFits(numBins, binId)
    ensures |name| == 5 && name[..4] == "bin_"
    ensures name[4] as int == (65 + numBins - binId - 1) % 256
  {
    "bin_" + [ByteChar(65 + numBins - binId - 1)]
  }

  /** The name getBin(id) looks up: letter 64 + id, a size_t narrowed to `char`. */
  function GetBinName(binId: nat): (name: string)
    ensures |name| == 5 && name[..4] == "bin_"
    ensures name[4] as int == (64 + binId) % 256
  {
    "bin_" + [ByteChar(64 + binId)]
  }

  /** getBin(num_bins - id) asks for exactly the name the bin built with `id` got. */
  lemma GetBinFindsInsertedBin(numBins: int, binId: int)
    requires LetterFits(numBins, binId) && binId <= numBins
    ensures GetBinName(numBins - binId) == BinName(numBins, binId)
  {
  }

  /** Distinct ids whose letters fit a char name distinct bins. */
  lemma BinNamesDistinct(numBins: int, i: int, j: int)
    requires LetterFits(numBins, i) && LetterFits(numBins, j) && i != j
    ensures BinName(numBins, i) != BinName(numBins, j)
  {
    if BinName(numBins, i) == BinName(numBins, j) {
      assert BinName(numBins, i)[4] == BinName(numBins, j)[4];
      ByteCharInjective(65 + numBins - i - 1, 65 + numBins - j - 1);
    }
  }

  /** All twelve ids of the layout have letters that fit a char. */
  predicate LetteringFits(numBins: int)
  {
    forall id :: 0 <= id < COLUMNS * ROWS ==> LetterFits(numBins, id)
  }

  /** Names of the four bins of column `wallId`, bottom row first. */
  function ColumnNames(numBins: int, wallId: nat): (names: seq<string>)
    requires LetteringFits(numBins) && wallId < COLUMNS
    ensures |names| == ROWS
    ensures forall r :: 0 <= r < ROWS ==> names[r] == BinName(numBins, BinId(wallId, r))
  {
    seq(ROWS, r requires 0 <= r < ROWS => BinName(numBins, BinId(wallId, r)))
  }

  /** The four bins of a column have four different names. */
  lemma ColumnNamesDistinct(numBins: int, wallId: nat)
    requires LetteringFits(numBins) && wallId < COLUMNS
    ensures var names := ColumnNames(numBins, wallId);
      && names[0] != names[1] && names[0] != names[2] && names[0] != names[3]
      && names[1] != names[2] && names[1] != names[3] && names[2] != names[3]
  {
    forall r1, r2 | 0 <= r1 < r2 < ROWS
      ensures BinName(numBins, BinId(wallId, r1)) != BinName(numBins, BinId(wallId, r2))
    {
      BinNamesDistinct(numBins, BinId(wallId, r1), BinId(wallId, r2));
    }
  }

  /** A bin of one column is named like no bin of another column. */
  lemma ColumnNamesDisjoint(numBins: int, w1: nat, w2: nat, r: nat)
    requires LetteringFits(numBins) && w1 < COLUMNS && w2 < COLUMNS && w1 != w2 && r < ROWS
    ensures BinName(numBins, BinId(w1, r)) !in ColumnNames(numBins, w2)
  {
    forall r2 | 0 <= r2 < ROWS
      ensures BinName(numBins, BinId(w1, r)) != ColumnNames(numBins, w2)[r2]
    {
      BinNamesDistinct(numBins, BinId(w1, r), BinId(w2, r2));
    }
  }

  /** The names of all twelve bins, column by column. */
  function LayoutNames(numBins: int): (names: seq<string>)
    requires LetteringFits(numBins)
    ensures |names| == COLUMNS * ROWS
  {
    ColumnNames(numBins, 0) + ColumnNames(numBins, 1) + ColumnNames(numBins, 2)
  }

  function Min(a: nat, b: nat): nat
  {
    if a < b then a else b
  }

  /** Position ROWS * w + r of the layout's names holds column w, row r. */
  lemma LayoutNamesAt(numBins: int, w: nat, r: nat)
    requires LetteringFits(numBins) && w < COLUMNS && r < ROWS
    ensures LayoutNames(numBins)[ROWS * w + r] == BinName(numBins, BinId(w, r))
  {
    var c0, c1, c2 := ColumnNames(numBins, 0), ColumnNames(numBins, 1), ColumnNames(numBins, 2);
    assert LayoutNames(numBins) == c0 + c1 + c2;
  }

  /** The first w + 1 columns' names are the first w columns' followed by column w's. */
  lemma LayoutNamesPrefix(numBins: int, w: nat)
    requires LetteringFits(numBins) && w < COLUMNS
    ensures LayoutNames(numBins)[..ROWS * (w + 1)]
      == LayoutNames(numBins)[..ROWS * w] + ColumnNames(numBins, w)
  {
    var c0, c1, c2 := ColumnNames(numBins, 0), ColumnNames(numBins, 1), ColumnNames(numBins, 2);
    assert LayoutNames(numBins) == c0 + c1 + c2;
    if w == 0 {
      assert LayoutNames(numBins)[..ROWS] == c0;
    } else if w == 1 {
      assert LayoutNames(numBins)[..ROWS] == c0;
      assert LayoutNames(numBins)[..2 * ROWS] == c0 + c1;
    } else {
      assert LayoutNames(numBins)[..2 * ROWS] == c0 + c1;
      assert LayoutNames(numBins)[..3 * ROWS] == c0 + c1 + c2;
    }
  }

  /** With twelve bins the ids 0..11 are lettered L down to A. */
  lemma TwelveBinLetters(binId: int)
    requires 0 <= binId < 12
    ensures LetterFits(12, binId)
    ensures BinName(12, binId) == "bin_" + [('L' as int - binId) as char]
    ensures 'A' <= BinName(12, binId)[4] <= 'L'
  {
  }

  // ---------------------------------------------------------------------------
  // Walls and bin columns (the wall loop, wall_id = 0..3)
  // ---------------------------------------------------------------------------

  /** Walls 1 and 2 are inner walls; 0 and 3 are the outer ones. */
  function WallWidth(p: ShelfParams, wallId: nat): real
  {
    if wallId == 1 || wallId == 2 then p.shelfInnerWallWidth else p.shelfWallWidth
  }

  /** Width of the bin column to the left of wall `wallId`; wall 3 has none. */
  function ColumnWidth(p: ShelfParams, wallId: nat): real
  {
    if wallId == 0 then p.binRightWidth
    else if wallId == 1 then p.binMiddleWidth
    else if wallId == 2 then p.binLeftWidth
    else 0.0
  }

  /**
   * The loop variable previous_y at the start of iteration `wallId`: half the
   * outer wall width at first, then each step adds the current column's width
   * and the current wall's full width.
   */
  function PreviousY(p: ShelfParams, wallId: nat): real
    decreases wallId
  {
    if wallId == 0 then p.shelfWallWidth * 0.5
    else PreviousY(p, wallId - 1) + ColumnWidth(p, wallId - 1) + WallWidth(p, wallId - 1)
  }

  /** Wall `wallId` is centred on previous_y and spans the full depth and height. */
  function WallBox(p: ShelfParams, wallId: nat): Box
  {
    var half := WallWidth(p, wallId) * 0.5;
    Box(Vec3(0.0, PreviousY(p, wallId) - half, p.firstBinFromBottom),
        Vec3(p.shelfDepth, PreviousY(p, wallId) + half, p.shelfHeight))
  }

  /** The wall_y handed to insertBinHelper: the left face of wall `wallId`. */
  function ColumnY(p: ShelfParams, wallId: nat): real
  {
    WallBox(p, wallId).topLeft.y
  }

  // ---------------------------------------------------------------------------
  // Bin rows (one column, unrolled in the source) and surfaces (the surface loop)
  // ---------------------------------------------------------------------------

  /** Rows 1 and 2 are short, rows 0 and 3 tall. */
  function RowHeight(p: ShelfParams, row: nat): real
  {
    if row == 1 || row == 2 then p.binShortHeight else p.binTallHeight
  }

  /** bin_z of each row of a column, as the four insertBinHelper calls compute it. */
  function BinZ(p: ShelfParams, row: nat): real
    requires row < ROWS
  {
    if row == 0 then p.firstBinFromBottom
    else if row == 1 then p.firstBinFromBottom + p.binTallHeight
    else if row == 2 then p.firstBinFromBottom + p.binTallHeight + p.binShortHeight
    else p.firstBinFromBottom + p.binTallHeight + p.binShortHeight + p.binShortHeight
  }

  /** The corners insertBinHelper gives a bin. */
  function BinBox(p: ShelfParams, wallY: real, binZ: real, width: real, height: real): Box
  {
    Box(Vec3(0.0, wallY, binZ),
        Vec3(p.binDepth, wallY + width, binZ + height - p.shelfSurfaceThickness))
  }

  /** Bin id of column `wallId`, row `row`: the source uses wall_id + 0, 3, 6, 9. */
  function BinId(wallId: nat, row: nat): nat
  {
    wallId + 3 * row
  }

  /** The box of the bin in column `wallId`, row `row`. */
  function ExpectedBinBox(p: ShelfParams, wallId: nat, row: nat): Box
    requires row < ROWS
  {
    BinBox(p, ColumnY(p, wallId), BinZ(p, row), ColumnWidth(p, wallId), RowHeight(p, row))
  }

  /** The boxes of the four bins of a column, bottom row first. */
  function ColumnBoxes(p: ShelfParams, wallY: real, width: real): (boxes: seq<Box>)
    ensures |boxes| == ROWS
    ensures forall r :: 0 <= r < ROWS ==> boxes[r] == BinBox(p, wallY, BinZ(p, r), width, RowHeight(p, r))
  {
    seq(ROWS, r requires 0 <= r < ROWS => BinBox(p, wallY, BinZ(p, r), width, RowHeight(p, r)))
  }

  /**
   * A bin spans its column's width and its row's height less the surface
   * under the next row, and reaches bin_depth back from the shelf front.
   */
  lemma BinShape(p: ShelfParams, wallId: nat, row: nat)
    requires row < ROWS
    ensures var b := ExpectedBinBox(p, wallId, row);
      && b.bottomRight == Vec3(0.0, ColumnY(p, wallId), BinZ(p, row))
      && b.topLeft.x == p.binDepth
      && b.topLeft.y - b.bottomRight.y == ColumnWidth(p, wallId)
      && b.topLeft.z - b.bottomRight.z == RowHeight(p, row) - p.shelfSurfaceThickness
  {
  }

  /**
   * previous_z at the start of surface iteration `i`: the first bin's height
   * from the floor, then each step adds the row height.
   */
  function SurfaceZ(p: ShelfParams, i: nat): real
    decreases i
  {
    if i == 0 then p.firstBinFromBottom else SurfaceZ(p, i - 1) + RowHeight(p, i - 1)
  }

  // ---------------------------------------------------------------------------
  // The shelf parts the two loops append
  // ---------------------------------------------------------------------------

  /**
   * A wall is a RectangleObject with both corners set; a surface has its top
   * left corner and the height of its underside set (its bottom right x and y
   * keep the RectangleObject defaults, which are not part of this model).
   */
  datatype ShelfPart =
    | Wall(name: string, box: Box)
    | Surface(name: string, topLeft: Vec3, bottomZ: real)

  /** boost::lexical_cast of a one-digit index: the one decimal digit whose value is n. */
  function Digit(n: nat): (s: string)
    requires n < 10
    ensures |s| == 1 && '0' <= s[0] <= '9' && s[0] as int - '0' as int == n
  {
    [(48 + n) as char]
  }

  /** Different indices print differently. */
  lemma DigitsDistinct(m: nat, n: nat)
    requires m < 10 && n < 10 && m != n
    ensures Digit(m) != Digit(n)
  {
    assert Digit(m)[0] != Digit(n)[0];
  }

  function WallPart(p: ShelfParams, wallId: nat): ShelfPart
    requires wallId < WALLS
  {
    Wall("wall_" + Digit(wallId), WallBox(p, wallId))
  }

  /** Surface `i` has its top at previous_z and is shelf_surface_thickness deep. */
  function SurfacePart(p: ShelfParams, i: nat): ShelfPart
    requires i < SURFACES
  {
    Surface("surface_" + Digit(i), Vec3(p.shelfWidth, p.shelfDepth, SurfaceZ(p, i)),
            SurfaceZ(p, i) - p.shelfSurfaceThickness)
  }

  function WallParts(p: ShelfParams): seq<ShelfPart>
  {
    seq(WALLS, w requires 0 <= w < WALLS => WallPart(p, w))
  }

  function SurfaceParts(p: ShelfParams): seq<ShelfPart>
  {
    seq(SURFACES, i requires 0 <= i < SURFACES => SurfacePart(p, i))
  }

  // ---------------------------------------------------------------------------
  // Properties of the layout
  // ---------------------------------------------------------------------------

  /** Each column id and row id gives a distinct bin id in 0..11. */
  lemma {:induction false} BinIdsDistinct(w1: nat, r1: nat, w2: nat, r2: nat)
    requires w1 < COLUMNS && w2 < COLUMNS && r1 < ROWS && r2 < ROWS
    ensures BinId(w1, r1) < COLUMNS * ROWS
    ensures BinId(w1, r1) == BinId(w2, r2) <==> w1 == w2 && r1 == r2
  {
  }

  /** Every id 0..11 is the id of some column and row. */
  lemma BinIdsCover(id: nat)
    requires id < COLUMNS * ROWS
    ensures exists w: nat, r: nat :: w < COLUMNS && r < ROWS && BinId(w, r) == id
  {
    assert BinId(id % COLUMNS, id / COLUMNS) == id;
  }

  /** With twelve bins the layout's names are exactly bin_A to bin_L. */
  lemma TwelveBinNames(c: char)
    ensures LetteringFits(12)
    ensures 'A' <= c <= 'L' <==> "bin_" + [c] in LayoutNames(12)
  {
    forall id | 0 <= id < COLUMNS * ROWS ensures LetterFits(12, id) {
      TwelveBinLetters(id);
    }
    if 'A' <= c <= 'L' {
      var id := 'L' as int - c as int;
      BinIdsCover(id);
      var w: nat, r: nat :| w < COLUMNS && r < ROWS && BinId(w, r) == id;
      TwelveBinLetters(id);
      assert [('L' as int - id) as char] == [c];
      LayoutNamesAt(12, w, r);
    } else if "bin_" + [c] in LayoutNames(12) {
      var names := LayoutNames(12);
      var j :| 0 <= j < |names| && names[j] == "bin_" + [c];
      var w, r := j / ROWS, j % ROWS;
      LayoutNamesAt(12, w, r);
      TwelveBinLetters(BinId(w, r));
      assert false;
    }
  }

  /** The four walls get four different names, and so do the five surfaces. */
  lemma PartNamesDistinct(p: ShelfParams, i: nat, j: nat)
    requires i != j
    ensures i < WALLS && j < WALLS ==> WallPart(p, i).name != WallPart(p, j).name
    ensures i < SURFACES && j < SURFACES ==> SurfacePart(p, i).name != SurfacePart(p, j).name
  {
    if i < SURFACES && j < SURFACES {
      DigitsDistinct(i, j);
      assert SurfacePart(p, i).name[8..] == Digit(i);
      assert SurfacePart(p, j).name[8..] == Digit(j);
      if i < WALLS && j < WALLS {
        assert WallPart(p, i).name[5..] == Digit(i);
        assert WallPart(p, j).name[5..] == Digit(j);
      }
    }
  }

  /** Bins of one column stack with no gap: each row starts where the one below ends. */
  lemma RowsStack(p: ShelfParams, row: nat)
    requires row + 1 < ROWS
    ensures BinZ(p, row + 1) == BinZ(p, row) + RowHeight(p, row)
  {
  }

  /**
   * The two loops agree: every bin row starts on top of a surface, and a bin's
   * top is the underside of the next surface up.
   */
  lemma {:induction false} BinsSitBetweenSurfaces(p: ShelfParams, wallId: nat, row: nat)
    requires row < ROWS
    ensures ExpectedBinBox(p, wallId, row).bottomRight.z == SurfaceZ(p, row)
    ensures ExpectedBinBox(p, wallId, row).topLeft.z == SurfaceZ(p, row + 1) - p.shelfSurfaceThickness
  {
    assert SurfaceZ(p, 1) == p.firstBinFromBottom + p.binTallHeight;
    assert SurfaceZ(p, 2) == SurfaceZ(p, 1) + p.binShortHeight;
    assert SurfaceZ(p, 3) == SurfaceZ(p, 2) + p.binShortHeight;
    assert SurfaceZ(p, 4) == SurfaceZ(p, 3) + p.binTallHeight;
  }

  /** The top surface lies two tall and two short rows above the first. */
  lemma {:induction false} TopSurface(p: ShelfParams)
    ensures SurfaceZ(p, SURFACES - 1)
      == p.firstBinFromBottom + 2.0 * p.binTallHeight + 2.0 * p.binShortHeight
  {
    assert SurfaceZ(p, 2) == p.firstBinFromBottom + p.binTallHeight + p.binShortHeight;
  }

  /** Each column starts exactly at the left face of the wall to its right. */
  lemma ColumnStartsAtWall(p: ShelfParams, wallId: nat)
    ensures ColumnY(p, wallId) == PreviousY(p, wallId) + WallWidth(p, wallId) * 0.5
  {
  }

  /**
   * What lies between a column and the next wall: the gap is half the current
   * wall's width less half the next one's (negative: an overlap), so
   * the bins are flush with the walls on both sides only when the two walls
   * are equally wide, and columns never overlap each other.
   */
  lemma ColumnMeetsNextWall(p: ShelfParams, wallId: nat)
    ensures WallBox(p, wallId + 1).bottomRight.y - (ColumnY(p, wallId) + ColumnWidth(p, wallId))
      == (WallWidth(p, wallId) - WallWidth(p, wallId + 1)) * 0.5
    ensures ColumnY(p, wallId + 1) - (ColumnY(p, wallId) + ColumnWidth(p, wallId))
      == (WallWidth(p, wallId) + WallWidth(p, wallId + 1)) * 0.5
  {
  }

  /** The far face of the last wall is the total of all walls and all columns. */
  lemma {:induction false} ShelfSpan(p: ShelfParams)
    ensures WallBox(p, WALLS - 1).topLeft.y
      == 2.0 * p.shelfWallWidth + 2.0 * p.shelfInnerWallWidth
         + p.binRightWidth + p.binMiddleWidth + p.binLeftWidth
  {
    assert PreviousY(p, 1) == 1.5 * p.shelfWallWidth + p.binRightWidth;
    assert PreviousY(p, 2) == PreviousY(p, 1) + p.binMiddleWidth + p.shelfInnerWallWidth;
  }
}

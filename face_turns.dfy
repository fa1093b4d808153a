// The in-place face helpers of src/Cube.cpp: reading, writing and copying
// rows and columns of one face, and the quarter and half turns built from
// them. Each helper works on face `face` of a CubeFaceData array and touches
// no other face. The pure functions below give the value of a face after
// each helper, statement by statement, so overlapping copies read what the
// earlier statements have already written, as in the source.

module FaceTurns {
  import opened CubeDefs
  import opened CubeState

  datatype FaceRow = Upper | Middle | Lower
  datatype FaceCol = Left | Middle | Right

  function RowIndex(r: FaceRow): (y: nat)
    ensures y < 3
  {
    match r
    case Upper => 0
    case Middle => 1
    case Lower => 2
  }

  function ColIndex(c: FaceCol): (x: nat)
    ensures x < 3
  {
    match c
    case Left => 0
    case Middle => 1
    case Right => 2
  }

  /** A line of three cell indices. */
  type Line = l: seq<nat> | |l| == 3 && l[0] < 9 && l[1] < 9 && l[2] < 9
    witness [0, 1, 2]

  /** The cells of row y, left to right. */
  function RowCells(y: nat): Line
    requires y < 3
  {
    [CubeDimsToIdx(0, y), CubeDimsToIdx(1, y), CubeDimsToIdx(2, y)]
  }

  /** The cells of column x, top to bottom. */
  function ColCells(x: nat): Line
    requires x < 3
  {
    [CubeDimsToIdx(x, 0), CubeDimsToIdx(x, 1), CubeDimsToIdx(x, 2)]
  }

  /** The line as given, or read from its far end. */
  function Oriented(l: Line, reverse: bool): Line
  {
    if reverse then [l[2], l[1], l[0]] else l
  }

  /** The three stickers on a line, in the line's order. */
  function Read3(s: FaceCells, l: Line): seq<Color>
  {
    [s[l[0]], s[l[1]], s[l[2]]]
  }

  /** Writes three stickers onto a line, in the line's order. */
  function Write3(s: FaceCells, l: Line, v: seq<Color>): FaceCells
    requires |v| == 3
  {
    var s1 := s[l[0] := v[0]];
    var s2 := s1[l[1] := v[1]];
    s2[l[2] := v[2]]
  }

  /**
   * Three single-sticker copies, one after another: dst[k] receives what
   * src[k] holds once the earlier copies are done.
   */
  function Copy3(s: FaceCells, dst: Line, src: Line): FaceCells
  {
    var s1 := s[dst[0] := s[src[0]]];
    var s2 := s1[dst[1] := s1[src[1]]];
    s2[dst[2] := s2[src[2]]]
  }

  function RowRead(s: FaceCells, r: FaceRow, reverse: bool): seq<Color>
  {
    Read3(s, Oriented(RowCells(RowIndex(r)), reverse))
  }

  function RowWritten(s: FaceCells, r: FaceRow, reverse: bool, v: seq<Color>): FaceCells
    requires |v| == 3
  {
    Write3(s, Oriented(RowCells(RowIndex(r)), reverse), v)
  }

  function ColRead(s: FaceCells, c: FaceCol, reverse: bool): seq<Color>
  {
    Read3(s, Oriented(ColCells(ColIndex(c)), reverse))
  }

  function ColWritten(s: FaceCells, c: FaceCol, reverse: bool, v: seq<Color>): FaceCells
    requires |v| == 3
  {
    Write3(s, Oriented(ColCells(ColIndex(c)), reverse), v)
  }

  function RowCopied(s: FaceCells, src: FaceRow, dst: FaceRow, reverse: bool): FaceCells
  {
    Copy3(s, RowCells(RowIndex(dst)), Oriented(RowCells(RowIndex(src)), reverse))
  }

  function RowToColCopied(s: FaceCells, src: FaceRow, dst: FaceCol, reverse: bool): FaceCells
  {
    Copy3(s, ColCells(ColIndex(dst)), Oriented(RowCells(RowIndex(src)), reverse))
  }

  function ColCopied(s: FaceCells, src: FaceCol, dst: FaceCol, reverse: bool): FaceCells
  {
    Copy3(s, ColCells(ColIndex(dst)), Oriented(ColCells(ColIndex(src)), reverse))
  }

  function ColToRowCopied(s: FaceCells, src: FaceCol, dst: FaceRow, reverse: bool): FaceCells
  {
    Copy3(s, RowCells(RowIndex(dst)), Oriented(ColCells(ColIndex(src)), reverse))
  }

  // ---------------------------------------------------------------------
  // What the helpers mean

  /** Writing back what was read leaves a row as it was; reading what was written gives it back. */
  lemma RowRoundTrip(s: FaceCells, r: FaceRow, reverse: bool, v: seq<Color>)
    requires |v| == 3
    ensures RowWritten(s, r, reverse, RowRead(s, r, reverse)) == s
    ensures RowRead(RowWritten(s, r, reverse, v), r, reverse) == v
  {
  }

  /** Writing back what was read leaves a column as it was; reading what was written gives it back. */
  lemma ColRoundTrip(s: FaceCells, c: FaceCol, reverse: bool, v: seq<Color>)
    requires |v| == 3
    ensures ColWritten(s, c, reverse, ColRead(s, c, reverse)) == s
    ensures ColRead(ColWritten(s, c, reverse, v), c, reverse) == v
  {
  }

  /** Writing a row changes no sticker off that row. */
  lemma RowWrittenFrame(s: FaceCells, r: FaceRow, reverse: bool, v: seq<Color>, i: nat)
    requires |v| == 3 && i < 9 && i / 3 != RowIndex(r)
    ensures RowWritten(s, r, reverse, v)[i] == s[i]
  {
  }

  /**
   * Copying one row onto another puts the source row (reversed when asked)
   * on the destination row and leaves every other sticker alone.
   */
  lemma RowCopiedMeaning(s: FaceCells, src: FaceRow, dst: FaceRow, reverse: bool, i: nat)
    requires src != dst && i < 9
    ensures RowRead(RowCopied(s, src, dst, reverse), dst, false) == RowRead(s, src, reverse)
    ensures i / 3 != RowIndex(dst) ==> RowCopied(s, src, dst, reverse)[i] == s[i]
  {
  }

  /**
   * Copying one column onto another puts the source column (reversed when
   * asked) on the destination column and leaves every other sticker alone.
   */
  lemma ColCopiedMeaning(s: FaceCells, src: FaceCol, dst: FaceCol, reverse: bool, i: nat)
    requires src != dst && i < 9
    ensures ColRead(ColCopied(s, src, dst, reverse), dst, false) == ColRead(s, src, reverse)
    ensures i % 3 != ColIndex(dst) ==> ColCopied(s, src, dst, reverse)[i] == s[i]
  {
  }

  // ---------------------------------------------------------------------
  // Face turns as values

  /** The face turned a quarter clockwise: the sticker at (x, y) comes from (y, 2 - x). */
  function QuarterTurn(s: FaceCells): (r: FaceCells)
    ensures forall x, y :: 0 <= x < 3 && 0 <= y < 3 ==> r[CubeDimsToIdx(x, y)] == s[CubeDimsToIdx(y, 2 - x)]
  {
    [s[6], s[3], s[0], s[7], s[4], s[1], s[8], s[5], s[2]]
  }

  /** The face turned a quarter counter-clockwise: the sticker at (x, y) comes from (2 - y, x). */
  function QuarterTurnBack(s: FaceCells): (r: FaceCells)
    ensures forall x, y :: 0 <= x < 3 && 0 <= y < 3 ==> r[CubeDimsToIdx(x, y)] == s[CubeDimsToIdx(2 - y, x)]
  {
    [s[2], s[5], s[8], s[1], s[4], s[7], s[0], s[3], s[6]]
  }

  /** The face turned half way round: the sticker at (x, y) comes from (2 - x, 2 - y). */
  function HalfTurn(s: FaceCells): (r: FaceCells)
    ensures forall x, y :: 0 <= x < 3 && 0 <= y < 3 ==> r[CubeDimsToIdx(x, y)] == s[CubeDimsToIdx(2 - x, 2 - y)]
  {
    [s[8], s[7], s[6], s[5], s[4], s[3], s[2], s[1], s[0]]
  }

  /** The turns keep the centre, undo each other, and four quarter turns are no turn. */
  lemma TurnAlgebra(s: FaceCells)
    ensures QuarterTurn(s)[4] == s[4] && QuarterTurnBack(s)[4] == s[4] && HalfTurn(s)[4] == s[4]
    ensures QuarterTurnBack(QuarterTurn(s)) == s && QuarterTurn(QuarterTurnBack(s)) == s
    ensures QuarterTurn(QuarterTurn(s)) == HalfTurn(s) && HalfTurn(HalfTurn(s)) == s
    ensures QuarterTurn(QuarterTurn(QuarterTurn(QuarterTurn(s)))) == s
    ensures QuarterTurn(QuarterTurn(QuarterTurn(s))) == QuarterTurnBack(s)
  {
  }

  // The face layouts of tests/CubeStateTests.test.cpp.
  const Cw0: FaceCells := [Yellow, Red, Green, Green, Orange, Blue, Orange, Blue, White]
  const Cw1: FaceCells := [Orange, Green, Yellow, Blue, Orange, Red, White, Blue, Green]
  const Cw2: FaceCells := [White, Blue, Orange, Blue, Orange, Green, Green, Red, Yellow]
  const Cw3: FaceCells := [Green, Blue, White, Red, Orange, Blue, Yellow, Green, Orange]

  /** The turns take the test layouts through the cycles the tests expect of Up, UpPrime and Up2. */
  lemma TestLayoutCycles()
    ensures QuarterTurn(Cw0) == Cw1 && QuarterTurn(Cw1) == Cw2 && QuarterTurn(Cw2) == Cw3 && QuarterTurn(Cw3) == Cw0
    ensures QuarterTurnBack(Cw0) == Cw3 && QuarterTurnBack(Cw3) == Cw2 && QuarterTurnBack(Cw2) == Cw1 && QuarterTurnBack(Cw1) == Cw0
    ensures HalfTurn(Cw0) == Cw2 && HalfTurn(Cw2) == Cw0
  {
  }

  // ---------------------------------------------------------------------
  // The helpers, in place

  /** The two states agree on every face but `face`. */
  predicate SameExcept(after: CubeFaces, before: CubeFaces, face: Face)
  {
    forall g :: g != face ==> after[FaceIndex(g)] == before[FaceIndex(g)]
  }

  lemma SameExceptTrans(a: CubeFaces, b: CubeFaces, c: CubeFaces, face: Face)
    requires SameExcept(a, b, face) && SameExcept(b, c, face)
    ensures SameExcept(a, c, face)
  {
  }

  /** Writes one sticker of a face. */
  method WriteCell(faceData: array2<Color>, face: Face, i: nat, c: Color)
    requires IsFaceData(faceData) && i < 9
    modifies faceData
    ensures FaceOf(faceData, face) == old(FaceOf(faceData, face))[i := c]
    ensures SameExcept(FacesOf(faceData), old(FacesOf(faceData)), face)
  {
    faceData[FaceIndex(face), i] := c;
    forall g | g != face ensures FacesOf(faceData)[FaceIndex(g)] == old(FacesOf(faceData))[FaceIndex(g)] {
      FaceIndexInjective(g, face);
    }
  }

  /** Writes three stickers onto a line of a face, one statement per sticker. */
  method WriteLine(faceData: array2<Color>, face: Face, l: Line, first: Color, second: Color, third: Color)
    requires IsFaceData(faceData)
    modifies faceData
    ensures FaceOf(faceData, face) == Write3(old(FaceOf(faceData, face)), l, [first, second, third])
    ensures SameExcept(FacesOf(faceData), old(FacesOf(faceData)), face)
  {
    ghost var s0 := FacesOf(faceData);
    WriteCell(faceData, face, l[0], first);
    ghost var s1 := FacesOf(faceData);
    WriteCell(faceData, face, l[1], second);
    ghost var s2 := FacesOf(faceData);
    SameExceptTrans(s2, s1, s0, face);
    WriteCell(faceData, face, l[2], third);
    SameExceptTrans(FacesOf(faceData), s2, s0, face);
  }

  /** Copies three stickers within a face, one statement per sticker, each reading the face as the earlier ones left it. */
  method CopyLine(faceData: array2<Color>, face: Face, dst: Line, src: Line)
    requires IsFaceData(faceData)
    modifies faceData
    ensures FaceOf(faceData, face) == Copy3(old(FaceOf(faceData, face)), dst, src)
    ensures SameExcept(FacesOf(faceData), old(FacesOf(faceData)), face)
  {
    var f := FaceIndex(face);
    ghost var s0 := FacesOf(faceData);
    WriteCell(faceData, face, dst[0], faceData[f, src[0]]);
    ghost var s1 := FacesOf(faceData);
    WriteCell(faceData, face, dst[1], faceData[f, src[1]]);
    ghost var s2 := FacesOf(faceData);
    SameExceptTrans(s2, s1, s0, face);
    WriteCell(faceData, face, dst[2], faceData[f, src[2]]);
    SameExceptTrans(FacesOf(faceData), s2, s0, face);
  }

  method GetRowData(faceData: array2<Color>, face: Face, row: FaceRow, reverse: bool)
    returns (first: Color, second: Color, third: Color)
    requires IsFaceData(faceData)
    ensures [first, second, third] == RowRead(FaceOf(faceData, face), row, reverse)
  {
    var f, l := FaceIndex(face), Oriented(RowCells(RowIndex(row)), reverse);
    first, second, third := faceData[f, l[0]], faceData[f, l[1]], faceData[f, l[2]];
  }

  method SetRowData(faceData: array2<Color>, face: Face, row: FaceRow, reverse: bool,
                    first: Color, second: Color, third: Color)
    requires IsFaceData(faceData)
    modifies faceData
    ensures FaceOf(faceData, face) == RowWritten(old(FaceOf(faceData, face)), row, reverse, [first, second, third])
    ensures SameExcept(FacesOf(faceData), old(FacesOf(faceData)), face)
  {
    WriteLine(faceData, face, Oriented(RowCells(RowIndex(row)), reverse), first, second, third);
  }

  method GetColData(faceData: array2<Color>, face: Face, col: FaceCol, reverse: bool)
    returns (first: Color, second: Color, third: Color)
    requires IsFaceData(faceData)
    ensures [first, second, third] == ColRead(FaceOf(faceData, face), col, reverse)
  {
    var f, l := FaceIndex(face), Oriented(ColCells(ColIndex(col)), reverse);
    first, second, third := faceData[f, l[0]], faceData[f, l[1]], faceData[f, l[2]];
  }

  method SetColData(faceData: array2<Color>, face: Face, col: FaceCol, reverse: bool,
                    first: Color, second: Color, third: Color)
    requires IsFaceData(faceData)
    modifies faceData
    ensures FaceOf(faceData, face) == ColWritten(old(FaceOf(faceData, face)), col, reverse, [first, second, third])
    ensures SameExcept(FacesOf(faceData), old(FacesOf(faceData)), face)
  {
    WriteLine(faceData, face, Oriented(ColCells(ColIndex(col)), reverse), first, second, third);
  }

  method CopyRowToRow(faceData: array2<Color>, face: Face, srcRow: FaceRow, destRow: FaceRow, reverse: bool)
    requires IsFaceData(faceData) && srcRow != destRow
    modifies faceData
    ensures FaceOf(faceData, face) == RowCopied(old(FaceOf(faceData, face)), srcRow, destRow, reverse)
    ensures SameExcept(FacesOf(faceData), old(FacesOf(faceData)), face)
  {
    CopyLine(faceData, face, RowCells(RowIndex(destRow)), Oriented(RowCells(RowIndex(srcRow)), reverse));
  }

  method CopyRowToCol(faceData: array2<Color>, face: Face, srcRow: FaceRow, destCol: FaceCol, reverse: bool)
    requires IsFaceData(faceData)
    modifies faceData
    ensures FaceOf(faceData, face) == RowToColCopied(old(FaceOf(faceData, face)), srcRow, destCol, reverse)
    ensures SameExcept(FacesOf(faceData), old(FacesOf(faceData)), face)
  {
    CopyLine(faceData, face, ColCells(ColIndex(destCol)), Oriented(RowCells(RowIndex(srcRow)), reverse));
  }

  method CopyColToCol(faceData: array2<Color>, face: Face, srcCol: FaceCol, destCol: FaceCol, reverse: bool)
    requires IsFaceData(faceData) && srcCol != destCol
    modifies faceData
    ensures FaceOf(faceData, face) == ColCopied(old(FaceOf(faceData, face)), srcCol, destCol, reverse)
    ensures SameExcept(FacesOf(faceData), old(FacesOf(faceData)), face)
  {
    CopyLine(faceData, face, ColCells(ColIndex(destCol)), Oriented(ColCells(ColIndex(srcCol)), reverse));
  }

  method CopyColToRow(faceData: array2<Color>, face: Face, srcCol: FaceCol, destRow: FaceRow, reverse: bool)
    requires IsFaceData(faceData)
    modifies faceData
    ensures FaceOf(faceData, face) == ColToRowCopied(old(FaceOf(faceData, face)), srcCol, destRow, reverse)
    ensures SameExcept(FacesOf(faceData), old(FacesOf(faceData)), face)
  {
    CopyLine(faceData, face, RowCells(RowIndex(destRow)), Oriented(ColCells(ColIndex(srcCol)), reverse));
  }

  // ---------------------------------------------------------------------
  // Row and column swaps

  /** The face with two of its rows exchanged. */
  function RowsSwapped(s: FaceCells, a: FaceRow, b: FaceRow): (r: FaceCells)
    requires a != b
    ensures RowRead(r, a, false) == RowRead(s, b, false) && RowRead(r, b, false) == RowRead(s, a, false)
    ensures forall i :: 0 <= i < 9 && i / 3 != RowIndex(a) && i / 3 != RowIndex(b) ==> r[i] == s[i]
  {
    RowWritten(RowWritten(s, a, false, RowRead(s, b, false)), b, false, RowRead(s, a, false))
  }

  /** The face with two of its columns exchanged. */
  function ColsSwapped(s: FaceCells, a: FaceCol, b: FaceCol): (r: FaceCells)
    requires a != b
    ensures ColRead(r, a, false) == ColRead(s, b, false) && ColRead(r, b, false) == ColRead(s, a, false)
    ensures forall i :: 0 <= i < 9 && i % 3 != ColIndex(a) && i % 3 != ColIndex(b) ==> r[i] == s[i]
  {
    ColWritten(ColWritten(s, a, false, ColRead(s, b, false)), b, false, ColRead(s, a, false))
  }

  /** SwapRows saves the first row, copies the second onto it and writes the saved row back where it was. */
  lemma SwapRowsSteps(s: FaceCells, a: FaceRow, b: FaceRow)
    requires a != b
    ensures RowWritten(RowCopied(s, b, a, false), a, false, RowRead(s, a, false)) == s
  {
  }

  /** With the saved row written into the second row the two rows are exchanged. */
  lemma SwapRowsCorrectedSteps(s: FaceCells, a: FaceRow, b: FaceRow)
    requires a != b
    ensures RowWritten(RowCopied(s, b, a, false), b, false, RowRead(s, a, false)) == RowsSwapped(s, a, b)
  {
  }

  /** SwapRows leaves the test layout Cw0 as it is, although swapping its upper and lower rows changes it. */
  lemma SwapRowsMissesSwap()
    ensures RowsSwapped(Cw0, FaceRow.Upper, FaceRow.Lower) != Cw0
  {
    assert RowsSwapped(Cw0, FaceRow.Upper, FaceRow.Lower)[0] == Orange;
  }

  /**
   * SwapRows as written: the first row is saved, overwritten with the
   * second and then given back its saved stickers, so nothing changes.
   */
  method SwapRows(faceData: array2<Color>, face: Face, firstRow: FaceRow, secondRow: FaceRow)
    requires IsFaceData(faceData) && firstRow != secondRow
    modifies faceData
    ensures FacesOf(faceData) == old(FacesOf(faceData))
  {
    ghost var s0 := FacesOf(faceData);
    var firstTemp, secondTemp, thirdTemp := GetRowData(faceData, face, firstRow, false);
    CopyRowToRow(faceData, face, secondRow, firstRow, false);
    ghost var s1 := FacesOf(faceData);
    SetRowData(faceData, face, firstRow, false, firstTemp, secondTemp, thirdTemp);
    SameExceptTrans(FacesOf(faceData), s1, s0, face);
    SwapRowsSteps(s0[FaceIndex(face)], firstRow, secondRow);
    forall g ensures FacesOf(faceData)[FaceIndex(g)] == s0[FaceIndex(g)] {
      FaceIndexInjective(g, face);
    }
  }

  /** SwapRows with the saved row written into the second row, as its comment intends. */
  method SwapRowsCorrected(faceData: array2<Color>, face: Face, firstRow: FaceRow, secondRow: FaceRow)
    requires IsFaceData(faceData) && firstRow != secondRow
    modifies faceData
    ensures FaceOf(faceData, face) == RowsSwapped(old(FaceOf(faceData, face)), firstRow, secondRow)
    ensures SameExcept(FacesOf(faceData), old(FacesOf(faceData)), face)
  {
    ghost var s0 := FacesOf(faceData);
    var firstTemp, secondTemp, thirdTemp := GetRowData(faceData, face, firstRow, false);
    CopyRowToRow(faceData, face, secondRow, firstRow, false);
    ghost var s1 := FacesOf(faceData);
    SetRowData(faceData, face, secondRow, false, firstTemp, secondTemp, thirdTemp);
    SameExceptTrans(FacesOf(faceData), s1, s0, face);
    SwapRowsCorrectedSteps(s0[FaceIndex(face)], firstRow, secondRow);
  }

  /** What SwapCols does to a face: the first column receives the row whose index is that column's. */
  function SwapColsAsWritten(s: FaceCells, a: FaceCol, b: FaceCol): FaceCells
    requires a != b
  {
    ColWritten(ColCopied(s, b, a, false), a, false, Read3(s, RowCells(ColIndex(a))))
  }

  /** SwapCols leaves the second column alone and puts a row, not the first column, in the first column. */
  lemma SwapColsAsWrittenMeaning(s: FaceCells, a: FaceCol, b: FaceCol)
    requires a != b
    ensures ColRead(SwapColsAsWritten(s, a, b), a, false) == Read3(s, RowCells(ColIndex(a)))
    ensures ColRead(SwapColsAsWritten(s, a, b), b, false) == ColRead(s, b, false)
    ensures SwapColsAsWritten(s, FaceCol.Left, FaceCol.Right) == [s[0], s[1], s[2], s[1], s[4], s[5], s[2], s[7], s[8]]
  {
  }

  /** SwapCols on Cw0 does not exchange its left and right columns. */
  lemma SwapColsMissesSwap()
    ensures SwapColsAsWritten(Cw0, FaceCol.Left, FaceCol.Right) != ColsSwapped(Cw0, FaceCol.Left, FaceCol.Right)
  {
    assert SwapColsAsWritten(Cw0, FaceCol.Left, FaceCol.Right)[0] == Yellow;
    assert ColsSwapped(Cw0, FaceCol.Left, FaceCol.Right)[0] == Green;
  }

  /**
   * SwapCols as written: it saves the cells (0, c), (1, c), (2, c) of the
   * first column's index c, which form a row, copies the second column
   * onto the first and writes the saved row there.
   */
  method SwapCols(faceData: array2<Color>, face: Face, firstCol: FaceCol, secondCol: FaceCol)
    requires IsFaceData(faceData) && firstCol != secondCol
    modifies faceData
    ensures FaceOf(faceData, face) == SwapColsAsWritten(old(FaceOf(faceData, face)), firstCol, secondCol)
    ensures SameExcept(FacesOf(faceData), old(FacesOf(faceData)), face)
  {
    ghost var s0 := FacesOf(faceData);
    var x := ColIndex(firstCol);
    var firstTemp := faceData[FaceIndex(face), CubeDimsToIdx(0, x)];
    var secondTemp := faceData[FaceIndex(face), CubeDimsToIdx(1, x)];
    var thirdTemp := faceData[FaceIndex(face), CubeDimsToIdx(2, x)];
    assert [firstTemp, secondTemp, thirdTemp] == Read3(s0[FaceIndex(face)], RowCells(x));
    CopyColToCol(faceData, face, secondCol, firstCol, false);
    ghost var s1 := FacesOf(faceData);
    SetColData(faceData, face, firstCol, false, firstTemp, secondTemp, thirdTemp);
    SameExceptTrans(FacesOf(faceData), s1, s0, face);
  }

  /** With the saved column written into the second column the two columns are exchanged. */
  lemma SwapColsCorrectedSteps(s: FaceCells, a: FaceCol, b: FaceCol)
    requires a != b
    ensures ColWritten(ColCopied(s, b, a, false), b, false, ColRead(s, a, false)) == ColsSwapped(s, a, b)
  {
  }

  /** SwapCols saving the first column and writing it into the second. */
  method SwapColsCorrected(faceData: array2<Color>, face: Face, firstCol: FaceCol, secondCol: FaceCol)
    requires IsFaceData(faceData) && firstCol != secondCol
    modifies faceData
    ensures FaceOf(faceData, face) == ColsSwapped(old(FaceOf(faceData, face)), firstCol, secondCol)
    ensures SameExcept(FacesOf(faceData), old(FacesOf(faceData)), face)
  {
    ghost var s0 := FacesOf(faceData);
    var firstTemp, secondTemp, thirdTemp := GetColData(faceData, face, firstCol, false);
    CopyColToCol(faceData, face, secondCol, firstCol, false);
    ghost var s1 := FacesOf(faceData);
    SetColData(faceData, face, secondCol, false, firstTemp, secondTemp, thirdTemp);
    SameExceptTrans(FacesOf(faceData), s1, s0, face);
    SwapColsCorrectedSteps(s0[FaceIndex(face)], firstCol, secondCol);
  }

  // ---------------------------------------------------------------------
  // Face turns, in place

  /** The statements of RotateFaceClockwise, on values, make a quarter turn. */
  lemma ClockwiseSteps(s: FaceCells)
    ensures var s1 := ColToRowCopied(s, FaceCol.Left, FaceRow.Upper, true);
            var s2 := RowToColCopied(s1, FaceRow.Lower, FaceCol.Left, false);
            var s3 := ColToRowCopied(s2, FaceCol.Right, FaceRow.Lower, true);
            ColWritten(s3, FaceCol.Right, false, RowRead(s, FaceRow.Upper, false)) == QuarterTurn(s)
  {
  }

  /** Turns one face a quarter clockwise; the other faces stay put. */
  method RotateFaceClockwise(faceData: array2<Color>, face: Face)
    requires IsFaceData(faceData)
    modifies faceData
    ensures FaceOf(faceData, face) == QuarterTurn(old(FaceOf(faceData, face)))
    ensures SameExcept(FacesOf(faceData), old(FacesOf(faceData)), face)
  {
    ghost var s0 := FacesOf(faceData);
    var upperLeftCorner, upperMiddleEdge, upperRightCorner := GetRowData(faceData, face, FaceRow.Upper, false);
    CopyColToRow(faceData, face, FaceCol.Left, FaceRow.Upper, true);
    ghost var s1 := FacesOf(faceData);
    CopyRowToCol(faceData, face, FaceRow.Lower, FaceCol.Left, false);
    ghost var s2 := FacesOf(faceData);
    CopyColToRow(faceData, face, FaceCol.Right, FaceRow.Lower, true);
    ghost var s3 := FacesOf(faceData);
    SetColData(faceData, face, FaceCol.Right, false, upperLeftCorner, upperMiddleEdge, upperRightCorner);
    SameExceptTrans(s2, s1, s0, face);
    SameExceptTrans(s3, s2, s0, face);
    SameExceptTrans(FacesOf(faceData), s3, s0, face);
    ClockwiseSteps(s0[FaceIndex(face)]);
  }

  /** What RotateFaceCounterClockwise does to a face. */
  function QuarterTurnBackAsWritten(s: FaceCells): FaceCells
  {
    [s[2], s[1], s[0], s[3], s[4], s[7], s[2], s[3], s[2]]
  }

  /** The statements of RotateFaceCounterClockwise, on values. */
  lemma CounterClockwiseSteps(s: FaceCells)
    ensures var s1 := ColToRowCopied(s, FaceCol.Right, FaceRow.Upper, false);
            var s2 := RowToColCopied(s1, FaceRow.Lower, FaceCol.Right, true);
            var s3 := ColToRowCopied(s2, FaceCol.Left, FaceRow.Lower, false);
            RowWritten(s3, FaceRow.Upper, true, RowRead(s, FaceRow.Upper, false)) == QuarterTurnBackAsWritten(s)
  {
  }

  /** On the test layout Cw0 the source's counter-clockwise turn does not give Cw3, which UpPrime is expected to. */
  lemma CounterClockwiseMissesTest()
    ensures QuarterTurnBackAsWritten(Cw0) != Cw3
    ensures QuarterTurnBackAsWritten(Cw0) != QuarterTurnBack(Cw0)
  {
    assert QuarterTurnBackAsWritten(Cw0)[1] == Red;
    assert Cw3[1] == Blue;
  }

  /**
   * RotateFaceCounterClockwise as written: its third copy reads the corner
   * (0, 0) and, within the copy, the cell (0, 2) after earlier statements
   * have overwritten them, and its last step writes the saved row back
   * onto the upper row instead of the left column.
   */
  method RotateFaceCounterClockwise(faceData: array2<Color>, face: Face)
    requires IsFaceData(faceData)
    modifies faceData
    ensures FaceOf(faceData, face) == QuarterTurnBackAsWritten(old(FaceOf(faceData, face)))
    ensures SameExcept(FacesOf(faceData), old(FacesOf(faceData)), face)
  {
    ghost var s0 := FacesOf(faceData);
    var upperLeftCorner, upperMiddleEdge, upperRightCorner := GetRowData(faceData, face, FaceRow.Upper, false);
    CopyColToRow(faceData, face, FaceCol.Right, FaceRow.Upper, false);
    ghost var s1 := FacesOf(faceData);
    CopyRowToCol(faceData, face, FaceRow.Lower, FaceCol.Right, true);
    ghost var s2 := FacesOf(faceData);
    CopyColToRow(faceData, face, FaceCol.Left, FaceRow.Lower, false);
    ghost var s3 := FacesOf(faceData);
    SetRowData(faceData, face, FaceRow.Upper, true, upperLeftCorner, upperMiddleEdge, upperRightCorner);
    SameExceptTrans(s2, s1, s0, face);
    SameExceptTrans(s3, s2, s0, face);
    SameExceptTrans(FacesOf(faceData), s3, s0, face);
    CounterClockwiseSteps(s0[FaceIndex(face)]);
  }

  /** The statements of RotateFaceCounterClockwiseCorrected, on values, make a quarter turn back. */
  lemma CounterClockwiseCorrectedSteps(s: FaceCells)
    ensures var s1 := RowToColCopied(s, FaceRow.Upper, FaceCol.Left, true);
            var s2 := ColToRowCopied(s1, FaceCol.Right, FaceRow.Upper, false);
            var s3 := RowToColCopied(s2, FaceRow.Lower, FaceCol.Right, true);
            RowWritten(s3, FaceRow.Lower, false, ColRead(s, FaceCol.Left, false)) == QuarterTurnBack(s)
  {
  }

  /**
   * A counter-clockwise turn built from the same helpers: the left column
   * is saved, and the saved stickers end on the lower row, the line whose
   * corners the earlier copies disturbed.
   */
  method RotateFaceCounterClockwiseCorrected(faceData: array2<Color>, face: Face)
    requires IsFaceData(faceData)
    modifies faceData
    ensures FaceOf(faceData, face) == QuarterTurnBack(old(FaceOf(faceData, face)))
    ensures SameExcept(FacesOf(faceData), old(FacesOf(faceData)), face)
  {
    ghost var s0 := FacesOf(faceData);
    var upperLeftCorner, middleLeftEdge, lowerLeftCorner := GetColData(faceData, face, FaceCol.Left, false);
    CopyRowToCol(faceData, face, FaceRow.Upper, FaceCol.Left, true);
    ghost var s1 := FacesOf(faceData);
    CopyColToRow(faceData, face, FaceCol.Right, FaceRow.Upper, false);
    ghost var s2 := FacesOf(faceData);
    CopyRowToCol(faceData, face, FaceRow.Lower, FaceCol.Right, true);
    ghost var s3 := FacesOf(faceData);
    SetRowData(faceData, face, FaceRow.Lower, false, upperLeftCorner, middleLeftEdge, lowerLeftCorner);
    SameExceptTrans(s2, s1, s0, face);
    SameExceptTrans(s3, s2, s0, face);
    SameExceptTrans(FacesOf(faceData), s3, s0, face);
    CounterClockwiseCorrectedSteps(s0[FaceIndex(face)]);
  }

  /** What RotateFaceTwice does to a face: SwapCols as written, then the no-op SwapRows. */
  function HalfTurnAsWritten(s: FaceCells): FaceCells
  {
    [s[0], s[1], s[2], s[1], s[4], s[5], s[2], s[7], s[8]]
  }

  /** On the test layout Cw0 the source's half turn does not give Cw2, which Up2 is expected to. */
  lemma HalfTurnMissesTest()
    ensures HalfTurnAsWritten(Cw0) != Cw2
    ensures HalfTurnAsWritten(Cw0) != HalfTurn(Cw0)
  {
    assert HalfTurnAsWritten(Cw0)[0] == Yellow;
    assert Cw2[0] == White;
  }

  /** RotateFaceTwice as written: the swaps it relies on do not swap. */
  method RotateFaceTwice(faceData: array2<Color>, face: Face)
    requires IsFaceData(faceData)
    modifies faceData
    ensures FaceOf(faceData, face) == HalfTurnAsWritten(old(FaceOf(faceData, face)))
    ensures SameExcept(FacesOf(faceData), old(FacesOf(faceData)), face)
  {
    ghost var s0 := FacesOf(faceData);
    SwapCols(faceData, face, FaceCol.Left, FaceCol.Right);
    SwapColsAsWrittenMeaning(s0[FaceIndex(face)], FaceCol.Left, FaceCol.Right);
    SwapRows(faceData, face, FaceRow.Upper, FaceRow.Lower);
  }

  /** Exchanging the outer columns and then the outer rows is a half turn. */
  lemma SwapsMakeHalfTurn(s: FaceCells)
    ensures RowsSwapped(ColsSwapped(s, FaceCol.Left, FaceCol.Right), FaceRow.Upper, FaceRow.Lower) == HalfTurn(s)
  {
  }

  /** RotateFaceTwice with both swaps corrected: a half turn, which is two quarter turns. */
  method RotateFaceTwiceCorrected(faceData: array2<Color>, face: Face)
    requires IsFaceData(faceData)
    modifies faceData
    ensures FaceOf(faceData, face) == HalfTurn(old(FaceOf(faceData, face)))
    ensures SameExcept(FacesOf(faceData), old(FacesOf(faceData)), face)
  {
    ghost var s0 := FacesOf(faceData);
    SwapColsCorrected(faceData, face, FaceCol.Left, FaceCol.Right);
    ghost var s1 := FacesOf(faceData);
    SwapRowsCorrected(faceData, face, FaceRow.Upper, FaceRow.Lower);
    SameExceptTrans(FacesOf(faceData), s1, s0, face);
    SwapsMakeHalfTurn(s0[FaceIndex(face)]);
  }
}

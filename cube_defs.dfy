// Colours, faces, moves and the cell indexing scheme of a 3x3x3 cube
// (include/Cube.hpp), together with the value view of a whole cube state
// that the rest of the model reasons about.

module CubeDefs {

  datatype Option<T> = None | Some(value: T)

  /** Edge length of the cube. */
  const CubeSize: int := 3

  /** The six sticker colours, in the order of eCubeColor. */
  datatype Color = Yellow | White | Red | Orange | Green | Blue

  /** The six faces, in the order of eCubeFace. */
  datatype Face = Top | Bottom | Left | Right | Front | Back

  /**
   * Every move of eCubeMove, in declaration order: face turns, wide turns,
   * slice turns and whole-cube rotations. NumMoves is the enum's sentinel;
   * the solver pushes it when it is handed a face it has no move for.
   */
  datatype Move =
    | Up | UpPrime | Up2 | Down | DownPrime | Down2
    | Right | RightPrime | Right2 | Left | LeftPrime | Left2
    | Front | FrontPrime | Front2 | Back | BackPrime | Back2
    | UpWide | UpWidePrime | UpWide2 | DownWide | DownWidePrime | DownWide2
    | RightWide | RightWidePrime | RightWide2 | LeftWide | LeftWidePrime | LeftWide2
    | FrontWide | FrontWidePrime | FrontWide2 | BackWide | BackWidePrime | BackWide2
    | Middle | MiddlePrime | Middle2 | Equator | EquatorPrime | Equator2
    | Standing | StandingPrime | Standing2
    | X | XPrime | X2 | Y | YPrime | Y2 | Z | ZPrime | Z2
    | NumMoves

  /** The integer value of a face (EnumToInt). */
  function FaceIndex(f: Face): (i: nat)
    ensures i < 6
  {
    match f
    case Top => 0
    case Bottom => 1
    case Left => 2
    case Right => 3
    case Front => 4
    case Back => 5
  }

  /** The face with a given integer value (static_cast<eCubeFace>). */
  function FaceAt(i: nat): (f: Face)
    requires i < 6
    ensures FaceIndex(f) == i
  {
    if i == 0 then Face.Top
    else if i == 1 then Face.Bottom
    else if i == 2 then Face.Left
    else if i == 3 then Face.Right
    else if i == 4 then Face.Front
    else Face.Back
  }

  /** The integer value of a colour (EnumToInt). */
  function ColorIndex(c: Color): (i: nat)
    ensures i < 6
  {
    match c
    case Yellow => 0
    case White => 1
    case Red => 2
    case Orange => 3
    case Green => 4
    case Blue => 5
  }

  /** The colour with a given integer value (static_cast<eCubeColor>). */
  function ColorAt(i: nat): (c: Color)
    requires i < 6
    ensures ColorIndex(c) == i
  {
    if i == 0 then Yellow
    else if i == 1 then White
    else if i == 2 then Red
    else if i == 3 then Orange
    else if i == 4 then Green
    else Blue
  }

  lemma FaceIndexInjective(f: Face, g: Face)
    ensures FaceIndex(f) == FaceIndex(g) ==> f == g
  {
  }

  /** The face a colour sits on in the solved cube: a cast that keeps the index. */
  function DefaultFaceOfColor(c: Color): (f: Face)
    ensures FaceIndex(f) == ColorIndex(c)
  {
    FaceAt(ColorIndex(c))
  }

  /** The colour of a face in the solved cube: a cast that keeps the index. */
  function DefaultColorOfFace(f: Face): (c: Color)
    ensures ColorIndex(c) == FaceIndex(f)
  {
    ColorAt(FaceIndex(f))
  }

  /** The two default casts are inverse bijections. */
  lemma DefaultCastsInverse(c: Color, f: Face)
    ensures DefaultColorOfFace(DefaultFaceOfColor(c)) == c
    ensures DefaultFaceOfColor(DefaultColorOfFace(f)) == f
    ensures DefaultFaceOfColor(c) == f <==> DefaultColorOfFace(f) == c
  {
    match c
    case Yellow =>
    case White =>
    case Red =>
    case Orange =>
    case Green =>
    case Blue =>
  }

  /** The solved colour scheme: yellow on top, white below, red left, orange right, green front, blue back. */
  lemma DefaultColorScheme()
    ensures DefaultColorOfFace(Face.Top) == Yellow && DefaultColorOfFace(Face.Bottom) == White
    ensures DefaultColorOfFace(Face.Left) == Red && DefaultColorOfFace(Face.Right) == Orange
    ensures DefaultColorOfFace(Face.Front) == Green && DefaultColorOfFace(Face.Back) == Blue
  {
  }

  /** Row-major index of the cell in column x and row y of a face. */
  function CubeDimsToIdx(x: int, y: int): (i: int)
    ensures 0 <= x < CubeSize && 0 <= y < CubeSize ==>
              0 <= i < CubeSize * CubeSize && i % CubeSize == x && i / CubeSize == y
  {
    y * CubeSize + x
  }

  /** The index map is a bijection between the 3x3 coordinates and the nine cells. */
  lemma CubeDimsToIdxBijective()
    ensures forall i :: 0 <= i < 9 ==> CubeDimsToIdx(i % 3, i / 3) == i
    ensures forall x1, y1, x2, y2 ::
              (0 <= x1 < 3 && 0 <= y1 < 3 && 0 <= x2 < 3 && 0 <= y2 < 3 &&
               CubeDimsToIdx(x1, y1) == CubeDimsToIdx(x2, y2)) ==> x1 == x2 && y1 == y2
  {
    forall x1, y1, x2, y2 |
      0 <= x1 < 3 && 0 <= y1 < 3 && 0 <= x2 < 3 && 0 <= y2 < 3 &&
      CubeDimsToIdx(x1, y1) == CubeDimsToIdx(x2, y2)
      ensures x1 == x2 && y1 == y2
    {
      var i := CubeDimsToIdx(x1, y1);
      assert i % 3 == x1 && i / 3 == y1;
      assert i % 3 == x2 && i / 3 == y2;
    }
  }

  /** The nine stickers of one face (SingleCubeFace), row-major. */
  type FaceCells = s: seq<Color> | |s| == 9
    witness [Yellow, Yellow, Yellow, Yellow, Yellow, Yellow, Yellow, Yellow, Yellow]

  /** The six faces of a cube (CubeFaceData), indexed by FaceIndex. */
  type CubeFaces = s: seq<FaceCells> | |s| == 6
    witness [SolidFace(Yellow), SolidFace(White), SolidFace(Red),
             SolidFace(Orange), SolidFace(Green), SolidFace(Blue)]

  /** A face whose nine stickers all have colour c. */
  function SolidFace(c: Color): (s: FaceCells)
    ensures forall i :: 0 <= i < 9 ==> s[i] == c
  {
    [c, c, c, c, c, c, c, c, c]
  }

  /** The sticker at column x, row y of face f. */
  function Cell(s: CubeFaces, f: Face, x: int, y: int): Color
    requires 0 <= x < CubeSize && 0 <= y < CubeSize
  {
    s[FaceIndex(f)][CubeDimsToIdx(x, y)]
  }

  /** The centre sticker of face f, which names the face's colour. */
  function CenterOf(s: CubeFaces, f: Face): Color
  {
    Cell(s, f, CubeSize / 2, CubeSize / 2)
  }

  /** The solved cube: every face carries its default colour. */
  function SolvedFaces(): (s: CubeFaces)
    ensures forall f, x, y :: 0 <= x < 3 && 0 <= y < 3 ==> Cell(s, f, x, y) == DefaultColorOfFace(f)
  {
    [SolidFace(Yellow), SolidFace(White), SolidFace(Red),
     SolidFace(Orange), SolidFace(Green), SolidFace(Blue)]
  }

  /**
   * The face whose centre has colour c, scanning faces in enum order from
   * index i; when no face from i on has that centre, the default face of c.
   */
  function FaceOfColorFrom(s: CubeFaces, c: Color, i: nat): Face
    requires i <= 6
    decreases 6 - i
  {
    if i == 6 then DefaultFaceOfColor(c)
    else if CenterOf(s, FaceAt(i)) == c then FaceAt(i)
    else FaceOfColorFrom(s, c, i + 1)
  }

  /** FaceOfColorFrom finds the first face (in enum order, from i) whose centre is c. */
  lemma {:induction false} FaceOfColorFromFirst(s: CubeFaces, c: Color, i: nat)
    requires i <= 6
    ensures var f := FaceOfColorFrom(s, c, i);
      if exists g :: FaceIndex(g) >= i && CenterOf(s, g) == c then
        FaceIndex(f) >= i && CenterOf(s, f) == c &&
        forall g :: i <= FaceIndex(g) < FaceIndex(f) ==> CenterOf(s, g) != c
      else f == DefaultFaceOfColor(c)
    decreases 6 - i
  {
    if i < 6 {
      FaceOfColorFromFirst(s, c, i + 1);
      forall g ensures FaceIndex(g) == i ==> g == FaceAt(i) {
        FaceIndexInjective(g, FaceAt(i));
      }
    } else {
      assert forall g :: FaceIndex(g) < 6;
    }
  }

  /** In the solved cube every colour is found on its default face. */
  lemma SolvedFaceOfColor(c: Color)
    ensures FaceOfColorFrom(SolvedFaces(), c, 0) == DefaultFaceOfColor(c)
  {
    var s := SolvedFaces();
    FaceOfColorFromFirst(s, c, 0);
    var f := DefaultFaceOfColor(c);
    assert CenterOf(s, f) == c by { DefaultCastsInverse(c, f); }
    var g := FaceOfColorFrom(s, c, 0);
    assert CenterOf(s, g) == c;
    assert CenterOf(s, g) == DefaultColorOfFace(g);
    DefaultCastsInverse(c, g);
  }
}

// The lookup tables of src/CfopSolver.cpp that say how the stickers of a
// cube hang together: opposite faces, the two stickers of an edge, the three
// stickers of a corner, and where edges and corners sit on a face.

module Geometry {
  import opened CubeDefs
  import opened FaceTurns

  /** The four edge stickers of a face (eFaceEdgePos, without its sentinel). */
  datatype EdgePos = TopEdge | LeftEdge | RightEdge | BottomEdge

  /** The four corner stickers of a face. */
  datatype CornerPos = TopLeft | TopRight | BottomLeft | BottomRight

  datatype Axis = XAxis | YAxis | ZAxis

  /**
   * The three stickers of one corner piece: the one on the top or bottom
   * face (Y), the one on the left or right face (X) and the one on the
   * front or back face (Z).
   */
  datatype CornerDescriptor = CornerDescriptor(
    faceY: Face, cornerY: CornerPos,
    faceX: Face, cornerX: CornerPos,
    faceZ: Face, cornerZ: CornerPos)

  /** The other sticker of an edge piece. */
  datatype FaceEdge = FaceEdge(face: Face, edge: EdgePos)

  /** The edge position with a given integer value (static_cast<eFaceEdgePos>). */
  function EdgeAt(i: nat): (e: EdgePos)
    requires i < 4
    ensures EdgeIndex(e) == i
  {
    if i == 0 then TopEdge else if i == 1 then LeftEdge else if i == 2 then RightEdge else BottomEdge
  }

  function EdgeIndex(e: EdgePos): (i: nat)
    ensures i < 4
  {
    match e
    case TopEdge => 0
    case LeftEdge => 1
    case RightEdge => 2
    case BottomEdge => 3
  }

  predicate IsSideFace(f: Face)
  {
    f != Face.Top && f != Face.Bottom
  }

  function GetOppositeFace(face: Face): Face
  {
    match face
    case Front => Face.Back
    case Back => Face.Front
    case Left => Face.Right
    case Right => Face.Left
    case Top => Face.Bottom
    case Bottom => Face.Top
  }

  /** Opposite faces pair up: no face is its own opposite, and the opposite of the opposite is the face. */
  lemma OppositeFaceInvolution(face: Face)
    ensures GetOppositeFace(face) != face
    ensures GetOppositeFace(GetOppositeFace(face)) == face
    ensures IsSideFace(face) <==> IsSideFace(GetOppositeFace(face))
  {
  }

  /** The corner piece that has the given sticker. */
  function GetCornerDescriptor(face: Face, corner: CornerPos): CornerDescriptor
  {
    match face
    case Front =>
      (match corner
       case TopLeft => CornerDescriptor(Face.Top, BottomLeft, Face.Left, TopRight, face, corner)
       case TopRight => CornerDescriptor(Face.Top, BottomRight, Face.Right, TopLeft, face, corner)
       case BottomLeft => CornerDescriptor(Face.Bottom, TopLeft, Face.Left, BottomRight, face, corner)
       case BottomRight => CornerDescriptor(Face.Bottom, TopRight, Face.Right, BottomLeft, face, corner))
    case Back =>
      (match corner
       case TopLeft => CornerDescriptor(Face.Top, TopRight, Face.Right, TopRight, face, corner)
       case TopRight => CornerDescriptor(Face.Top, TopLeft, Face.Left, TopLeft, face, corner)
       case BottomLeft => CornerDescriptor(Face.Bottom, BottomRight, Face.Right, BottomRight, face, corner)
       case BottomRight => CornerDescriptor(Face.Bottom, BottomLeft, Face.Left, BottomLeft, face, corner))
    case Left =>
      (match corner
       case TopLeft => CornerDescriptor(Face.Top, TopLeft, face, corner, Face.Back, TopRight)
       case TopRight => CornerDescriptor(Face.Top, BottomLeft, face, corner, Face.Front, TopLeft)
       case BottomLeft => CornerDescriptor(Face.Bottom, BottomLeft, face, corner, Face.Back, BottomRight)
       case BottomRight => CornerDescriptor(Face.Bottom, TopLeft, face, corner, Face.Front, BottomLeft))
    case Right =>
      (match corner
       case TopLeft => CornerDescriptor(Face.Top, BottomRight, face, corner, Face.Front, TopRight)
       case TopRight => CornerDescriptor(Face.Top, TopRight, face, corner, Face.Back, TopLeft)
       case BottomLeft => CornerDescriptor(Face.Bottom, TopRight, face, corner, Face.Front, BottomRight)
       case BottomRight => CornerDescriptor(Face.Bottom, BottomRight, face, corner, Face.Back, BottomLeft))
    case Top =>
      (match corner
       case TopLeft => CornerDescriptor(face, corner, Face.Left, TopLeft, Face.Back, TopRight)
       case TopRight => CornerDescriptor(face, corner, Face.Right, TopRight, Face.Back, TopLeft)
       case BottomLeft => CornerDescriptor(face, corner, Face.Left, TopRight, Face.Front, TopLeft)
       case BottomRight => CornerDescriptor(face, corner, Face.Right, TopLeft, Face.Front, TopRight))
    case Bottom =>
      (match corner
       case TopLeft => CornerDescriptor(face, corner, Face.Left, BottomRight, Face.Front, BottomLeft)
       case TopRight => CornerDescriptor(face, corner, Face.Right, BottomLeft, Face.Front, BottomRight)
       case BottomLeft => CornerDescriptor(face, corner, Face.Left, BottomLeft, Face.Back, BottomRight)
       case BottomRight => CornerDescriptor(face, corner, Face.Right, BottomRight, Face.Back, BottomLeft))
  }

  /**
   * A corner descriptor names the sticker it was asked for, puts each of its
   * stickers on a face of the right axis, and is the same whichever of its
   * three stickers it is looked up from.
   */
  lemma CornerDescriptorConsistent(face: Face, corner: CornerPos)
    ensures var d := GetCornerDescriptor(face, corner);
      ((d.faceY == face && d.cornerY == corner) || (d.faceX == face && d.cornerX == corner) ||
       (d.faceZ == face && d.cornerZ == corner)) &&
      (d.faceY == Face.Top || d.faceY == Face.Bottom) &&
      (d.faceX == Face.Left || d.faceX == Face.Right) &&
      (d.faceZ == Face.Front || d.faceZ == Face.Back) &&
      GetCornerDescriptor(d.faceY, d.cornerY) == d &&
      GetCornerDescriptor(d.faceX, d.cornerX) == d &&
      GetCornerDescriptor(d.faceZ, d.cornerZ) == d
  {
  }

  /** The sticker on the other side of an edge. */
  function GetAdjacentEdge(face: Face, edge: EdgePos): FaceEdge
  {
    match face
    case Front =>
      (match edge
       case TopEdge => FaceEdge(Face.Top, BottomEdge)
       case LeftEdge => FaceEdge(Face.Left, RightEdge)
       case RightEdge => FaceEdge(Face.Right, LeftEdge)
       case BottomEdge => FaceEdge(Face.Bottom, TopEdge))
    case Back =>
      (match edge
       case TopEdge => FaceEdge(Face.Top, TopEdge)
       case LeftEdge => FaceEdge(Face.Right, RightEdge)
       case RightEdge => FaceEdge(Face.Left, LeftEdge)
       case BottomEdge => FaceEdge(Face.Bottom, BottomEdge))
    case Left =>
      (match edge
       case TopEdge => FaceEdge(Face.Top, LeftEdge)
       case LeftEdge => FaceEdge(Face.Back, RightEdge)
       case RightEdge => FaceEdge(Face.Front, LeftEdge)
       case BottomEdge => FaceEdge(Face.Bottom, LeftEdge))
    case Right =>
      (match edge
       case TopEdge => FaceEdge(Face.Top, RightEdge)
       case LeftEdge => FaceEdge(Face.Front, RightEdge)
       case RightEdge => FaceEdge(Face.Back, LeftEdge)
       case BottomEdge => FaceEdge(Face.Bottom, RightEdge))
    case Top =>
      (match edge
       case TopEdge => FaceEdge(Face.Back, TopEdge)
       case LeftEdge => FaceEdge(Face.Left, TopEdge)
       case RightEdge => FaceEdge(Face.Right, TopEdge)
       case BottomEdge => FaceEdge(Face.Front, TopEdge))
    case Bottom =>
      (match edge
       case TopEdge => FaceEdge(Face.Front, BottomEdge)
       case LeftEdge => FaceEdge(Face.Left, BottomEdge)
       case RightEdge => FaceEdge(Face.Right, BottomEdge)
       case BottomEdge => FaceEdge(Face.Back, BottomEdge))
  }

  /** The two stickers of an edge point at each other, on different faces that are not opposite. */
  lemma AdjacentEdgeInvolution(face: Face, edge: EdgePos)
    ensures var a := GetAdjacentEdge(face, edge);
      a.face != face && a.face != GetOppositeFace(face) &&
      GetAdjacentEdge(a.face, a.edge) == FaceEdge(face, edge)
  {
  }

  /** The column and row of an edge sticker: a cell next to the centre. */
  function GetEdgePosition(edge: EdgePos): (p: (int, int))
    ensures 0 <= p.0 < CubeSize && 0 <= p.1 < CubeSize && (p.0 == 1) != (p.1 == 1)
  {
    match edge
    case TopEdge => (1, 0)
    case LeftEdge => (0, 1)
    case RightEdge => (2, 1)
    case BottomEdge => (1, 2)
  }

  /** The index of an edge sticker within its face. */
  function EdgeCell(edge: EdgePos): (i: nat)
    ensures i < 9 && i == CubeDimsToIdx(GetEdgePosition(edge).0, GetEdgePosition(edge).1)
  {
    CubeDimsToIdx(GetEdgePosition(edge).0, GetEdgePosition(edge).1)
  }

  /** The column and row of a corner sticker: a cell in a corner of the face. */
  function GetCornerPosition(corner: CornerPos): (p: (int, int))
    ensures (p.0 == 0 || p.0 == 2) && (p.1 == 0 || p.1 == 2)
  {
    match corner
    case TopLeft => (0, 0)
    case TopRight => (2, 0)
    case BottomLeft => (0, 2)
    case BottomRight => (2, 2)
  }

  /** Different positions are different cells. */
  lemma PositionsInjective(e1: EdgePos, e2: EdgePos, c1: CornerPos, c2: CornerPos)
    ensures GetEdgePosition(e1) == GetEdgePosition(e2) ==> e1 == e2
    ensures GetCornerPosition(c1) == GetCornerPosition(c2) ==> c1 == c2
  {
  }

  function GetEdgeColor(s: CubeFaces, face: Face, edge: EdgePos): (c: Color)
    ensures c == Cell(s, face, GetEdgePosition(edge).0, GetEdgePosition(edge).1)
  {
    var p := GetEdgePosition(edge);
    s[FaceIndex(face)][CubeDimsToIdx(p.0, p.1)]
  }

  function GetAdjacentEdgeColor(s: CubeFaces, face: Face, edge: EdgePos): (c: Color)
    ensures c == GetEdgeColor(s, GetAdjacentEdge(face, edge).face, GetAdjacentEdge(face, edge).edge)
  {
    var a := GetAdjacentEdge(face, edge);
    GetEdgeColor(s, a.face, a.edge)
  }

  function GetCornerColor(s: CubeFaces, face: Face, corner: CornerPos): (c: Color)
    ensures c == Cell(s, face, GetCornerPosition(corner).0, GetCornerPosition(corner).1)
  {
    var p := GetCornerPosition(corner);
    s[FaceIndex(face)][CubeDimsToIdx(p.0, p.1)]
  }

  /** The colours of a corner piece, in the order Y, X, Z. */
  function GetCornerColors(s: CubeFaces, d: CornerDescriptor): (colors: (Color, Color, Color))
    ensures colors.0 == GetCornerColor(s, d.faceY, d.cornerY)
    ensures colors.1 == GetCornerColor(s, d.faceX, d.cornerX)
    ensures colors.2 == GetCornerColor(s, d.faceZ, d.cornerZ)
  {
    (GetCornerColor(s, d.faceY, d.cornerY), GetCornerColor(s, d.faceX, d.cornerX), GetCornerColor(s, d.faceZ, d.cornerZ))
  }

  /** The colours of the corner piece that has the given sticker; that sticker's colour is among them. */
  function GetCornerColorsAt(s: CubeFaces, face: Face, corner: CornerPos): (colors: (Color, Color, Color))
    ensures colors == GetCornerColors(s, GetCornerDescriptor(face, corner))
    ensures GetCornerColor(s, face, corner) in {colors.0, colors.1, colors.2}
  {
    CornerDescriptorConsistent(face, corner);
    GetCornerColors(s, GetCornerDescriptor(face, corner))
  }

  /** The edge piece with a sticker at (face, edge) carries colours c1 and c2, either way round. */
  predicate EdgeShows(s: CubeFaces, face: Face, edge: EdgePos, c1: Color, c2: Color)
  {
    (GetEdgeColor(s, face, edge) == c1 && GetAdjacentEdgeColor(s, face, edge) == c2) ||
    (GetEdgeColor(s, face, edge) == c2 && GetAdjacentEdgeColor(s, face, edge) == c1)
  }

  /** Whether an edge piece carries two colours does not depend on which of its stickers is asked. */
  lemma EdgeShowsSymmetric(s: CubeFaces, face: Face, edge: EdgePos, c1: Color, c2: Color)
    ensures var a := GetAdjacentEdge(face, edge);
      EdgeShows(s, face, edge, c1, c2) <==> EdgeShows(s, a.face, a.edge, c1, c2)
  {
    var a := GetAdjacentEdge(face, edge);
    AdjacentEdgeInvolution(face, edge);
    assert GetAdjacentEdgeColor(s, a.face, a.edge) == GetEdgeColor(s, face, edge);
  }

  /**
   * Whether the edge sticker shows one of two colours and its partner the
   * other. isInverted is None when the sticker shows neither colour (the
   * source leaves it unassigned then), Some(false) when it shows color1 and
   * Some(true) when it shows color2 but not color1.
   */
  datatype EdgeMatch = EdgeMatch(found: bool, isInverted: Option<bool>)

  function IsEdgeInPosition(s: CubeFaces, face: Face, edge: EdgePos, color1: Color, color2: Color): (r: EdgeMatch)
    ensures r.found && r.isInverted == Some(false) <==>
              GetEdgeColor(s, face, edge) == color1 && GetAdjacentEdgeColor(s, face, edge) == color2
    ensures r.found && r.isInverted == Some(true) <==>
              GetEdgeColor(s, face, edge) != color1 && GetEdgeColor(s, face, edge) == color2 &&
              GetAdjacentEdgeColor(s, face, edge) == color1
    ensures r.isInverted == None <==> GetEdgeColor(s, face, edge) != color1 && GetEdgeColor(s, face, edge) != color2
    ensures r.isInverted == None ==> !r.found
    ensures r.found <==> EdgeShows(s, face, edge, color1, color2)
  {
    var faceColor := GetEdgeColor(s, face, edge);
    if faceColor == color1 then
      EdgeMatch(GetAdjacentEdgeColor(s, face, edge) == color2, Some(false))
    else if faceColor == color2 then
      EdgeMatch(GetAdjacentEdgeColor(s, face, edge) == color1, Some(true))
    else
      EdgeMatch(false, None)
  }

  // ---------------------------------------------------------------------
  // The corner and edge between two side faces, as seen from the first

  predicate AreAdjacentSides(f1: Face, f2: Face)
  {
    IsSideFace(f1) && IsSideFace(f2) && f1 != f2 && GetOppositeFace(f1) != f2
  }

  /** The lower corner of sideFace1 that it shares with sideFace2. */
  function GetF2lPairCorner(sideFace1: Face, sideFace2: Face): CornerPos
    requires AreAdjacentSides(sideFace1, sideFace2)
  {
    if sideFace1 == Face.Front then
      (if sideFace2 == Face.Left then BottomLeft else BottomRight)
    else if sideFace1 == Face.Back then
      (if sideFace2 == Face.Left then BottomRight else BottomLeft)
    else if sideFace1 == Face.Left then
      (if sideFace2 == Face.Front then BottomRight else BottomLeft)
    else
      (if sideFace2 == Face.Front then BottomLeft else BottomRight)
  }

  /** The edge of sideFace1 that it shares with sideFace2. */
  function GetF2lEdgePair(sideFace1: Face, sideFace2: Face): EdgePos
    requires AreAdjacentSides(sideFace1, sideFace2)
  {
    if sideFace1 == Face.Front then
      (if sideFace2 == Face.Left then LeftEdge else RightEdge)
    else if sideFace1 == Face.Back then
      (if sideFace2 == Face.Left then RightEdge else LeftEdge)
    else if sideFace1 == Face.Left then
      (if sideFace2 == Face.Front then RightEdge else LeftEdge)
    else
      (if sideFace2 == Face.Front then LeftEdge else RightEdge)
  }

  /**
   * The pair corner is the corner piece of the bottom face and the two side
   * faces, and the pair edge is the edge piece the two side faces share.
   */
  lemma F2lPairMeaning(sideFace1: Face, sideFace2: Face)
    requires AreAdjacentSides(sideFace1, sideFace2)
    ensures var d := GetCornerDescriptor(sideFace1, GetF2lPairCorner(sideFace1, sideFace2));
      d.faceY == Face.Bottom && {d.faceX, d.faceZ} == {sideFace1, sideFace2}
    ensures GetAdjacentEdge(sideFace1, GetF2lEdgePair(sideFace1, sideFace2)).face == sideFace2
    ensures var a := GetAdjacentEdge(sideFace1, GetF2lEdgePair(sideFace1, sideFace2));
      a.edge == GetF2lEdgePair(sideFace2, sideFace1)
  {
  }

  /** The first edge position of the face, from index i on, whose piece carries c1 and c2. */
  function FindEdgeFrom(s: CubeFaces, face: Face, c1: Color, c2: Color, i: nat): Option<EdgePos>
    requires i <= 4
    decreases 4 - i
  {
    if i == 4 then None
    else if IsEdgeInPosition(s, face, EdgeAt(i), c1, c2).found then Some(EdgeAt(i))
    else FindEdgeFrom(s, face, c1, c2, i + 1)
  }

  /** FindEdgeFrom finds the first such edge, in enum order, and None only when there is none. */
  lemma {:induction false} FindEdgeFromFirst(s: CubeFaces, face: Face, c1: Color, c2: Color, i: nat)
    requires i <= 4
    ensures var r := FindEdgeFrom(s, face, c1, c2, i);
      if r.Some? then
        EdgeIndex(r.value) >= i && EdgeShows(s, face, r.value, c1, c2) &&
        forall e :: i <= EdgeIndex(e) < EdgeIndex(r.value) ==> !EdgeShows(s, face, e, c1, c2)
      else forall e :: EdgeIndex(e) >= i ==> !EdgeShows(s, face, e, c1, c2)
    decreases 4 - i
  {
    if i < 4 {
      FindEdgeFromFirst(s, face, c1, c2, i + 1);
      forall e | EdgeIndex(e) == i ensures e == EdgeAt(i) {
      }
    }
  }

  // ---------------------------------------------------------------------
  // Reference motion of stickers. The move bodies of the source are empty,
  // so these definitions do not come from it: they give the standard
  // meaning of a basic face turn, with the turned face's own stickers
  // moving as QuarterTurn moves them (RotateFaceClockwise), and of a
  // whole-cube rotation. The solver's choice of moves is checked against
  // them.

  /** The edge position a sticker moves to when its face turns a quarter clockwise. */
  function EdgeClockwise(edge: EdgePos): EdgePos
  {
    match edge
    case TopEdge => RightEdge
    case RightEdge => BottomEdge
    case BottomEdge => LeftEdge
    case LeftEdge => TopEdge
  }

  /** The edge position after k clockwise quarter turns. */
  function TurnEdge(edge: EdgePos, k: nat): EdgePos
    decreases k
  {
    if k == 0 then edge else EdgeClockwise(TurnEdge(edge, k - 1))
  }

  /** A face's stickers after k clockwise quarter turns. */
  function QuarterTurns(f: FaceCells, k: nat): FaceCells
    decreases k
  {
    if k == 0 then f else QuarterTurn(QuarterTurns(f, k - 1))
  }

  /** EdgeClockwise is where QuarterTurn puts an edge sticker. */
  lemma EdgeClockwiseSticker(f: FaceCells, edge: EdgePos)
    ensures QuarterTurn(f)[EdgeCell(EdgeClockwise(edge))] == f[EdgeCell(edge)]
  {
    var p := GetEdgePosition(EdgeClockwise(edge));
    assert QuarterTurn(f)[CubeDimsToIdx(p.0, p.1)] == f[CubeDimsToIdx(p.1, 2 - p.0)];
  }

  /** After k quarter turns of its face, the sticker that was at edge is at TurnEdge(edge, k). */
  lemma {:induction false} TurnEdgeSticker(f: FaceCells, edge: EdgePos, k: nat)
    ensures QuarterTurns(f, k)[EdgeCell(TurnEdge(edge, k))] == f[EdgeCell(edge)]
    decreases k
  {
    if k > 0 {
      TurnEdgeSticker(f, edge, k - 1);
      EdgeClockwiseSticker(QuarterTurns(f, k - 1), TurnEdge(edge, k - 1));
    }
  }

  /** The face a basic face turn turns, and the clockwise quarter turns it gives it; None for other moves. */
  function FaceTurnOf(m: Move): Option<(Face, nat)>
  {
    match m
    case Up => Some((Face.Top, 1))
    case UpPrime => Some((Face.Top, 3))
    case Up2 => Some((Face.Top, 2))
    case Down => Some((Face.Bottom, 1))
    case DownPrime => Some((Face.Bottom, 3))
    case Down2 => Some((Face.Bottom, 2))
    case Right => Some((Face.Right, 1))
    case RightPrime => Some((Face.Right, 3))
    case Right2 => Some((Face.Right, 2))
    case Left => Some((Face.Left, 1))
    case LeftPrime => Some((Face.Left, 3))
    case Left2 => Some((Face.Left, 2))
    case Front => Some((Face.Front, 1))
    case FrontPrime => Some((Face.Front, 3))
    case Front2 => Some((Face.Front, 2))
    case Back => Some((Face.Back, 1))
    case BackPrime => Some((Face.Back, 3))
    case Back2 => Some((Face.Back, 2))
    case _ => None
  }

  /**
   * Where the edge sticker at p goes when face f turns k clockwise quarter
   * turns: a sticker on f turns with it, a sticker whose partner is on f
   * follows its partner, and every other edge sticker stays.
   */
  function CarryOnTurn(f: Face, k: nat, p: FaceEdge): FaceEdge
  {
    if p.face == f then FaceEdge(f, TurnEdge(p.edge, k))
    else
      var a := GetAdjacentEdge(p.face, p.edge);
      if a.face == f then GetAdjacentEdge(f, TurnEdge(a.edge, k)) else p
  }

  /**
   * Where the edge sticker at p goes under a quarter y rotation, which turns
   * the whole cube as U turns: the top face turns clockwise, the bottom face
   * counter-clockwise as seen from below, and side faces move round keeping
   * their edge positions.
   */
  function YStepSticker(p: FaceEdge): FaceEdge
  {
    if p.face == Face.Top then FaceEdge(Face.Top, EdgeClockwise(p.edge))
    else if p.face == Face.Bottom then FaceEdge(Face.Bottom, TurnEdge(p.edge, 3))
    else FaceEdge(YStep(p.face), p.edge)
  }

  /** Where the edge sticker at p goes under k quarter y rotations. */
  function YTurnSticker(k: nat, p: FaceEdge): FaceEdge
    decreases k
  {
    if k == 0 then p else YStepSticker(YTurnSticker(k - 1, p))
  }

  /** A y rotation moves the two stickers of an edge piece together, and its faces as Rotate does. */
  lemma {:induction false} YTurnKeepsPieces(k: nat, p: FaceEdge)
    ensures var q := YTurnSticker(k, p);
      YTurnSticker(k, GetAdjacentEdge(p.face, p.edge)) == GetAdjacentEdge(q.face, q.edge)
    ensures IsSideFace(p.face) ==> YTurnSticker(k, p).face == Rotate(YAxis, k, p.face)
    decreases k
  {
    if k > 0 {
      YTurnKeepsPieces(k - 1, p);
      var q := YTurnSticker(k - 1, p);
      assert YStepSticker(GetAdjacentEdge(q.face, q.edge)) == GetAdjacentEdge(YStepSticker(q).face, YStepSticker(q).edge);
    }
  }

  /**
   * Where the edge sticker at p goes under the move m: a basic face turn or a
   * y rotation. None for other moves.
   */
  function CarrySticker(m: Move, p: FaceEdge): Option<FaceEdge>
  {
    var t := FaceTurnOf(m);
    if t.Some? then Some(CarryOnTurn(t.value.0, t.value.1, p))
    else if m == Move.Y then Some(YTurnSticker(1, p))
    else if m == Move.Y2 then Some(YTurnSticker(2, p))
    else if m == Move.YPrime then Some(YTurnSticker(3, p))
    else None
  }

  /** A face turn moves the two stickers of an edge piece together. */
  lemma CarryKeepsPieces(f: Face, k: nat, p: FaceEdge)
    ensures var a := GetAdjacentEdge(p.face, p.edge);
      var q := CarryOnTurn(f, k, p);
      CarryOnTurn(f, k, a) == GetAdjacentEdge(q.face, q.edge)
  {
    var a := GetAdjacentEdge(p.face, p.edge);
    AdjacentEdgeInvolution(p.face, p.edge);
    if p.face == f {
      AdjacentEdgeInvolution(f, TurnEdge(p.edge, k));
    } else if a.face == f {
      var q := GetAdjacentEdge(f, TurnEdge(a.edge, k));
      AdjacentEdgeInvolution(f, TurnEdge(a.edge, k));
    }
  }

  /** Where the edge sticker at p goes under a series of face turns. */
  function CarryStickers(ms: seq<Move>, p: FaceEdge): Option<FaceEdge>
    decreases |ms|
  {
    if ms == [] then Some(p)
    else match CarrySticker(ms[0], p)
      case None => None
      case Some(q) => CarryStickers(ms[1..], q)
  }

  /** Carrying a sticker through two series of turns is carrying it through the first, then the second. */
  lemma {:induction false} CarryStickersAppend(a: seq<Move>, b: seq<Move>, p: FaceEdge)
    ensures CarryStickers(a + b, p) ==
      match CarryStickers(a, p)
      case None => None
      case Some(q) => CarryStickers(b, q)
    decreases |a|
  {
    if a == [] {
      assert a + b == b;
    } else {
      assert (a + b)[0] == a[0];
      assert (a + b)[1..] == a[1..] + b;
      match CarrySticker(a[0], p)
      case None =>
      case Some(q) => CarryStickersAppend(a[1..], b, q);
    }
  }

  /** A sticker that steps along path, one position per move, ends at the path's last position. */
  lemma {:induction false} CarryAlong(ms: seq<Move>, path: seq<FaceEdge>)
    requires |path| == |ms| + 1
    requires forall i :: 0 <= i < |ms| ==> CarrySticker(ms[i], path[i]) == Some(path[i + 1])
    ensures CarryStickers(ms, path[0]) == Some(path[|ms|])
    decreases |ms|
  {
    if ms != [] {
      assert CarrySticker(ms[0], path[0]) == Some(path[1]);
      CarryAlong(ms[1..], path[1..]);
    }
  }

  /** A series of face turns moves the two stickers of an edge piece together. */
  lemma {:induction false} CarryStickersKeepPieces(ms: seq<Move>, p: FaceEdge)
    requires CarryStickers(ms, p).Some?
    ensures var q := CarryStickers(ms, p).value;
      CarryStickers(ms, GetAdjacentEdge(p.face, p.edge)) == Some(GetAdjacentEdge(q.face, q.edge))
    decreases |ms|
  {
    if ms != [] {
      var t := FaceTurnOf(ms[0]);
      if t.Some? {
        CarryKeepsPieces(t.value.0, t.value.1, p);
      } else {
        YTurnKeepsPieces(RotationOf(ms[0]).value.1, p);
      }
      CarryStickersKeepPieces(ms[1..], CarrySticker(ms[0], p).value);
    }
  }

  /** The position the contents of face f move to under a quarter x: the cube turns as R turns. */
  function XStep(f: Face): Face
  {
    match f
    case Front => Face.Top
    case Top => Face.Back
    case Back => Face.Bottom
    case Bottom => Face.Front
    case _ => f
  }

  /** The position the contents of face f move to under a quarter y: the cube turns as U turns. */
  function YStep(f: Face): Face
  {
    match f
    case Front => Face.Left
    case Left => Face.Back
    case Back => Face.Right
    case Right => Face.Front
    case _ => f
  }

  /** The position the contents of face f move to under a quarter z: the cube turns as F turns. */
  function ZStep(f: Face): Face
  {
    match f
    case Top => Face.Right
    case Right => Face.Bottom
    case Bottom => Face.Left
    case Left => Face.Top
    case _ => f
  }

  /** A quarter rotation of the whole cube about an axis. */
  function Step(axis: Axis, f: Face): Face
  {
    match axis
    case XAxis => XStep(f)
    case YAxis => YStep(f)
    case ZAxis => ZStep(f)
  }

  /** k quarter rotations about an axis. */
  function Rotate(axis: Axis, k: nat, f: Face): Face
    decreases k
  {
    if k == 0 then f else Step(axis, Rotate(axis, k - 1, f))
  }

  /** The axis and the number of quarter rotations of a whole-cube rotation; None for other moves. */
  function RotationOf(m: Move): Option<(Axis, nat)>
  {
    match m
    case X => Some((XAxis, 1))
    case X2 => Some((XAxis, 2))
    case XPrime => Some((XAxis, 3))
    case Y => Some((YAxis, 1))
    case Y2 => Some((YAxis, 2))
    case YPrime => Some((YAxis, 3))
    case Z => Some((ZAxis, 1))
    case Z2 => Some((ZAxis, 2))
    case ZPrime => Some((ZAxis, 3))
    case _ => None
  }

  /** Where the contents of face f end up after a whole-cube rotation; None for other moves. */
  function RotationTarget(m: Move, f: Face): Option<Face>
  {
    match RotationOf(m)
    case None => None
    case Some((axis, k)) => Some(Rotate(axis, k, f))
  }

  /** Each quarter rotation permutes the faces and keeps opposite faces opposite. */
  lemma StepPermutesFaces(axis: Axis, f: Face, g: Face)
    ensures Step(axis, f) == Step(axis, g) ==> f == g
    ensures Step(axis, GetOppositeFace(f)) == GetOppositeFace(Step(axis, f))
  {
  }

  /** A rotation permutes the faces and keeps opposite faces opposite. */
  lemma {:induction false} RotationPermutesFaces(axis: Axis, k: nat, f: Face, g: Face)
    ensures Rotate(axis, k, f) == Rotate(axis, k, g) ==> f == g
    ensures Rotate(axis, k, GetOppositeFace(f)) == GetOppositeFace(Rotate(axis, k, f))
    decreases k
  {
    if k > 0 {
      RotationPermutesFaces(axis, k - 1, f, g);
      StepPermutesFaces(axis, Rotate(axis, k - 1, f), Rotate(axis, k - 1, g));
    }
  }
}

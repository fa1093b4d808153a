// The first two layers (F2L) phase of src/CfopSolver.cpp: with the cross
// solved, each corner of the bottom layer is paired with the middle-layer
// edge above it. For one pair (the front-right slot after a rotation) the
// solver positions the corner and the edge, classifies what it sees into an
// F2lCase, and pushes the one algorithm the classifiers pick for it.
//
// The classifiers are pure functions of the case. Two of them, as written,
// pick an algorithm meant for another situation; both are modelled as
// written, and the dispatch the solver uses is built from corrected copies,
// which are proved to pick, for every case that can arise, the one algorithm
// whose situation is that case.

module F2L {
  import opened CubeDefs
  import opened CubeState
  import opened Geometry
  import opened MoveLists
  import opened Algorithms
  import opened Cross
  import opened F2lMoves

  /**
   * Two helpers the solver calls whose definitions are not part of this
   * model: CubeSolveUtils::IsCornerInPosition (whether the corner sticker at
   * a position belongs to the piece of three colours) and GetAxisForFace.
   */
  datatype SolveUtils = SolveUtils(
    isCornerInPosition: (CubeFaces, Face, CornerPos, Color, Color, Color) -> bool,
    axisForFace: Face -> Axis)

  /** What IsF2lPairSolved demands of its faces: each on the X or Z axis, and not the same one. */
  predicate PairAxesValid(u: SolveUtils, f1: Face, f2: Face)
  {
    (u.axisForFace(f1) == XAxis || u.axisForFace(f1) == ZAxis) &&
    (u.axisForFace(f2) == XAxis || u.axisForFace(f2) == ZAxis) &&
    u.axisForFace(f1) != u.axisForFace(f2)
  }

  /** The axes of the corner descriptors: left and right on X, top and bottom on Y, front and back on Z. */
  predicate StandardAxes(u: SolveUtils)
  {
    u.axisForFace(Face.Left) == XAxis && u.axisForFace(Face.Right) == XAxis &&
    u.axisForFace(Face.Top) == YAxis && u.axisForFace(Face.Bottom) == YAxis &&
    u.axisForFace(Face.Front) == ZAxis && u.axisForFace(Face.Back) == ZAxis
  }

  // ---------------------------------------------------------------------
  // Is a pair solved?

  /**
   * Whether the pair of sideFace1 and sideFace2 is solved: their shared edge
   * shows their colours the right way round, and the corner below it shows
   * the bottom colour on the bottom and the side colours on the slots their
   * axes name.
   */
  function IsF2lPairSolved(u: SolveUtils, s: CubeFaces, sideFace1: Face, sideFace2: Face): (r: bool)
    requires PairAxesValid(u, sideFace1, sideFace2) && AreAdjacentSides(sideFace1, sideFace2)
    ensures r ==> GetEdgeColor(s, sideFace1, GetF2lEdgePair(sideFace1, sideFace2)) == CenterOf(s, sideFace1)
  {
    var face1Color := CenterOf(s, sideFace1);
    var face2Color := CenterOf(s, sideFace2);
    var corner := GetF2lPairCorner(sideFace1, sideFace2);
    var edge := IsEdgeInPosition(s, sideFace1, GetF2lEdgePair(sideFace1, sideFace2), face1Color, face2Color);
    if edge.isInverted != Some(true) && edge.found then
      var colors := GetCornerColorsAt(s, sideFace1, corner);
      if colors.0 == BottomColor then
        if u.axisForFace(sideFace1) == XAxis then colors.1 == face1Color && colors.2 == face2Color
        else if u.axisForFace(sideFace1) == ZAxis then colors.2 == face1Color && colors.1 == face2Color
        else false
      else false
    else false
  }

  /** The colour of the sticker of corner d that lies on face f (its X slot, else its Z slot). */
  function CornerStickerOn(s: CubeFaces, d: CornerDescriptor, f: Face): Color
  {
    if d.faceX == f then GetCornerColor(s, d.faceX, d.cornerX) else GetCornerColor(s, d.faceZ, d.cornerZ)
  }

  /**
   * The pair is home: the shared edge and the bottom corner of the two side
   * faces each show, on every face they touch, that face's colour.
   */
  predicate PairHome(s: CubeFaces, f1: Face, f2: Face)
    requires AreAdjacentSides(f1, f2)
  {
    var d := GetCornerDescriptor(f1, GetF2lPairCorner(f1, f2));
    var edge := GetF2lEdgePair(f1, f2);
    GetEdgeColor(s, f1, edge) == CenterOf(s, f1) && GetAdjacentEdgeColor(s, f1, edge) == CenterOf(s, f2) &&
    GetCornerColor(s, d.faceY, d.cornerY) == BottomColor &&
    CornerStickerOn(s, d, f1) == CenterOf(s, f1) && CornerStickerOn(s, d, f2) == CenterOf(s, f2)
  }

  /** With the descriptors' own axes, IsF2lPairSolved holds exactly when the pair is home. */
  lemma F2lPairSolvedMeaning(u: SolveUtils, s: CubeFaces, f1: Face, f2: Face)
    requires StandardAxes(u) && AreAdjacentSides(f1, f2)
    ensures PairAxesValid(u, f1, f2)
    ensures IsF2lPairSolved(u, s, f1, f2) <==> PairHome(s, f1, f2)
  {
    F2lPairMeaning(f1, f2);
    CornerDescriptorConsistent(f1, GetF2lPairCorner(f1, f2));
  }

  // ---------------------------------------------------------------------
  // Positioning the corner

  /**
   * The moves PositionF2lCornerInRightTopOrBottom pushes: the first of six
   * probes, in the source's order, that finds the corner of the front,
   * right and bottom colours picks the moves that bring it to the right of
   * the front face; nothing when no probe finds it.
   */
  function CornerPositionMoves(u: SolveUtils, s: CubeFaces): seq<Move>
  {
    var c1, c2, c3 := CenterOf(s, Face.Front), CenterOf(s, Face.Right), BottomColor;
    if u.isCornerInPosition(s, Face.Front, TopLeft, c1, c2, c3) then [Move.UpPrime]
    else if u.isCornerInPosition(s, Face.Front, BottomLeft, c1, c2, c3) then LeftCornerLift
    else if u.isCornerInPosition(s, Face.Back, TopLeft, c1, c2, c3) then [Move.Up]
    else if u.isCornerInPosition(s, Face.Back, TopRight, c1, c2, c3) then [Move.Up2]
    else if u.isCornerInPosition(s, Face.Back, BottomLeft, c1, c2, c3) then
      BackLeftCornerLift
    else if u.isCornerInPosition(s, Face.Back, BottomRight, c1, c2, c3) then
      BackRightCornerLift
    else []
  }

  /** Whatever the corner positioning pushes keeps the cross. */
  lemma CornerPositionKeepsCross(u: SolveUtils, s: CubeFaces)
    ensures KeepsCross(CornerPositionMoves(u, s))
  {
    var c1, c2, c3 := CenterOf(s, Face.Front), CenterOf(s, Face.Right), BottomColor;
    if u.isCornerInPosition(s, Face.Front, TopLeft, c1, c2, c3) {
      TopTurnKeepsCross(Move.UpPrime);
    } else if u.isCornerInPosition(s, Face.Front, BottomLeft, c1, c2, c3) {
      LeftCornerLiftKeepsCross();
    } else if u.isCornerInPosition(s, Face.Back, TopLeft, c1, c2, c3) {
      TopTurnKeepsCross(Move.Up);
    } else if u.isCornerInPosition(s, Face.Back, TopRight, c1, c2, c3) {
      TopTurnKeepsCross(Move.Up2);
    } else if u.isCornerInPosition(s, Face.Back, BottomLeft, c1, c2, c3) {
      BackLeftCornerLiftKeepsCross();
    } else if u.isCornerInPosition(s, Face.Back, BottomRight, c1, c2, c3) {
      BackRightCornerLiftKeepsCross();
    } else {
      NoMovesKeepCross();
    }
  }

  /** Brings the corner of the front-right pair to the right of the front face; the moves are left pending. */
  method PositionF2lCornerInRightTopOrBottom(u: SolveUtils, ml: CubeMoveList)
    requires ml.Valid()
    modifies ml, ml.mCube.mCube
    ensures ml.Snapshot() == Pushed(ml.mCube.engine, old(ml.Snapshot()), CornerPositionMoves(u, old(ml.Snapshot()).faces))
  {
    var s := ml.mCube.State();
    var color1 := ml.mCube.ColorOfFace(Face.Front);
    var color2 := ml.mCube.ColorOfFace(Face.Right);
    var color3 := BottomColor;
    if u.isCornerInPosition(s, Face.Front, TopLeft, color1, color2, color3) {
      ml.PushMoves([Move.UpPrime]);
    } else if u.isCornerInPosition(s, Face.Front, BottomLeft, color1, color2, color3) {
      ml.PushMoves(LeftCornerLift);
    } else if u.isCornerInPosition(s, Face.Back, TopLeft, color1, color2, color3) {
      ml.PushMoves([Move.Up]);
    } else if u.isCornerInPosition(s, Face.Back, TopRight, color1, color2, color3) {
      ml.PushMoves([Move.Up2]);
    } else if u.isCornerInPosition(s, Face.Back, BottomLeft, color1, color2, color3) {
      ml.PushMoves(BackLeftCornerLift);
    } else if u.isCornerInPosition(s, Face.Back, BottomRight, color1, color2, color3) {
      ml.PushMoves(BackRightCornerLift);
    } else {
      ml.PushMoves([]);
    }
  }

  // ---------------------------------------------------------------------
  // Positioning the edge

  /**
   * The first moves of PositionF2lEdgeAtTopOrMiddleRight: an edge of the
   * pair sitting in one of the three other middle slots is taken out to the
   * top layer, in a way that depends on whether the corner is below on the
   * right.
   */
  function EdgeStage1(s: CubeFaces, c1: Color, c2: Color, cornerInBottomRight: bool): seq<Move>
  {
    if IsEdgeInPosition(s, Face.Front, LeftEdge, c1, c2).found then
      if cornerInBottomRight then LeftCornerLift
      else FrontLeftEdgeLift
    else if IsEdgeInPosition(s, Face.Back, LeftEdge, c1, c2).found then
      if cornerInBottomRight then BackLeftEdgeToFront
      else BackLeftEdgeToBack
    else if IsEdgeInPosition(s, Face.Back, RightEdge, c1, c2).found then
      if cornerInBottomRight then BackRightEdgeLift
      else BackRightEdgeLiftTurned
    else []
  }

  /** The first of the front-left, back-left and back-right middle stickers, in that order, whose piece has the two colours. */
  function Stage1Slot(s: CubeFaces, c1: Color, c2: Color): Option<FaceEdge>
  {
    if EdgeShows(s, Face.Front, LeftEdge, c1, c2) then Some(FaceEdge(Face.Front, LeftEdge))
    else if EdgeShows(s, Face.Back, LeftEdge, c1, c2) then Some(FaceEdge(Face.Back, LeftEdge))
    else if EdgeShows(s, Face.Back, RightEdge, c1, c2) then Some(FaceEdge(Face.Back, RightEdge))
    else None
  }

  /**
   * The first stage keeps the cross and brings the edge found in a middle
   * slot other than the front-right one to the top layer; it does nothing
   * when there is none.
   */
  lemma EdgeStage1Meaning(s: CubeFaces, c1: Color, c2: Color, cornerInBottomRight: bool)
    ensures KeepsCross(EdgeStage1(s, c1, c2, cornerInBottomRight))
    ensures Stage1Slot(s, c1, c2).Some? ==> EndsOnTop(EdgeStage1(s, c1, c2, cornerInBottomRight), Stage1Slot(s, c1, c2).value)
    ensures Stage1Slot(s, c1, c2).None? ==> EdgeStage1(s, c1, c2, cornerInBottomRight) == []
  {
    if IsEdgeInPosition(s, Face.Front, LeftEdge, c1, c2).found {
      if cornerInBottomRight {
        LeftCornerLiftKeepsCross();
        LeftCornerLiftLiftsEdge();
      } else {
        FrontLeftEdgeLiftKeepsCross();
        FrontLeftEdgeLiftLiftsEdge();
      }
    } else if IsEdgeInPosition(s, Face.Back, LeftEdge, c1, c2).found {
      if cornerInBottomRight {
        BackLeftEdgeToFrontKeepsCross();
        BackLeftEdgeToFrontLiftsEdge();
      } else {
        BackLeftEdgeToBackKeepsCross();
        BackLeftEdgeToBackLiftsEdge();
      }
    } else if IsEdgeInPosition(s, Face.Back, RightEdge, c1, c2).found {
      if cornerInBottomRight {
        BackRightEdgeLiftKeepsCross();
        BackRightEdgeLiftLiftsEdge();
      } else {
        BackRightEdgeLiftTurnedKeepsCross();
        BackRightEdgeLiftTurnedLiftsEdge();
      }
    } else {
      NoMovesKeepCross();
    }
  }

  /**
   * The second moves of PositionF2lEdgeAtTopOrMiddleRight, used when the
   * corner is below on the right: a top turn that brings the edge, looked
   * for at the left, top, right and bottom edges of the top face in that
   * order, over the slot, the front colour up at the right edge or the right
   * colour up at the bottom edge.
   */
  function EdgeStage2(s: CubeFaces, c1: Color, c2: Color): seq<Move>
  {
    var left := IsEdgeInPosition(s, Face.Top, LeftEdge, c1, c2);
    var top := IsEdgeInPosition(s, Face.Top, TopEdge, c1, c2);
    var right := IsEdgeInPosition(s, Face.Top, RightEdge, c1, c2);
    var bottom := IsEdgeInPosition(s, Face.Top, BottomEdge, c1, c2);
    if left.found then (if left.isInverted == Some(true) then [Move.UpPrime] else [Move.Up2])
    else if top.found then (if top.isInverted == Some(true) then [Move.Up2] else [Move.Up])
    else if right.found then (if right.isInverted == Some(true) then [Move.Up] else [])
    else if bottom.found then (if bottom.isInverted == Some(true) then [] else [Move.UpPrime])
    else []
  }

  /** The first top edge, in the order EdgeStage2 looks, whose piece has the two colours. */
  function Stage2Edge(s: CubeFaces, c1: Color, c2: Color): Option<EdgePos>
  {
    if EdgeShows(s, Face.Top, LeftEdge, c1, c2) then Some(LeftEdge)
    else if EdgeShows(s, Face.Top, TopEdge, c1, c2) then Some(TopEdge)
    else if EdgeShows(s, Face.Top, RightEdge, c1, c2) then Some(RightEdge)
    else if EdgeShows(s, Face.Top, BottomEdge, c1, c2) then Some(BottomEdge)
    else None
  }

  /**
   * The second stage keeps the cross and turns the top so that the edge's
   * top sticker is at the right edge of the top face when it shows the front
   * colour, and at its bottom edge when it shows the right colour: the two
   * places the corner-in-place classifier expects.
   */
  lemma EdgeStage2Meaning(s: CubeFaces, c1: Color, c2: Color)
    requires c1 != c2
    ensures var ms := EdgeStage2(s, c1, c2);
      KeepsCross(ms) &&
      (Stage2Edge(s, c1, c2).Some? ==>
         var e := Stage2Edge(s, c1, c2).value;
         CarriesPiece(ms, FaceEdge(Face.Top, e),
                      if GetEdgeColor(s, Face.Top, e) == c1 then FaceEdge(Face.Top, RightEdge) else FaceEdge(Face.Top, BottomEdge)))
  {
    EdgeStage2KeepsCross(s, c1, c2);
    if Stage2Edge(s, c1, c2).Some? {
      EdgeStage2Carries(s, c1, c2);
    }
  }

  lemma EdgeStage2KeepsCross(s: CubeFaces, c1: Color, c2: Color)
    ensures KeepsCross(EdgeStage2(s, c1, c2))
  {
    var ms := EdgeStage2(s, c1, c2);
    if ms == [] {
      NoMovesKeepCross();
    } else {
      TopTurnKeepsCross(ms[0]);
    }
  }

  lemma EdgeStage2Carries(s: CubeFaces, c1: Color, c2: Color)
    requires c1 != c2 && Stage2Edge(s, c1, c2).Some?
    ensures var e := Stage2Edge(s, c1, c2).value;
      CarriesPiece(EdgeStage2(s, c1, c2), FaceEdge(Face.Top, e),
                   if GetEdgeColor(s, Face.Top, e) == c1 then FaceEdge(Face.Top, RightEdge) else FaceEdge(Face.Top, BottomEdge))
  {
    var e := Stage2Edge(s, c1, c2).value;
    var inverted := GetEdgeColor(s, Face.Top, e) != c1;
    assert EdgeStage2(s, c1, c2) == Stage2Turn(e, inverted);
    Stage2TurnCarries(e, inverted);
  }

  /** The turn EdgeStage2 makes for a piece at edge e of the top face, its top sticker showing the second colour when inverted. */
  function Stage2Turn(e: EdgePos, inverted: bool): seq<Move>
  {
    match e
    case LeftEdge => if inverted then [Move.UpPrime] else [Move.Up2]
    case TopEdge => if inverted then [Move.Up2] else [Move.Up]
    case RightEdge => if inverted then [Move.Up] else []
    case BottomEdge => if inverted then [] else [Move.UpPrime]
  }

  lemma Stage2TurnCarries(e: EdgePos, inverted: bool)
    ensures CarriesPiece(Stage2Turn(e, inverted), FaceEdge(Face.Top, e),
                         if inverted then FaceEdge(Face.Top, BottomEdge) else FaceEdge(Face.Top, RightEdge))
  {
    var ms := Stage2Turn(e, inverted);
    if ms == [] {
      PieceAlong(ms, [FaceEdge(Face.Top, e)]);
    } else {
      TopTurnCarriesTopEdge(ms[0], e);
    }
  }

  /** What PositionF2lEdgeAtTopOrMiddleRight does to the move list; the moves are left pending. */
  function EdgePositionResult(u: SolveUtils, e: Engine, st: ListState): ListState
  {
    var s := st.faces;
    var c1, c2 := CenterOf(s, Face.Front), CenterOf(s, Face.Right);
    var cornerInBottomRight := u.isCornerInPosition(s, Face.Front, BottomRight, c1, c2, BottomColor);
    var st1 := Pushed(e, st, EdgeStage1(s, c1, c2, cornerInBottomRight));
    if cornerInBottomRight then Pushed(e, st1, EdgeStage2(st1.faces, c1, c2)) else st1
  }

  /** Brings the edge of the front-right pair to the top layer, or leaves it in its slot. */
  method PositionF2lEdgeAtTopOrMiddleRight(u: SolveUtils, ml: CubeMoveList)
    requires ml.Valid()
    modifies ml, ml.mCube.mCube
    ensures ml.Snapshot() == EdgePositionResult(u, ml.mCube.engine, old(ml.Snapshot()))
  {
    var color1 := ml.mCube.ColorOfFace(Face.Front);
    var color2 := ml.mCube.ColorOfFace(Face.Right);
    var s := ml.mCube.State();
    var isCornerInBottomRight := u.isCornerInPosition(s, Face.Front, BottomRight, color1, color2, BottomColor);
    if IsEdgeInPosition(s, Face.Front, LeftEdge, color1, color2).found {
      if isCornerInBottomRight {
        ml.PushMoves(LeftCornerLift);
      } else {
        ml.PushMoves(FrontLeftEdgeLift);
      }
    } else if IsEdgeInPosition(s, Face.Back, LeftEdge, color1, color2).found {
      if isCornerInBottomRight {
        ml.PushMoves(BackLeftEdgeToFront);
      } else {
        ml.PushMoves(BackLeftEdgeToBack);
      }
    } else if IsEdgeInPosition(s, Face.Back, RightEdge, color1, color2).found {
      if isCornerInBottomRight {
        ml.PushMoves(BackRightEdgeLift);
      } else {
        ml.PushMoves(BackRightEdgeLiftTurned);
      }
    } else {
      ml.PushMoves([]);
    }
    ghost var st1 := ml.Snapshot();
    assert st1 == Pushed(ml.mCube.engine, old(ml.Snapshot()), EdgeStage1(s, color1, color2, isCornerInBottomRight));
    if isCornerInBottomRight {
      var t := ml.mCube.State();
      var left := IsEdgeInPosition(t, Face.Top, LeftEdge, color1, color2);
      var top := IsEdgeInPosition(t, Face.Top, TopEdge, color1, color2);
      var right := IsEdgeInPosition(t, Face.Top, RightEdge, color1, color2);
      var bottom := IsEdgeInPosition(t, Face.Top, BottomEdge, color1, color2);
      if left.found {
        if left.isInverted == Some(true) {
          ml.PushMoves([Move.UpPrime]);
        } else {
          ml.PushMoves([Move.Up2]);
        }
      } else if top.found {
        if top.isInverted == Some(true) {
          ml.PushMoves([Move.Up2]);
        } else {
          ml.PushMoves([Move.Up]);
        }
      } else if right.found {
        if right.isInverted == Some(true) {
          ml.PushMoves([Move.Up]);
        } else {
          ml.PushMoves([]);
        }
      } else if bottom.found && bottom.isInverted != Some(true) {
        ml.PushMoves([Move.UpPrime]);
      } else {
        ml.PushMoves([]);
      }
      assert ml.Snapshot() == Pushed(ml.mCube.engine, st1, EdgeStage2(st1.faces, color1, color2));
    }
  }

  // ---------------------------------------------------------------------
  // The case

  /** What FindF2lCase sees of the pair in the front-right slot (tF2lCase). */
  datatype F2lCase = F2lCase(
    cornerFace: Face, cornerPos: CornerPos, cornerColor: Color,
    edgeFace: Face, edgePos: EdgePos, edgeColor: Color,
    frontColor: Color, rightColor: Color)

  /**
   * The case FindF2lCase reads off the cube: the corner at the top right of
   * the front face when the probe finds it there, else at its bottom right;
   * the edge at the first top edge, in enum order, whose piece has the front
   * and right colours, else in the front-right slot; and the colours of the
   * two stickers at those places.
   */
  function F2lCaseOf(u: SolveUtils, s: CubeFaces): (c: F2lCase)
    ensures c.cornerFace == Face.Front && c.frontColor == CenterOf(s, Face.Front) && c.rightColor == CenterOf(s, Face.Right)
    ensures c.cornerPos == (if u.isCornerInPosition(s, Face.Front, TopRight, c.frontColor, c.rightColor, BottomColor)
                            then TopRight else BottomRight)
    ensures c.cornerColor == GetCornerColor(s, c.cornerFace, c.cornerPos) && c.edgeColor == GetEdgeColor(s, c.edgeFace, c.edgePos)
    ensures (c.edgeFace == Face.Top) <==> exists edge :: EdgeShows(s, Face.Top, edge, c.frontColor, c.rightColor)
    ensures c.edgeFace == Face.Top ==>
      EdgeShows(s, Face.Top, c.edgePos, c.frontColor, c.rightColor) &&
      forall edge :: EdgeIndex(edge) < EdgeIndex(c.edgePos) ==> !EdgeShows(s, Face.Top, edge, c.frontColor, c.rightColor)
    ensures c.edgeFace != Face.Top ==> c.edgeFace == Face.Front && c.edgePos == RightEdge
  {
    var c1, c2 := CenterOf(s, Face.Front), CenterOf(s, Face.Right);
    var cornerPos := if u.isCornerInPosition(s, Face.Front, TopRight, c1, c2, BottomColor) then TopRight else BottomRight;
    FindEdgeFromFirst(s, Face.Top, c1, c2, 0);
    var found := FindEdgeFrom(s, Face.Top, c1, c2, 0);
    var edgeFace := if found.Some? then Face.Top else Face.Front;
    var edgePos := if found.Some? then found.value else RightEdge;
    F2lCase(Face.Front, cornerPos, GetCornerColor(s, Face.Front, cornerPos),
            edgeFace, edgePos, GetEdgeColor(s, edgeFace, edgePos), c1, c2)
  }

  /** Reads the case of the front-right pair off the cube. */
  method FindF2lCase(u: SolveUtils, cube: Cube) returns (f2lCase: F2lCase)
    requires cube.Valid()
    ensures f2lCase == F2lCaseOf(u, cube.State())
  {
    var s := cube.State();
    var color1 := cube.ColorOfFace(Face.Front);
    var color2 := cube.ColorOfFace(Face.Right);
    var cornerPos := if u.isCornerInPosition(s, Face.Front, TopRight, color1, color2, BottomColor) then TopRight else BottomRight;
    var edgeFace, edgePos := Face.Front, RightEdge;
    for i := 0 to 4
      invariant FindEdgeFrom(s, Face.Top, color1, color2, i) == FindEdgeFrom(s, Face.Top, color1, color2, 0)
      invariant edgeFace == Face.Front && edgePos == RightEdge
    {
      var thisEdge := EdgeAt(i);
      if IsEdgeInPosition(s, Face.Top, thisEdge, color1, color2).found {
        edgeFace, edgePos := Face.Top, thisEdge;
        break;
      }
    }
    f2lCase := F2lCase(Face.Front, cornerPos, cube.GetState(Face.Front, GetCornerPosition(cornerPos).0, GetCornerPosition(cornerPos).1),
                       edgeFace, edgePos, GetEdgeColor(s, edgeFace, edgePos), color1, color2);
  }

  // ---------------------------------------------------------------------
  // Situations: what each algorithm is for

  /** Which of the pair's colours a sticker shows. */
  datatype Role = FrontRole | RightRole | BottomRole

  /** The colour a role names in a case. */
  function RoleColor(c: F2lCase, r: Role): Color
  {
    match r
    case FrontRole => c.frontColor
    case RightRole => c.rightColor
    case BottomRole => BottomColor
  }

  /** Where the corner and edge are, and which colour each shows at the place the case records. */
  datatype Situation = Situation(cornerPos: CornerPos, edgeFace: Face, edgePos: EdgePos, edgeRole: Role, cornerRole: Role)

  /** The case is in the situation. */
  predicate Fits(c: F2lCase, sit: Situation)
  {
    c.cornerFace == Face.Front && c.cornerPos == sit.cornerPos && c.edgeFace == sit.edgeFace && c.edgePos == sit.edgePos &&
    c.edgeColor == RoleColor(c, sit.edgeRole) && c.cornerColor == RoleColor(c, sit.cornerRole)
  }

  /**
   * The situation each F2L algorithm solves, as its classifier's guards
   * describe it: corner at the top right or below at the bottom right of
   * the front face, edge on the top face or in the front-right slot, and
   * the colours the edge and corner show there. None for the inverted-edge
   * algorithm of the cross.
   */
  function AlgSituation(a: Alg): Option<Situation>
  {
    match a
    case SolveInvertedEdge => None
    case BasicInsertRightPair => Some(Situation(TopRight, Face.Top, RightEdge, FrontRole, BottomRole))
    case BasicInsertFrontPair => Some(Situation(TopRight, Face.Top, BottomEdge, RightRole, FrontRole))
    case BasicInsertSoloLeftEdge => Some(Situation(TopRight, Face.Top, LeftEdge, RightRole, BottomRole))
    case BasicInsertSoloTopEdge => Some(Situation(TopRight, Face.Top, TopEdge, FrontRole, FrontRole))
    case Case1_1 => Some(Situation(TopRight, Face.Top, TopEdge, RightRole, BottomRole))
    case Case1_2 => Some(Situation(TopRight, Face.Top, LeftEdge, FrontRole, FrontRole))
    case Case1_3 => Some(Situation(TopRight, Face.Top, RightEdge, RightRole, BottomRole))
    case Case1_4 => Some(Situation(TopRight, Face.Top, BottomEdge, FrontRole, FrontRole))
    case Case1_5 => Some(Situation(TopRight, Face.Top, BottomEdge, RightRole, BottomRole))
    case Case1_6 => Some(Situation(TopRight, Face.Top, RightEdge, FrontRole, FrontRole))
    case Case2_1 => Some(Situation(TopRight, Face.Top, TopEdge, FrontRole, BottomRole))
    case Case2_2 => Some(Situation(TopRight, Face.Top, LeftEdge, RightRole, FrontRole))
    case Case2_3 => Some(Situation(TopRight, Face.Top, LeftEdge, FrontRole, BottomRole))
    case Case2_4 => Some(Situation(TopRight, Face.Top, TopEdge, RightRole, FrontRole))
    case Case3_1 => Some(Situation(TopRight, Face.Top, TopEdge, FrontRole, RightRole))
    case Case3_2 => Some(Situation(TopRight, Face.Top, LeftEdge, RightRole, RightRole))
    case Case3_3 => Some(Situation(TopRight, Face.Top, LeftEdge, FrontRole, RightRole))
    case Case3_4 => Some(Situation(TopRight, Face.Top, TopEdge, RightRole, RightRole))
    case IncorrectlyConnected1 => Some(Situation(TopRight, Face.Top, BottomEdge, FrontRole, BottomRole))
    case IncorrectlyConnected2 => Some(Situation(TopRight, Face.Top, RightEdge, RightRole, FrontRole))
    case IncorrectlyConnected3 => Some(Situation(TopRight, Face.Top, RightEdge, FrontRole, RightRole))
    case IncorrectlyConnected4 => Some(Situation(TopRight, Face.Top, BottomEdge, RightRole, RightRole))
    case IncorrectlyConnected5 => Some(Situation(TopRight, Face.Top, BottomEdge, FrontRole, RightRole))
    case IncorrectlyConnected6 => Some(Situation(TopRight, Face.Top, RightEdge, RightRole, RightRole))
    case CornerInPlaceEdgeInU1 => Some(Situation(BottomRight, Face.Top, RightEdge, FrontRole, FrontRole))
    case CornerInPlaceEdgeInU2 => Some(Situation(BottomRight, Face.Top, BottomEdge, RightRole, FrontRole))
    case CornerInPlaceEdgeInU3 => Some(Situation(BottomRight, Face.Top, RightEdge, FrontRole, BottomRole))
    case CornerInPlaceEdgeInU4 => Some(Situation(BottomRight, Face.Top, BottomEdge, RightRole, RightRole))
    case CornerInPlaceEdgeInU5 => Some(Situation(BottomRight, Face.Top, BottomEdge, RightRole, BottomRole))
    case CornerInPlaceEdgeInU6 => Some(Situation(BottomRight, Face.Top, RightEdge, FrontRole, RightRole))
    case EdgeInPlaceCornerInU1 => Some(Situation(TopRight, Face.Front, RightEdge, RightRole, RightRole))
    case EdgeInPlaceCornerInU2 => Some(Situation(TopRight, Face.Front, RightEdge, FrontRole, RightRole))
    case EdgeInPlaceCornerInU3 => Some(Situation(TopRight, Face.Front, RightEdge, FrontRole, BottomRole))
    case EdgeInPlaceCornerInU4 => Some(Situation(TopRight, Face.Front, RightEdge, FrontRole, FrontRole))
    case EdgeInPlaceCornerInU5 => Some(Situation(TopRight, Face.Front, RightEdge, RightRole, BottomRole))
    case EdgeInPlaceCornerInU6 => Some(Situation(TopRight, Face.Front, RightEdge, RightRole, FrontRole))
    case EdgeAndCornerInPlace1 => Some(Situation(BottomRight, Face.Front, RightEdge, FrontRole, FrontRole))
    case EdgeAndCornerInPlace2 => Some(Situation(BottomRight, Face.Front, RightEdge, RightRole, FrontRole))
    case EdgeAndCornerInPlace3 => Some(Situation(BottomRight, Face.Front, RightEdge, FrontRole, BottomRole))
    case EdgeAndCornerInPlace4 => Some(Situation(BottomRight, Face.Front, RightEdge, FrontRole, RightRole))
    case EdgeAndCornerInPlace5 => Some(Situation(BottomRight, Face.Front, RightEdge, RightRole, BottomRole))
    case EdgeAndCornerInPlace6 => Some(Situation(BottomRight, Face.Front, RightEdge, RightRole, RightRole))
  }

  /** The classifier picked an algorithm whose situation the case is in. */
  predicate Sound(c: F2lCase, r: Option<Alg>)
  {
    r.Some? ==> AlgSituation(r.value).Some? && Fits(c, AlgSituation(r.value).value)
  }

  // ---------------------------------------------------------------------
  // The classifiers (the SolveF2l* functions), each returning the algorithm
  // it pushes, or None when it returns false

  predicate CornerUpEdgeUp(c: F2lCase)
  {
    c.cornerFace == Face.Front && c.cornerPos == TopRight && c.edgeFace == Face.Top
  }

  predicate CornerDownEdgeUp(c: F2lCase)
  {
    c.cornerFace == Face.Front && c.cornerPos == BottomRight && c.edgeFace == Face.Top
  }

  predicate CornerUpEdgeInSlot(c: F2lCase)
  {
    c.cornerFace == Face.Front && c.cornerPos == TopRight && c.edgeFace == Face.Front && c.edgePos == RightEdge
  }

  predicate CornerDownEdgeInSlot(c: F2lCase)
  {
    c.cornerFace == Face.Front && c.cornerPos == BottomRight && c.edgeFace == Face.Front && c.edgePos == RightEdge
  }

  /** The case fits: the edge at `edgePos` shows colour `edge` and the corner shows colour `corner`. */
  predicate Shows(c: F2lCase, edgePos: EdgePos, edge: Color, corner: Color)
  {
    c.edgePos == edgePos && c.edgeColor == edge && c.cornerColor == corner
  }

  function SolveF2lBasicInserts(c: F2lCase): (r: Option<Alg>)
    ensures !CornerUpEdgeUp(c) ==> r.None?
    ensures Sound(c, r)
  {
    if !CornerUpEdgeUp(c) then None
    else if Shows(c, RightEdge, c.frontColor, BottomColor) then Some(BasicInsertRightPair)
    else if Shows(c, BottomEdge, c.rightColor, c.frontColor) then Some(BasicInsertFrontPair)
    else if Shows(c, LeftEdge, c.rightColor, BottomColor) then Some(BasicInsertSoloLeftEdge)
    else if Shows(c, TopEdge, c.frontColor, c.frontColor) then Some(BasicInsertSoloTopEdge)
    else None
  }

  function SolveF2lCase1(c: F2lCase): (r: Option<Alg>)
    ensures !CornerUpEdgeUp(c) ==> r.None?
    ensures Sound(c, r)
  {
    if !CornerUpEdgeUp(c) then None
    else if Shows(c, TopEdge, c.rightColor, BottomColor) then Some(Case1_1)
    else if Shows(c, LeftEdge, c.frontColor, c.frontColor) then Some(Case1_2)
    else if Shows(c, RightEdge, c.rightColor, BottomColor) then Some(Case1_3)
    else if Shows(c, BottomEdge, c.frontColor, c.frontColor) then Some(Case1_4)
    else if Shows(c, BottomEdge, c.rightColor, BottomColor) then Some(Case1_5)
    else if Shows(c, RightEdge, c.frontColor, c.frontColor) then Some(Case1_6)
    else None
  }

  function SolveF2lCase2(c: F2lCase): (r: Option<Alg>)
    ensures !CornerUpEdgeUp(c) ==> r.None?
    ensures Sound(c, r)
  {
    if !CornerUpEdgeUp(c) then None
    else if Shows(c, TopEdge, c.frontColor, BottomColor) then Some(Case2_1)
    else if Shows(c, LeftEdge, c.rightColor, c.frontColor) then Some(Case2_2)
    else if Shows(c, LeftEdge, c.frontColor, BottomColor) then Some(Case2_3)
    else if Shows(c, TopEdge, c.rightColor, c.frontColor) then Some(Case2_4)
    else None
  }

  function SolveF2lCase3(c: F2lCase): (r: Option<Alg>)
    ensures !CornerUpEdgeUp(c) ==> r.None?
    ensures Sound(c, r)
  {
    if !CornerUpEdgeUp(c) then None
    else if Shows(c, TopEdge, c.frontColor, c.rightColor) then Some(Case3_1)
    else if Shows(c, LeftEdge, c.rightColor, c.rightColor) then Some(Case3_2)
    else if Shows(c, LeftEdge, c.frontColor, c.rightColor) then Some(Case3_3)
    else if Shows(c, TopEdge, c.rightColor, c.rightColor) then Some(Case3_4)
    else None
  }

  function SolveF2lCaseIncorrectlyConnectedPieces(c: F2lCase): (r: Option<Alg>)
    ensures !CornerUpEdgeUp(c) ==> r.None?
    ensures Sound(c, r)
  {
    if !CornerUpEdgeUp(c) then None
    else if Shows(c, BottomEdge, c.frontColor, BottomColor) then Some(IncorrectlyConnected1)
    else if Shows(c, RightEdge, c.rightColor, c.frontColor) then Some(IncorrectlyConnected2)
    else if Shows(c, RightEdge, c.frontColor, c.rightColor) then Some(IncorrectlyConnected3)
    else if Shows(c, BottomEdge, c.rightColor, c.rightColor) then Some(IncorrectlyConnected4)
    else if Shows(c, BottomEdge, c.frontColor, c.rightColor) then Some(IncorrectlyConnected5)
    else if Shows(c, RightEdge, c.rightColor, c.rightColor) then Some(IncorrectlyConnected6)
    else None
  }

  /**
   * The corner-in-place classifier. Its debug assertion that the edge is at
   * the bottom or right edge of the top face is not a precondition here: a
   * case with the edge elsewhere falls through every test.
   */
  function SolveF2lCaseCornerInPlaceEdgeInUFace(c: F2lCase): (r: Option<Alg>)
    ensures !CornerDownEdgeUp(c) ==> r.None?
    ensures Sound(c, r)
  {
    if !CornerDownEdgeUp(c) then None
    else if Shows(c, RightEdge, c.frontColor, c.frontColor) then Some(CornerInPlaceEdgeInU1)
    else if Shows(c, BottomEdge, c.rightColor, c.frontColor) then Some(CornerInPlaceEdgeInU2)
    else if Shows(c, RightEdge, c.frontColor, BottomColor) then Some(CornerInPlaceEdgeInU3)
    else if Shows(c, BottomEdge, c.rightColor, c.rightColor) then Some(CornerInPlaceEdgeInU4)
    else if Shows(c, BottomEdge, c.rightColor, BottomColor) then Some(CornerInPlaceEdgeInU5)
    else if Shows(c, RightEdge, c.frontColor, c.rightColor) then Some(CornerInPlaceEdgeInU6)
    else None
  }

  /** The edge-in-place classifier as written: its last test picks the fifth algorithm again. */
  function SolveF2lCaseEdgeInPlaceCornerInUFaceAsWritten(c: F2lCase): (r: Option<Alg>)
    ensures !CornerUpEdgeInSlot(c) ==> r.None?
    ensures r.Some? ==> AlgSituation(r.value).Some?
  {
    if !CornerUpEdgeInSlot(c) then None
    else if c.edgeColor == c.rightColor && c.cornerColor == c.rightColor then Some(EdgeInPlaceCornerInU1)
    else if c.edgeColor == c.frontColor && c.cornerColor == c.rightColor then Some(EdgeInPlaceCornerInU2)
    else if c.edgeColor == c.frontColor && c.cornerColor == BottomColor then Some(EdgeInPlaceCornerInU3)
    else if c.edgeColor == c.frontColor && c.cornerColor == c.frontColor then Some(EdgeInPlaceCornerInU4)
    else if c.edgeColor == c.rightColor && c.cornerColor == BottomColor then Some(EdgeInPlaceCornerInU5)
    else if c.edgeColor == c.rightColor && c.cornerColor == c.frontColor then Some(EdgeInPlaceCornerInU5)
    else None
  }

  /** The edge-in-place classifier with its last test picking the sixth algorithm. */
  function SolveF2lCaseEdgeInPlaceCornerInUFace(c: F2lCase): (r: Option<Alg>)
    ensures !CornerUpEdgeInSlot(c) ==> r.None?
    ensures Sound(c, r)
  {
    if !CornerUpEdgeInSlot(c) then None
    else if c.edgeColor == c.rightColor && c.cornerColor == c.rightColor then Some(EdgeInPlaceCornerInU1)
    else if c.edgeColor == c.frontColor && c.cornerColor == c.rightColor then Some(EdgeInPlaceCornerInU2)
    else if c.edgeColor == c.frontColor && c.cornerColor == BottomColor then Some(EdgeInPlaceCornerInU3)
    else if c.edgeColor == c.frontColor && c.cornerColor == c.frontColor then Some(EdgeInPlaceCornerInU4)
    else if c.edgeColor == c.rightColor && c.cornerColor == BottomColor then Some(EdgeInPlaceCornerInU5)
    else if c.edgeColor == c.rightColor && c.cornerColor == c.frontColor then Some(EdgeInPlaceCornerInU6)
    else None
  }

  /**
   * The both-in-place classifier as written: it picks the edge-in-place
   * algorithms of the same numbers. Its first test, the solved pair, is
   * followed by a debug assertion that such a case does not arise; the
   * model keeps what the code does without it.
   */
  function SolveF2lCaseEdgeAndCornerInPlaceAsWritten(c: F2lCase): (r: Option<Alg>)
    ensures !CornerDownEdgeInSlot(c) ==> r.None?
    ensures r.Some? ==> AlgSituation(r.value).Some?
  {
    if !CornerDownEdgeInSlot(c) then None
    else if c.edgeColor == c.frontColor && c.cornerColor == c.frontColor then Some(EdgeInPlaceCornerInU1)
    else if c.edgeColor == c.rightColor && c.cornerColor == c.frontColor then Some(EdgeInPlaceCornerInU2)
    else if c.edgeColor == c.frontColor && c.cornerColor == BottomColor then Some(EdgeInPlaceCornerInU3)
    else if c.edgeColor == c.frontColor && c.cornerColor == c.rightColor then Some(EdgeInPlaceCornerInU4)
    else if c.edgeColor == c.rightColor && c.cornerColor == BottomColor then Some(EdgeInPlaceCornerInU5)
    else if c.edgeColor == c.rightColor && c.cornerColor == c.rightColor then Some(EdgeInPlaceCornerInU6)
    else None
  }

  /** The both-in-place classifier picking its own algorithms. */
  function SolveF2lCaseEdgeAndCornerInPlace(c: F2lCase): (r: Option<Alg>)
    ensures !CornerDownEdgeInSlot(c) ==> r.None?
    ensures Sound(c, r)
  {
    if !CornerDownEdgeInSlot(c) then None
    else if c.edgeColor == c.frontColor && c.cornerColor == c.frontColor then Some(EdgeAndCornerInPlace1)
    else if c.edgeColor == c.rightColor && c.cornerColor == c.frontColor then Some(EdgeAndCornerInPlace2)
    else if c.edgeColor == c.frontColor && c.cornerColor == BottomColor then Some(EdgeAndCornerInPlace3)
    else if c.edgeColor == c.frontColor && c.cornerColor == c.rightColor then Some(EdgeAndCornerInPlace4)
    else if c.edgeColor == c.rightColor && c.cornerColor == BottomColor then Some(EdgeAndCornerInPlace5)
    else if c.edgeColor == c.rightColor && c.cornerColor == c.rightColor then Some(EdgeAndCornerInPlace6)
    else None
  }

  /** Tries the classifiers in the order SolveF2lCase does; the first that picks an algorithm wins. */
  function FirstOf(rs: seq<Option<Alg>>): Option<Alg>
  {
    if rs == [] then None else if rs[0].Some? then rs[0] else FirstOf(rs[1..])
  }

  /** SolveF2lCase with the classifiers as written. */
  function SolveF2lCaseChoiceAsWritten(c: F2lCase): Option<Alg>
  {
    FirstOf([SolveF2lBasicInserts(c), SolveF2lCase1(c), SolveF2lCase2(c), SolveF2lCase3(c),
             SolveF2lCaseIncorrectlyConnectedPieces(c), SolveF2lCaseCornerInPlaceEdgeInUFace(c),
             SolveF2lCaseEdgeInPlaceCornerInUFaceAsWritten(c), SolveF2lCaseEdgeAndCornerInPlaceAsWritten(c)])
  }

  /** SolveF2lCase with the corrected classifiers: the choice the solver here makes. */
  function SolveF2lCaseChoice(c: F2lCase): Option<Alg>
  {
    FirstOf([SolveF2lBasicInserts(c), SolveF2lCase1(c), SolveF2lCase2(c), SolveF2lCase3(c),
             SolveF2lCaseIncorrectlyConnectedPieces(c), SolveF2lCaseCornerInPlaceEdgeInUFace(c),
             SolveF2lCaseEdgeInPlaceCornerInUFace(c), SolveF2lCaseEdgeAndCornerInPlace(c)])
  }

  /**
   * A case that can arise: the corner at the top or bottom right of the
   * front face, the edge on the top face or in the front-right slot, the
   * front, right and bottom colours distinct, the edge showing the front or
   * right colour and the corner one of the three; with the corner below,
   * an edge on top shows the front colour at the right edge of the top face
   * or the right colour at its bottom edge, where positioning leaves it.
   */
  predicate WellFormed(c: F2lCase)
  {
    c.cornerFace == Face.Front && (c.cornerPos == TopRight || c.cornerPos == BottomRight) &&
    (c.edgeFace == Face.Top || (c.edgeFace == Face.Front && c.edgePos == RightEdge)) &&
    c.frontColor != c.rightColor && c.frontColor != BottomColor && c.rightColor != BottomColor &&
    (c.edgeColor == c.frontColor || c.edgeColor == c.rightColor) &&
    (c.cornerColor == c.frontColor || c.cornerColor == c.rightColor || c.cornerColor == BottomColor) &&
    (c.cornerPos == BottomRight && c.edgeFace == Face.Top ==>
       (c.edgePos == RightEdge && c.edgeColor == c.frontColor) || (c.edgePos == BottomEdge && c.edgeColor == c.rightColor))
  }

  /** The role of a colour in a case that can arise. */
  function RoleOf(c: F2lCase, color: Color): Role
  {
    if color == c.frontColor then FrontRole else if color == c.rightColor then RightRole else BottomRole
  }

  /** The situation of a case. */
  function SituationOf(c: F2lCase): (sit: Situation)
    requires WellFormed(c)
    ensures Fits(c, sit)
  {
    Situation(c.cornerPos, c.edgeFace, c.edgePos, RoleOf(c, c.edgeColor), RoleOf(c, c.cornerColor))
  }

  /** A case that can arise is in exactly one situation. */
  lemma SituationUnique(c: F2lCase, sit: Situation)
    requires WellFormed(c) && Fits(c, sit)
    ensures sit == SituationOf(c)
  {
  }

  /**
   * The corrected dispatch picks, for every case that can arise, an
   * algorithm, and it is the one whose situation the case is in. So the
   * classifiers cover every such case, no earlier classifier shadows a
   * later one's algorithm, and the 42 situations get 42 different
   * algorithms.
   */
  lemma SolveF2lCaseChoiceCorrect(c: F2lCase)
    requires WellFormed(c)
    ensures SolveF2lCaseChoice(c).Some?
    ensures AlgSituation(SolveF2lCaseChoice(c).value) == Some(SituationOf(c))
  {
    SolveF2lCaseChoiceCovers(c);
    SolveF2lCaseChoiceSound(c);
    SituationUnique(c, AlgSituation(SolveF2lCaseChoice(c).value).value);
  }

  /** Every case that can arise gets an algorithm. */
  lemma SolveF2lCaseChoiceCovers(c: F2lCase)
    requires WellFormed(c)
    ensures SolveF2lCaseChoice(c).Some?
  {
    if CornerUpEdgeUp(c) {
      TopPairCovered(c);
      if SolveF2lBasicInserts(c).Some? {
        ChoiceFrom(c, 0);
      } else if SolveF2lCase1(c).Some? {
        ChoiceFrom(c, 1);
      } else if SolveF2lCase2(c).Some? {
        ChoiceFrom(c, 2);
      } else if SolveF2lCase3(c).Some? {
        ChoiceFrom(c, 3);
      } else {
        ChoiceFrom(c, 4);
      }
    } else if CornerDownEdgeUp(c) {
      CornerDownCovered(c);
      ChoiceFrom(c, 5);
    } else if CornerUpEdgeInSlot(c) {
      EdgeInSlotCovered(c);
      ChoiceFrom(c, 6);
    } else {
      BothInSlotCovered(c);
      ChoiceFrom(c, 7);
    }
  }

  /** The dispatch picks an algorithm as soon as its k-th classifier has one. */
  lemma ChoiceFrom(c: F2lCase, k: nat)
    requires k < 8
    requires k == 0 ==> SolveF2lBasicInserts(c).Some?
    requires k == 1 ==> SolveF2lCase1(c).Some?
    requires k == 2 ==> SolveF2lCase2(c).Some?
    requires k == 3 ==> SolveF2lCase3(c).Some?
    requires k == 4 ==> SolveF2lCaseIncorrectlyConnectedPieces(c).Some?
    requires k == 5 ==> SolveF2lCaseCornerInPlaceEdgeInUFace(c).Some?
    requires k == 6 ==> SolveF2lCaseEdgeInPlaceCornerInUFace(c).Some?
    requires k == 7 ==> SolveF2lCaseEdgeAndCornerInPlace(c).Some?
    ensures SolveF2lCaseChoice(c).Some?
  {
    var rs := [SolveF2lBasicInserts(c), SolveF2lCase1(c), SolveF2lCase2(c), SolveF2lCase3(c),
               SolveF2lCaseIncorrectlyConnectedPieces(c), SolveF2lCaseCornerInPlaceEdgeInUFace(c),
               SolveF2lCaseEdgeInPlaceCornerInUFace(c), SolveF2lCaseEdgeAndCornerInPlace(c)];
    assert SolveF2lCaseChoice(c) == FirstOf(rs);
    assert rs[k].Some?;
    FirstOfNone(rs);
  }

  /** The algorithm picked for a case is one made for that case's situation. */
  lemma SolveF2lCaseChoiceSound(c: F2lCase)
    ensures Sound(c, SolveF2lCaseChoice(c))
  {
    var rs := [SolveF2lBasicInserts(c), SolveF2lCase1(c), SolveF2lCase2(c), SolveF2lCase3(c),
               SolveF2lCaseIncorrectlyConnectedPieces(c), SolveF2lCaseCornerInPlaceEdgeInUFace(c),
               SolveF2lCaseEdgeInPlaceCornerInUFace(c), SolveF2lCaseEdgeAndCornerInPlace(c)];
    assert SolveF2lCaseChoice(c) == FirstOf(rs);
    FirstOfSound(c, rs);
  }

  /** Every case that can arise with the corner above the slot and the edge on top has one of the first five classifiers' algorithms. */
  lemma TopPairCovered(c: F2lCase)
    requires WellFormed(c) && CornerUpEdgeUp(c)
    ensures SolveF2lBasicInserts(c).Some? || SolveF2lCase1(c).Some? || SolveF2lCase2(c).Some? ||
            SolveF2lCase3(c).Some? || SolveF2lCaseIncorrectlyConnectedPieces(c).Some?
  {
  }

  /** Every case that can arise with the corner below the slot and the edge on top has a corner-in-place algorithm. */
  lemma CornerDownCovered(c: F2lCase)
    requires WellFormed(c) && CornerDownEdgeUp(c)
    ensures SolveF2lCaseCornerInPlaceEdgeInUFace(c).Some?
  {
  }

  /** Every case that can arise with the corner above the slot and the edge in it has an edge-in-place algorithm. */
  lemma EdgeInSlotCovered(c: F2lCase)
    requires WellFormed(c) && CornerUpEdgeInSlot(c)
    ensures SolveF2lCaseEdgeInPlaceCornerInUFace(c).Some?
  {
  }

  /** Every case that can arise with both pieces in the slot has a both-in-place algorithm. */
  lemma BothInSlotCovered(c: F2lCase)
    requires WellFormed(c) && CornerDownEdgeInSlot(c)
    ensures SolveF2lCaseEdgeAndCornerInPlace(c).Some?
  {
  }

  /** The first algorithm of a list of sound picks is sound. */
  lemma {:induction false} FirstOfSound(c: F2lCase, rs: seq<Option<Alg>>)
    requires forall i :: 0 <= i < |rs| ==> Sound(c, rs[i])
    ensures Sound(c, FirstOf(rs))
    decreases |rs|
  {
    if rs != [] && rs[0].None? {
      FirstOfSound(c, rs[1..]);
    }
  }

  /** A list has no first pick only when it has no pick at all. */
  lemma {:induction false} FirstOfNone(rs: seq<Option<Alg>>)
    ensures FirstOf(rs).None? ==> forall i :: 0 <= i < |rs| ==> rs[i].None?
    decreases |rs|
  {
    if rs != [] && rs[0].None? {
      FirstOfNone(rs[1..]);
      if FirstOf(rs).None? {
        forall i | 0 <= i < |rs|
          ensures rs[i].None?
        {
          if i > 0 {
            assert rs[i] == rs[1..][i - 1];
          }
        }
      }
    }
  }

  /** The case the as-written edge-in-place classifier gets wrong: edge in place, corner above with the front colour on the front. */
  function EdgeInPlaceCase(): F2lCase
  {
    F2lCase(Face.Front, TopRight, Green, Face.Front, RightEdge, Orange, Green, Orange)
  }

  /** As written, that case gets the fifth edge-in-place algorithm, which is for another situation. */
  lemma EdgeInPlaceCornerInUMisses(c: F2lCase)
    requires c == EdgeInPlaceCase()
    ensures WellFormed(c)
    ensures SolveF2lCaseChoiceAsWritten(c) == Some(EdgeInPlaceCornerInU5)
    ensures AlgSituation(EdgeInPlaceCornerInU5) != Some(SituationOf(c))
    ensures SolveF2lCaseChoice(c) == Some(EdgeInPlaceCornerInU6)
  {
    EdgeInPlaceCaseWellFormed(c);
    EdgeInPlaceCaseAsWritten(c);
    EdgeInPlaceCaseSituation(c);
    EdgeInPlaceCaseCorrected(c);
  }

  lemma EdgeInPlaceCaseWellFormed(c: F2lCase)
    requires c == EdgeInPlaceCase()
    ensures WellFormed(c)
  {
    DefaultColorScheme();
  }

  lemma EdgeInPlaceCaseAsWritten(c: F2lCase)
    requires c == EdgeInPlaceCase()
    ensures SolveF2lCaseChoiceAsWritten(c) == Some(EdgeInPlaceCornerInU5)
  {
    DefaultColorScheme();
  }

  lemma EdgeInPlaceCaseSituation(c: F2lCase)
    requires c == EdgeInPlaceCase()
    ensures WellFormed(c) && AlgSituation(EdgeInPlaceCornerInU5) != Some(SituationOf(c))
  {
    EdgeInPlaceCaseWellFormed(c);
  }

  lemma EdgeInPlaceCaseCorrected(c: F2lCase)
    requires c == EdgeInPlaceCase()
    ensures SolveF2lCaseChoice(c) == Some(EdgeInPlaceCornerInU6)
  {
    DefaultColorScheme();
  }

  /** A case the as-written both-in-place classifier gets wrong: both in place, the corner twisted. */
  function BothInPlaceCase(): F2lCase
  {
    F2lCase(Face.Front, BottomRight, Green, Face.Front, RightEdge, Orange, Green, Orange)
  }

  /** As written, that case gets an edge-in-place algorithm, made for the corner in the top layer. */
  lemma EdgeAndCornerInPlaceMisses(c: F2lCase)
    requires c == BothInPlaceCase()
    ensures WellFormed(c)
    ensures SolveF2lCaseChoiceAsWritten(c) == Some(EdgeInPlaceCornerInU2)
    ensures AlgSituation(EdgeInPlaceCornerInU2).value.cornerPos != c.cornerPos
    ensures SolveF2lCaseChoice(c) == Some(EdgeAndCornerInPlace2)
  {
    BothInPlaceCaseWellFormed(c);
    BothInPlaceCaseAsWritten(c);
    BothInPlaceCaseSituation(c);
    BothInPlaceCaseCorrected(c);
  }

  lemma BothInPlaceCaseSituation(c: F2lCase)
    requires c == BothInPlaceCase()
    ensures AlgSituation(EdgeInPlaceCornerInU2).value.cornerPos != c.cornerPos
  {
  }

  lemma BothInPlaceCaseWellFormed(c: F2lCase)
    requires c == BothInPlaceCase()
    ensures WellFormed(c)
  {
    DefaultColorScheme();
  }

  lemma BothInPlaceCaseAsWritten(c: F2lCase)
    requires c == BothInPlaceCase()
    ensures SolveF2lCaseChoiceAsWritten(c) == Some(EdgeInPlaceCornerInU2)
  {
    DefaultColorScheme();
  }

  lemma BothInPlaceCaseCorrected(c: F2lCase)
    requires c == BothInPlaceCase()
    ensures SolveF2lCaseChoice(c) == Some(EdgeAndCornerInPlace2)
  {
    DefaultColorScheme();
  }

  /** The moves SolveF2lCase pushes: those of the chosen algorithm, none when no classifier picks one. */
  function ChoiceMoves(e: Engine, c: F2lCase): seq<Move>
  {
    var choice := SolveF2lCaseChoice(c);
    if choice.Some? then AlgMoves(e, choice.value) else []
  }

  /** Pushes the algorithm for the case, leaving it pending. */
  method SolveF2lCase(ml: CubeMoveList, f2lCase: F2lCase)
    requires ml.Valid()
    modifies ml, ml.mCube.mCube
    ensures ml.Snapshot() == Pushed(ml.mCube.engine, old(ml.Snapshot()), ChoiceMoves(ml.mCube.engine, f2lCase))
  {
    var choice := SolveF2lCaseChoice(f2lCase);
    if choice.Some? {
      ml.PushMoves(AlgMoves(ml.mCube.engine, choice.value));
    } else {
      ml.PushMoves([]);
    }
  }

  // ---------------------------------------------------------------------
  // One pair

  /**
   * What SolveFirstTwoLayers does for one side face: it turns that face to
   * the right; if the front-right pair is then solved it rejects the turn
   * and reports false; otherwise it positions the corner and the edge,
   * pushes the algorithm for the case it finds, commits everything and
   * reports true.
   */
  function F2lPairResult(u: SolveUtils, e: Engine, st: ListState, rightFace: Face): (r: (bool, ListState))
    requires PairAxesValid(u, Face.Front, Face.Right)
    ensures !r.0 ==> r.1 == Rejected(e, PushedIfSome(e, st, SideToRightMove(rightFace)))
    ensures r.0 ==> r.1.pending == []
  {
    var st1 := PushedIfSome(e, st, SideToRightMove(rightFace));
    if IsF2lPairSolved(u, st1.faces, Face.Front, Face.Right) then (false, Rejected(e, st1))
    else
      var st2 := Pushed(e, st1, CornerPositionMoves(u, st1.faces));
      var st3 := EdgePositionResult(u, e, st2);
      var st4 := Pushed(e, st3, ChoiceMoves(e, F2lCaseOf(u, st3.faces)));
      (true, Accepted(st4))
  }

  /**
   * The step keeps the committed log growing and, when the engine's
   * reverse moves undo moves, keeps the log replaying to the cube.
   */
  lemma F2lPairAdvances(u: SolveUtils, e: Engine, origin: CubeFaces, st: ListState, rightFace: Face)
    requires PairAxesValid(u, Face.Front, Face.Right) && ReverseUndoes(e)
    ensures Advances(e, origin, st, F2lPairResult(u, e, st, rightFace).1)
  {
    var st1 := PushedIfSome(e, st, SideToRightMove(rightFace));
    IfSomeAdvances(e, origin, st, SideToRightMove(rightFace), None);
    if IsF2lPairSolved(u, st1.faces, Face.Front, Face.Right) {
      if Tracks(e, origin, st1) {
        RejectTracks(e, origin, st1);
      }
    } else {
      var st2 := Pushed(e, st1, CornerPositionMoves(u, st1.faces));
      var st3 := EdgePositionResult(u, e, st2);
      var st4 := Pushed(e, st3, ChoiceMoves(e, F2lCaseOf(u, st3.faces)));
      PushedAdvances(e, origin, st1, CornerPositionMoves(u, st1.faces));
      var s := st2.faces;
      var c1, c2 := CenterOf(s, Face.Front), CenterOf(s, Face.Right);
      var cornerInBottomRight := u.isCornerInPosition(s, Face.Front, BottomRight, c1, c2, BottomColor);
      var ms1 := EdgeStage1(s, c1, c2, cornerInBottomRight);
      PushedAdvances(e, origin, st2, ms1);
      PushedAdvances(e, origin, Pushed(e, st2, ms1), EdgeStage2(Pushed(e, st2, ms1).faces, c1, c2));
      AdvancesTrans(e, origin, st2, Pushed(e, st2, ms1), st3);
      PushedAdvances(e, origin, st3, ChoiceMoves(e, F2lCaseOf(u, st3.faces)));
      PushedAdvances(e, origin, st4, []);
      assert Pushed(e, st4, []).faces == st4.faces;
      AdvancesTrans(e, origin, st, st1, st2);
      AdvancesTrans(e, origin, st, st2, st3);
      AdvancesTrans(e, origin, st, st3, st4);
      AdvancesTrans(e, origin, st, st4, Accepted(st4));
    }
  }

  /** A pair found solved leaves a list with nothing pending as it was, when the reversal undoes. */
  lemma F2lPairSolvedRestores(u: SolveUtils, e: Engine, st: ListState, rightFace: Face)
    requires PairAxesValid(u, Face.Front, Face.Right) && ReverseUndoes(e) && st.pending == []
    ensures !F2lPairResult(u, e, st, rightFace).0 ==> F2lPairResult(u, e, st, rightFace).1 == st
  {
    var m := SideToRightMove(rightFace);
    if m.Some? {
      PushRejectRestores(e, st, [m.value]);
    } else {
      PushRejectRestores(e, st, []);
      assert Pushed(e, st, []) == st;
    }
  }

  /** Solves the pair that belongs in the front-right slot once rightFace is turned to the right. */
  method SolveFirstTwoLayersPair(u: SolveUtils, ml: CubeMoveList, rightFace: Face) returns (neededSolve: bool)
    requires ml.Valid() && PairAxesValid(u, Face.Front, Face.Right)
    modifies ml, ml.mCube.mCube
    ensures (neededSolve, ml.Snapshot()) == F2lPairResult(u, ml.mCube.engine, old(ml.Snapshot()), rightFace)
  {
    RotateSideFaceToRight(ml, rightFace);
    if IsF2lPairSolved(u, ml.mCube.State(), Face.Front, Face.Right) {
      ml.RejectPendingMovesCorrected();
      return false;
    }
    PositionF2lCornerInRightTopOrBottom(u, ml);
    PositionF2lEdgeAtTopOrMiddleRight(u, ml);
    var f2lCase := FindF2lCase(u, ml.mCube);
    SolveF2lCase(ml, f2lCase);
    ml.AcceptPendingMoves();
    return true;
  }

  /**
   * One pass of the F2L loop: the right, front, back and left faces are
   * tried in that order until one has a pair to solve. It solves none
   * exactly when every one of the four pairs is found solved after its
   * turn to the right.
   */
  function F2lRound(u: SolveUtils, e: Engine, st: ListState): (r: (bool, ListState))
    requires PairAxesValid(u, Face.Front, Face.Right)
  {
    var right := F2lPairResult(u, e, st, Face.Right);
    if right.0 then right
    else
      var front := F2lPairResult(u, e, right.1, Face.Front);
      if front.0 then front
      else
        var back := F2lPairResult(u, e, front.1, Face.Back);
        if back.0 then back else F2lPairResult(u, e, back.1, Face.Left)
  }

  /**
   * When the engine's reverse moves undo moves, a pass that solves nothing
   * leaves a list with nothing pending as it was, and every pass keeps the
   * log growing and replaying to the cube.
   */
  lemma F2lRoundAdvances(u: SolveUtils, e: Engine, origin: CubeFaces, st: ListState)
    requires PairAxesValid(u, Face.Front, Face.Right) && ReverseUndoes(e)
    ensures Advances(e, origin, st, F2lRound(u, e, st).1)
    ensures !F2lRound(u, e, st).0 && st.pending == [] ==> F2lRound(u, e, st).1 == st
  {
    var right := F2lPairResult(u, e, st, Face.Right);
    var front := F2lPairResult(u, e, right.1, Face.Front);
    var back := F2lPairResult(u, e, front.1, Face.Back);
    F2lPairAdvances(u, e, origin, st, Face.Right);
    F2lPairAdvances(u, e, origin, right.1, Face.Front);
    F2lPairAdvances(u, e, origin, front.1, Face.Back);
    F2lPairAdvances(u, e, origin, back.1, Face.Left);
    if st.pending == [] {
      F2lPairSolvedRestores(u, e, st, Face.Right);
      if !right.0 {
        F2lPairSolvedRestores(u, e, right.1, Face.Front);
        if !front.0 {
          F2lPairSolvedRestores(u, e, front.1, Face.Back);
          if !back.0 {
            F2lPairSolvedRestores(u, e, back.1, Face.Left);
          }
        }
      }
    }
    AdvancesTrans(e, origin, st, right.1, front.1);
    AdvancesTrans(e, origin, st, front.1, back.1);
    AdvancesTrans(e, origin, st, back.1, F2lPairResult(u, e, back.1, Face.Left).1);
  }

  /** One pass of the F2L loop's body. */
  method SolveFirstTwoLayersRound(u: SolveUtils, ml: CubeMoveList) returns (neededSolve: bool)
    requires ml.Valid() && PairAxesValid(u, Face.Front, Face.Right)
    modifies ml, ml.mCube.mCube
    ensures (neededSolve, ml.Snapshot()) == F2lRound(u, ml.mCube.engine, old(ml.Snapshot()))
  {
    neededSolve := SolveFirstTwoLayersPair(u, ml, Face.Right);
    if neededSolve {
      return;
    }
    neededSolve := SolveFirstTwoLayersPair(u, ml, Face.Front);
    if neededSolve {
      return;
    }
    neededSolve := SolveFirstTwoLayersPair(u, ml, Face.Back);
    if neededSolve {
      return;
    }
    neededSolve := SolveFirstTwoLayersPair(u, ml, Face.Left);
  }
}

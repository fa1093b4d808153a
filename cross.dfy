// The orientation and cross phases of src/CfopSolver.cpp: rotating the
// cube so that a chosen face or colour is where the solver wants it, and
// solving the four edges of the bottom cross one side face at a time.
//
// Each decision is a pure function of the cube's stickers; the methods drive
// a CubeMoveList with it, and their contracts tie the new move list to the
// decision. The decisions are checked against the reference motion of
// stickers in Geometry: every move sequence that does not end in an
// algorithm read from notation carries the edge piece where the source's
// comments say it goes.

module Cross {
  import opened CubeDefs
  import opened CubeState
  import opened Geometry
  import opened MoveLists
  import opened Algorithms

  /** The colour put on the bottom: the default colour of the bottom face. */
  const BottomColor: Color := DefaultColorOfFace(Face.Bottom)

  /** Pushing one move, when there is one, without accepting it. */
  function PushedIfSome(e: Engine, st: ListState, m: Option<Move>): ListState
  {
    if m.Some? then Pushed(e, st, [m.value]) else st
  }

  /** Pushing and accepting moves, when there are some. */
  function CommitIfSome(e: Engine, st: ListState, ms: Option<seq<Move>>): ListState
  {
    if ms.Some? then Committed(e, st, ms.value) else st
  }

  lemma IfSomeAdvances(e: Engine, origin: CubeFaces, st: ListState, m: Option<Move>, ms: Option<seq<Move>>)
    ensures Advances(e, origin, st, PushedIfSome(e, st, m))
    ensures Advances(e, origin, st, CommitIfSome(e, st, ms))
  {
    if m.Some? {
      PushedAdvances(e, origin, st, [m.value]);
    }
    if ms.Some? {
      PushedAdvances(e, origin, st, ms.value);
    }
  }

  /** The moves of an edge piece keep together: carrying both its stickers to q and q's partner. */
  predicate CarriesPiece(ms: seq<Move>, p: FaceEdge, q: FaceEdge)
  {
    CarryStickers(ms, p) == Some(q) &&
    CarryStickers(ms, GetAdjacentEdge(p.face, p.edge)) == Some(GetAdjacentEdge(q.face, q.edge))
  }

  /** A sticker that steps along path, one position per move, keeps its piece together. */
  lemma PieceAlong(ms: seq<Move>, path: seq<FaceEdge>)
    requires |path| == |ms| + 1
    requires forall i :: 0 <= i < |ms| ==> CarrySticker(ms[i], path[i]) == Some(path[i + 1])
    ensures CarriesPiece(ms, path[0], path[|ms|])
  {
    CarryAlong(ms, path);
    CarryStickersKeepPieces(ms, path[0]);
  }

  /** Carrying a piece through two series of moves in turn. */
  lemma PiecePair(a: seq<Move>, b: seq<Move>, p: FaceEdge, q: FaceEdge, r: FaceEdge)
    requires CarriesPiece(a, p, q) && CarriesPiece(b, q, r)
    ensures CarriesPiece(a + b, p, r)
  {
    CarryStickersAppend(a, b, p);
    CarryStickersAppend(a, b, GetAdjacentEdge(p.face, p.edge));
  }

  /** Carrying a piece through three series of moves in turn. */
  lemma PieceChain(a: seq<Move>, b: seq<Move>, c: seq<Move>, p: FaceEdge, q: FaceEdge, r: FaceEdge, t: FaceEdge)
    requires CarriesPiece(a, p, q) && CarriesPiece(b, q, r) && CarriesPiece(c, r, t)
    ensures CarriesPiece(a + b + c, p, t)
  {
    var pa := GetAdjacentEdge(p.face, p.edge);
    CarryStickersAppend(a, b, p);
    CarryStickersAppend(a, b, pa);
    CarryStickersAppend(a + b, c, p);
    CarryStickersAppend(a + b, c, pa);
  }

  /** The sticker of the piece at (face, edge) that shows colour c: that one, if it does, else its partner. */
  function StickerShowing(s: CubeFaces, face: Face, edge: EdgePos, c: Color): FaceEdge
  {
    if GetEdgeColor(s, face, edge) == c then FaceEdge(face, edge) else GetAdjacentEdge(face, edge)
  }

  // ---------------------------------------------------------------------
  // Orientation

  /** The rotation RotateSideFaceToFront pushes; None when the face is already in front. */
  function SideToFrontMove(face: Face): (r: Option<Move>)
    ensures r.None? <==> face == Face.Front
    ensures IsSideFace(face) && face != Face.Front ==> RotationTarget(r.value, face) == Some(Face.Front)
    ensures !IsSideFace(face) ==> r == Some(Move.NumMoves)
  {
    if face == Face.Front then None
    else
      Some(match face
           case Left => Move.YPrime
           case Right => Move.Y
           case Back => Move.Y2
           case _ => Move.NumMoves)
  }

  /** The rotation RotateSideFaceToRight pushes; None when the face is already on the right. */
  function SideToRightMove(face: Face): (r: Option<Move>)
    ensures r.None? <==> face == Face.Right
    ensures IsSideFace(face) && face != Face.Right ==> RotationTarget(r.value, face) == Some(Face.Right)
    ensures !IsSideFace(face) ==> r == Some(Move.NumMoves)
  {
    if face == Face.Right then None
    else
      Some(match face
           case Front => Move.YPrime
           case Back => Move.Y
           case Left => Move.Y2
           case _ => Move.NumMoves)
  }

  /** The rotation RotateColorToBottom pushes for the face holding the colour. */
  function ColorToBottomMove(f: Face): (m: Move)
    ensures f != Face.Bottom ==> RotationTarget(m, f) == Some(Face.Bottom)
    ensures f == Face.Bottom ==> m == Move.NumMoves
  {
    match f
    case Front => Move.XPrime
    case Left => Move.ZPrime
    case Right => Move.Z
    case Back => Move.X
    case Top => Move.X2
    case Bottom => Move.NumMoves
  }

  /** What RotateColorToBottom does to a move list. */
  function ColorToBottomResult(e: Engine, st: ListState, color: Color): ListState
  {
    if CenterOf(st.faces, Face.Bottom) == color then st
    else Committed(e, st, [ColorToBottomMove(FaceOfColorFrom(st.faces, color, 0))])
  }

  /**
   * When the bottom centre is not the colour, the rotation committed brings
   * the first face whose centre has the colour to the bottom; it is the
   * sentinel NumMoves exactly when no centre has the colour and the colour's
   * default face is the bottom.
   */
  lemma ColorToBottomMeaning(e: Engine, st: ListState, color: Color)
    requires CenterOf(st.faces, Face.Bottom) != color
    ensures var f := FaceOfColorFrom(st.faces, color, 0);
      var m := ColorToBottomMove(f);
      ColorToBottomResult(e, st, color) == Committed(e, st, [m]) &&
      ((exists g :: CenterOf(st.faces, g) == color) ==>
         CenterOf(st.faces, f) == color && RotationTarget(m, f) == Some(Face.Bottom)) &&
      (m == Move.NumMoves <==>
         (forall g :: CenterOf(st.faces, g) != color) && DefaultFaceOfColor(color) == Face.Bottom)
  {
    FaceOfColorFromFirst(st.faces, color, 0);
  }

  /** Turns the cube so that a side face comes to the front; the move is left pending. */
  method RotateSideFaceToFront(ml: CubeMoveList, face: Face)
    requires ml.Valid()
    modifies ml, ml.mCube.mCube
    ensures ml.Snapshot() == PushedIfSome(ml.mCube.engine, old(ml.Snapshot()), SideToFrontMove(face))
  {
    var orientingMove := SideToFrontMove(face);
    if orientingMove.Some? {
      ml.PushMove(orientingMove.value);
    }
  }

  /** Turns the cube so that a side face comes to the right; the move is left pending. */
  method RotateSideFaceToRight(ml: CubeMoveList, face: Face)
    requires ml.Valid()
    modifies ml, ml.mCube.mCube
    ensures ml.Snapshot() == PushedIfSome(ml.mCube.engine, old(ml.Snapshot()), SideToRightMove(face))
  {
    var orientingMove := SideToRightMove(face);
    if orientingMove.Some? {
      ml.PushMove(orientingMove.value);
    }
  }

  /** Turns the cube so that the face showing the colour comes to the bottom, and commits the move. */
  method RotateColorToBottom(ml: CubeMoveList, bottomColor: Color)
    requires ml.Valid()
    modifies ml, ml.mCube.mCube
    ensures ml.Snapshot() == ColorToBottomResult(ml.mCube.engine, old(ml.Snapshot()), bottomColor)
  {
    if ml.mCube.ColorOfFace(Face.Bottom) != bottomColor {
      var bottomColorFace := ml.mCube.FaceOfColor(bottomColor);
      ml.PushMove(ColorToBottomMove(bottomColorFace), true);
    }
  }

  /** Puts the bottom colour on the bottom; true when that took a move. */
  method OrientCube(cube: Cube) returns (oriented: bool)
    requires cube.Valid()
    modifies cube.mCube
    ensures cube.State() == ColorToBottomResult(cube.engine, ListState([], [], old(cube.State())), BottomColor).faces
    ensures oriented <==> CenterOf(old(cube.State()), Face.Bottom) != BottomColor
  {
    var moveList := new CubeMoveList(cube);
    RotateColorToBottom(moveList, BottomColor);
    oriented := moveList.GetNumMoves() > 0;
  }

  // ---------------------------------------------------------------------
  // The cross

  /** The cross edge of a side face is solved: its bottom edge shows the face's colour over the bottom colour. */
  function IsFaceCrossSolved(s: CubeFaces, face: Face): (r: bool)
    ensures r <==> GetEdgeColor(s, face, BottomEdge) == CenterOf(s, face) &&
                   GetAdjacentEdgeColor(s, face, BottomEdge) == BottomColor
  {
    var m := IsEdgeInPosition(s, face, BottomEdge, CenterOf(s, face), BottomColor);
    m.found && m.isInverted != Some(true)
  }

  /** The left-face turns that bring the edge at `edge` of the left face to its top edge. */
  function LeftPrep(edge: EdgePos): seq<Move>
  {
    match edge
    case TopEdge => []
    case BottomEdge => [Move.Left2]
    case LeftEdge => [Move.Left]
    case RightEdge => [Move.LeftPrime]
  }

  /** The left-face turn that undoes LeftPrep when the left cross edge was solved before it. */
  function LeftRestore(edge: EdgePos, solvedBefore: bool): seq<Move>
  {
    if solvedBefore && edge == LeftEdge then [Move.LeftPrime]
    else if solvedBefore && edge == RightEdge then [Move.Left]
    else []
  }

  /**
   * The moves SolveCrossEdgeOnLeftFace pushes for the edge at `edge` of the
   * left face; None when that edge is not the piece of `color` and the
   * bottom colour.
   */
  function LeftEdgeMoves(s: CubeFaces, edge: EdgePos, color: Color): (r: Option<seq<Move>>)
    ensures r.Some? <==> EdgeShows(s, Face.Left, edge, color, BottomColor)
  {
    if IsEdgeInPosition(s, Face.Left, edge, color, BottomColor).found then
      Some(LeftPrep(edge) + [Move.Up2] + LeftRestore(edge, IsFaceCrossSolved(s, Face.Left)))
    else None
  }

  /**
   * The moves for an edge of the left face bring the piece to the edge
   * between the top and the right face, and when the left cross edge was
   * solved and the moves turn the left face, they put the solved cross edge
   * back where it was.
   */
  lemma LeftEdgeMovesMeaning(s: CubeFaces, edge: EdgePos, color: Color)
    requires EdgeShows(s, Face.Left, edge, color, BottomColor)
    ensures CarriesPiece(LeftEdgeMoves(s, edge, color).value, FaceEdge(Face.Left, edge), FaceEdge(Face.Right, TopEdge))
    ensures IsFaceCrossSolved(s, Face.Left) && edge != BottomEdge ==>
      CarriesPiece(LeftEdgeMoves(s, edge, color).value, FaceEdge(Face.Left, BottomEdge), FaceEdge(Face.Left, BottomEdge))
  {
    LeftSequenceMeaning(edge, IsFaceCrossSolved(s, Face.Left));
  }

  /** LeftEdgeMovesMeaning for the moves themselves, whatever the stickers. */
  lemma LeftSequenceMeaning(edge: EdgePos, solved: bool)
    ensures var ms := LeftPrep(edge) + [Move.Up2] + LeftRestore(edge, solved);
      CarriesPiece(ms, FaceEdge(Face.Left, edge), FaceEdge(Face.Right, TopEdge)) &&
      (solved && edge != BottomEdge ==> CarriesPiece(ms, FaceEdge(Face.Left, BottomEdge), FaceEdge(Face.Left, BottomEdge)))
  {
    LeftSequenceCarries(edge, solved);
    if solved && edge != BottomEdge {
      LeftSequenceKeeps(edge);
    }
  }

  /** The moves for an edge of the left face bring it to the top of the right face. */
  lemma LeftSequenceCarries(edge: EdgePos, solved: bool)
    ensures CarriesPiece(LeftPrep(edge) + [Move.Up2] + LeftRestore(edge, solved), FaceEdge(Face.Left, edge), FaceEdge(Face.Right, TopEdge))
  {
    var prep, rest := LeftPrep(edge), LeftRestore(edge, solved);
    var p := FaceEdge(Face.Left, edge);
    var lt := FaceEdge(Face.Left, TopEdge);
    var rt := FaceEdge(Face.Right, TopEdge);
    PieceAlong(prep, if prep == [] then [p] else [p, lt]);
    PieceAlong([Move.Up2], [lt, rt]);
    PieceAlong(rest, if rest == [] then [rt] else [rt, rt]);
    PieceChain(prep, [Move.Up2], rest, p, lt, rt, rt);
  }

  /** With the left cross edge solved, the moves for a side or top edge of the left face put it back. */
  lemma LeftSequenceKeeps(edge: EdgePos)
    requires edge != BottomEdge
    ensures CarriesPiece(LeftPrep(edge) + [Move.Up2] + LeftRestore(edge, true), FaceEdge(Face.Left, BottomEdge), FaceEdge(Face.Left, BottomEdge))
  {
    var prep, rest := LeftPrep(edge), LeftRestore(edge, true);
    var p := FaceEdge(Face.Left, edge);
    var lb := FaceEdge(Face.Left, BottomEdge);
    var q := if edge == TopEdge then lb else p;
    PieceAlong(prep, if prep == [] then [lb] else [lb, q]);
    PieceAlong([Move.Up2], [q, q]);
    PieceAlong(rest, if rest == [] then [q] else [q, lb]);
    PieceChain(prep, [Move.Up2], rest, lb, q, q, lb);
  }

  /** One round of SolveCrossEdgeOnLeftFace: the edge at `edge` is checked on the current cube. */
  function LeftFaceStep(e: Engine, st: ListState, color: Color, edge: EdgePos): ListState
  {
    CommitIfSome(e, st, LeftEdgeMoves(st.faces, edge, color))
  }

  /** The move list after SolveCrossEdgeOnLeftFace has checked the first n edges of the left face. */
  function LeftFaceUpTo(e: Engine, st: ListState, color: Color, n: nat): ListState
    requires n <= 4
    decreases n
  {
    if n == 0 then st else LeftFaceStep(e, LeftFaceUpTo(e, st, color, n - 1), color, EdgeAt(n - 1))
  }

  lemma {:induction false} LeftFaceUpToAdvances(e: Engine, origin: CubeFaces, st: ListState, color: Color, n: nat)
    requires n <= 4
    ensures Advances(e, origin, st, LeftFaceUpTo(e, st, color, n))
    decreases n
  {
    if n == 0 {
      PushedAdvances(e, origin, st, []);
    } else {
      var prev := LeftFaceUpTo(e, st, color, n - 1);
      LeftFaceUpToAdvances(e, origin, st, color, n - 1);
      IfSomeAdvances(e, origin, prev, None, LeftEdgeMoves(prev.faces, EdgeAt(n - 1), color));
      AdvancesTrans(e, origin, st, prev, LeftFaceUpTo(e, st, color, n));
    }
  }

  /** Brings the cross edge of the right face from the left face to the top of the right face. */
  method SolveCrossEdgeOnLeftFace(ml: CubeMoveList)
    requires ml.Valid()
    modifies ml, ml.mCube.mCube
    ensures ml.Snapshot() ==
      LeftFaceUpTo(ml.mCube.engine, old(ml.Snapshot()), CenterOf(old(ml.Snapshot()).faces, Face.Right), 4)
  {
    var edgeColor := ml.mCube.ColorOfFace(Face.Right);
    for i := 0 to 4
      invariant ml.Snapshot() == LeftFaceUpTo(ml.mCube.engine, old(ml.Snapshot()), edgeColor, i)
    {
      ghost var before := ml.Snapshot();
      var moves := LeftEdgeMoves(ml.mCube.State(), EdgeAt(i), edgeColor);
      assert moves == LeftEdgeMoves(before.faces, EdgeAt(i), edgeColor);
      if moves.Some? {
        ml.PushMoves(moves.value);
        ml.AcceptPendingMoves();
      }
      assert ml.Snapshot() == LeftFaceStep(ml.mCube.engine, before, edgeColor, EdgeAt(i));
    }
  }

  /** The right-face turns that bring an edge of the right face to its bottom edge, or its right edge when inverted. */
  function RightPrep(edge: EdgePos, inverted: bool): seq<Move>
  {
    match edge
    case TopEdge => if inverted then [Move.Right] else [Move.Right2]
    case BottomEdge => if inverted then [Move.RightPrime] else []
    case LeftEdge => if inverted then [Move.Right2] else [Move.RightPrime]
    case RightEdge => if inverted then [] else [Move.Right]
  }

  /**
   * The moves SolveCrossEdgeOnRightFace pushes: for the first edge of the
   * right face, in enum order, whose piece has the colour and the bottom
   * colour, the preparing turn and, when the bottom colour is on the right
   * face, the inverted-edge algorithm. None when there is no such edge.
   */
  function RightFaceMoves(s: CubeFaces, color: Color, invertedEdge: seq<Move>): (r: Option<seq<Move>>)
    ensures r.None? <==> forall edge :: !EdgeShows(s, Face.Right, edge, color, BottomColor)
  {
    FindEdgeFromFirst(s, Face.Right, color, BottomColor, 0);
    var found := FindEdgeFrom(s, Face.Right, color, BottomColor, 0);
    if found.None? then None
    else
      var edge := found.value;
      var inverted := IsEdgeInPosition(s, Face.Right, edge, color, BottomColor).isInverted == Some(true);
      Some(RightPrep(edge, inverted) + (if inverted then invertedEdge else []))
  }

  /**
   * The preparing turn brings the piece to the bottom edge of the right face
   * with the bottom colour below, or, when the bottom colour is on the right
   * face, to the right edge of the right face with the bottom colour there,
   * where the inverted-edge algorithm expects it.
   */
  lemma RightPrepMeaning(s: CubeFaces, edge: EdgePos, color: Color)
    requires EdgeShows(s, Face.Right, edge, color, BottomColor) && color != BottomColor
    ensures var inverted := IsEdgeInPosition(s, Face.Right, edge, color, BottomColor).isInverted == Some(true);
      var white := StickerShowing(s, Face.Right, edge, BottomColor);
      CarriesPiece(RightPrep(edge, inverted), white,
                   if inverted then FaceEdge(Face.Right, RightEdge) else FaceEdge(Face.Bottom, RightEdge))
  {
    var inverted := IsEdgeInPosition(s, Face.Right, edge, color, BottomColor).isInverted == Some(true);
    assert StickerShowing(s, Face.Right, edge, BottomColor) ==
      if inverted then FaceEdge(Face.Right, edge) else GetAdjacentEdge(Face.Right, edge);
    RightPrepCarries(edge, inverted);
  }

  /** RightPrepMeaning for the turns themselves, whatever the stickers. */
  lemma RightPrepCarries(edge: EdgePos, inverted: bool)
    ensures CarriesPiece(RightPrep(edge, inverted),
                         if inverted then FaceEdge(Face.Right, edge) else GetAdjacentEdge(Face.Right, edge),
                         if inverted then FaceEdge(Face.Right, RightEdge) else FaceEdge(Face.Bottom, RightEdge))
  {
  }

  /** Solves the cross edge of the right face when it is on the right face. */
  method SolveCrossEdgeOnRightFace(ml: CubeMoveList)
    requires ml.Valid()
    modifies ml, ml.mCube.mCube
    ensures ml.Snapshot() ==
      CommitIfSome(ml.mCube.engine, old(ml.Snapshot()),
                   RightFaceMoves(old(ml.Snapshot()).faces, CenterOf(old(ml.Snapshot()).faces, Face.Right),
                                  AlgMoves(ml.mCube.engine, SolveInvertedEdge)))
  {
    var color := ml.mCube.ColorOfFace(Face.Right);
    ghost var s := ml.mCube.State();
    for i := 0 to 4
      invariant ml.Snapshot() == old(ml.Snapshot())
      invariant FindEdgeFrom(s, Face.Right, color, BottomColor, i) == FindEdgeFrom(s, Face.Right, color, BottomColor, 0)
    {
      var edgePos := EdgeAt(i);
      var m := IsEdgeInPosition(ml.mCube.State(), Face.Right, edgePos, color, BottomColor);
      if m.found {
        var inverted := m.isInverted == Some(true);
        ml.PushMoves(RightPrep(edgePos, inverted) + (if inverted then AlgMoves(ml.mCube.engine, SolveInvertedEdge) else []));
        ml.AcceptPendingMoves();
        return;
      }
    }
  }

  /**
   * The moves SolveCrossEdgeInBottomMiddle pushes when the cross edge of the
   * right face is at the front or the back of the bottom face; None when it
   * is at neither.
   */
  function BottomMiddleMoves(s: CubeFaces): (r: Option<seq<Move>>)
    ensures r.Some? <==> EdgeShows(s, Face.Bottom, TopEdge, BottomColor, CenterOf(s, Face.Right)) ||
                         EdgeShows(s, Face.Bottom, BottomEdge, BottomColor, CenterOf(s, Face.Right))
  {
    var color := CenterOf(s, Face.Right);
    var front := IsEdgeInPosition(s, Face.Bottom, TopEdge, BottomColor, color);
    var back := IsEdgeInPosition(s, Face.Bottom, BottomEdge, BottomColor, color);
    if front.found then
      Some(if front.isInverted != Some(true) then [Move.Front2, Move.UpPrime, Move.Right2]
           else [Move.FrontPrime, Move.RightPrime])
    else if back.found then
      Some(if back.isInverted != Some(true) then [Move.Back2, Move.Up, Move.Right2]
           else [Move.Back, Move.Right])
    else None
  }

  /** The bottom-middle moves solve the cross edge of the right face: bottom colour below, face colour on the right. */
  lemma BottomMiddleMeaning(s: CubeFaces)
    requires BottomMiddleMoves(s).Some? && CenterOf(s, Face.Right) != BottomColor
    ensures var edge := if EdgeShows(s, Face.Bottom, TopEdge, BottomColor, CenterOf(s, Face.Right)) then TopEdge else BottomEdge;
      CarriesPiece(BottomMiddleMoves(s).value, StickerShowing(s, Face.Bottom, edge, BottomColor), FaceEdge(Face.Bottom, RightEdge))
  {
    var color := CenterOf(s, Face.Right);
    if IsEdgeInPosition(s, Face.Bottom, TopEdge, BottomColor, color).found {
      BottomFrontEdgeUpright();
      BottomFrontEdgeInverted();
    } else {
      BottomBackEdgeUpright();
      BottomBackEdgeInverted();
    }
  }

  /** The moves for a bottom edge under the front face carry it to the right, upright or inverted. */
  lemma BottomFrontEdgeUpright()
    ensures CarriesPiece([Move.Front2, Move.UpPrime, Move.Right2], FaceEdge(Face.Bottom, TopEdge), FaceEdge(Face.Bottom, RightEdge))
  {
    PieceAlong([Move.Front2, Move.UpPrime, Move.Right2],
      [FaceEdge(Face.Bottom, TopEdge), FaceEdge(Face.Top, BottomEdge), FaceEdge(Face.Top, RightEdge), FaceEdge(Face.Bottom, RightEdge)]);
  }

  lemma BottomFrontEdgeInverted()
    ensures CarriesPiece([Move.FrontPrime, Move.RightPrime], FaceEdge(Face.Front, BottomEdge), FaceEdge(Face.Bottom, RightEdge))
  {
    PieceAlong([Move.FrontPrime, Move.RightPrime], [FaceEdge(Face.Front, BottomEdge), FaceEdge(Face.Front, RightEdge), FaceEdge(Face.Bottom, RightEdge)]);
  }

  /** The moves for a bottom edge under the back face carry it to the right, upright or inverted. */
  lemma BottomBackEdgeUpright()
    ensures CarriesPiece([Move.Back2, Move.Up, Move.Right2], FaceEdge(Face.Bottom, BottomEdge), FaceEdge(Face.Bottom, RightEdge))
  {
    PieceAlong([Move.Back2, Move.Up, Move.Right2],
      [FaceEdge(Face.Bottom, BottomEdge), FaceEdge(Face.Top, TopEdge), FaceEdge(Face.Top, RightEdge), FaceEdge(Face.Bottom, RightEdge)]);
  }

  lemma BottomBackEdgeInverted()
    ensures CarriesPiece([Move.Back, Move.Right], FaceEdge(Face.Back, BottomEdge), FaceEdge(Face.Bottom, RightEdge))
  {
    PieceAlong([Move.Back, Move.Right], [FaceEdge(Face.Back, BottomEdge), FaceEdge(Face.Back, LeftEdge), FaceEdge(Face.Bottom, RightEdge)]);
  }

  /** Solves the cross edge of the right face when it is in the bottom layer, at the front or the back. */
  method SolveCrossEdgeInBottomMiddle(ml: CubeMoveList) returns (solved: bool)
    requires ml.Valid()
    modifies ml, ml.mCube.mCube
    ensures solved <==> BottomMiddleMoves(old(ml.Snapshot()).faces).Some?
    ensures ml.Snapshot() == CommitIfSome(ml.mCube.engine, old(ml.Snapshot()), BottomMiddleMoves(old(ml.Snapshot()).faces))
  {
    var moves := BottomMiddleMoves(ml.mCube.State());
    if moves.Some? {
      ml.PushMoves(moves.value);
      ml.AcceptPendingMoves();
      return true;
    }
    return false;
  }

  /**
   * The moves for the cross edge of the right face at the back (`back`) or
   * the front of the top face: a top turn and a half right turn when the
   * bottom colour faces up; when it faces sideways, a back or front turn and
   * a quarter right turn, and the back or front turned back when `restore`.
   */
  function TopMiddleCase(back: bool, inverted: bool, restore: bool): seq<Move>
  {
    if back then
      if !inverted then [Move.Up, Move.Right2]
      else [Move.BackPrime, Move.Right] + (if restore then [Move.Back] else [])
    else
      if !inverted then [Move.UpPrime, Move.Right2]
      else [Move.Front, Move.RightPrime] + (if restore then [Move.FrontPrime] else [])
  }

  /**
   * The moves SolveCrossEdgeInTopMiddle pushes when the cross edge of the
   * right face is at the back or the front of the top face; None when it is
   * at neither. The back or front face is turned back when its own cross
   * edge was solved.
   */
  function TopMiddleMoves(s: CubeFaces): (r: Option<seq<Move>>)
    ensures r.Some? <==> EdgeShows(s, Face.Top, TopEdge, BottomColor, CenterOf(s, Face.Right)) ||
                         EdgeShows(s, Face.Top, BottomEdge, BottomColor, CenterOf(s, Face.Right))
  {
    var color := CenterOf(s, Face.Right);
    var back := IsEdgeInPosition(s, Face.Top, TopEdge, BottomColor, color);
    var front := IsEdgeInPosition(s, Face.Top, BottomEdge, BottomColor, color);
    if back.found then
      Some(TopMiddleCase(true, back.isInverted == Some(true), IsFaceCrossSolved(s, Face.Back)))
    else if front.found then
      Some(TopMiddleCase(false, front.isInverted == Some(true), IsFaceCrossSolved(s, Face.Front)))
    else None
  }

  /**
   * The top-middle moves carry the bottom-coloured sticker, on the top face
   * or on the side face next to it, to the right of the bottom face; and the
   * back or front face's cross edge stays or comes back when it is restored.
   */
  lemma TopMiddleCaseMeaning(back: bool, inverted: bool, restore: bool)
    ensures var edge := if back then TopEdge else BottomEdge;
      var side := if back then Face.Back else Face.Front;
      var white := if inverted then FaceEdge(side, TopEdge) else FaceEdge(Face.Top, edge);
      var ms := TopMiddleCase(back, inverted, restore);
      CarriesPiece(ms, white, FaceEdge(Face.Bottom, RightEdge)) &&
      (!inverted || restore ==> CarriesPiece(ms, FaceEdge(side, BottomEdge), FaceEdge(side, BottomEdge)))
  {
    var side := if back then Face.Back else Face.Front;
    var br := FaceEdge(Face.Bottom, RightEdge);
    var sb := FaceEdge(side, BottomEdge);
    if !inverted {
      TopMiddleUprightCarries(back);
      TopMiddleUprightKeeps(back);
    } else {
      var a := if back then [Move.BackPrime, Move.Right] else [Move.Front, Move.RightPrime];
      var fix: seq<Move> := if !restore then [] else if back then [Move.Back] else [Move.FrontPrime];
      var turned := if back then FaceEdge(Face.Back, RightEdge) else FaceEdge(Face.Front, LeftEdge);
      TopMiddleInvertedCarries(back);
      if restore {
        TopMiddleRestoreCarries(back);
        PiecePair(a, fix, FaceEdge(side, TopEdge), br, br);
        TopMiddleInvertedTurns(back);
        TopMiddleRestoreReturns(back);
        PiecePair(a, fix, sb, turned, sb);
      } else {
        PieceAlong(fix, [br]);
        PiecePair(a, fix, FaceEdge(side, TopEdge), br, br);
      }
    }
  }

  /** An upright edge at the back or front of the top face goes over the top and down on the right. */
  lemma TopMiddleUprightCarries(back: bool)
    ensures var edge := if back then TopEdge else BottomEdge;
      CarriesPiece(TopMiddleCase(back, false, false), FaceEdge(Face.Top, edge), FaceEdge(Face.Bottom, RightEdge))
  {
    var edge := if back then TopEdge else BottomEdge;
    var turn := if back then Move.Up else Move.UpPrime;
    PieceAlong([turn, Move.Right2], [FaceEdge(Face.Top, edge), FaceEdge(Face.Top, RightEdge), FaceEdge(Face.Bottom, RightEdge)]);
  }

  /** The moves for an upright edge leave the bottom edge of its own side alone. */
  lemma TopMiddleUprightKeeps(back: bool)
    ensures var sb := FaceEdge(if back then Face.Back else Face.Front, BottomEdge);
      CarriesPiece(TopMiddleCase(back, false, false), sb, sb)
  {
    var sb := FaceEdge(if back then Face.Back else Face.Front, BottomEdge);
    var turn := if back then Move.Up else Move.UpPrime;
    PieceAlong([turn, Move.Right2], [sb, sb, sb]);
  }

  /** An inverted edge at the back or front goes down its own side and round into the bottom right. */
  lemma TopMiddleInvertedCarries(back: bool)
    ensures var side := if back then Face.Back else Face.Front;
      var a := if back then [Move.BackPrime, Move.Right] else [Move.Front, Move.RightPrime];
      CarriesPiece(a, FaceEdge(side, TopEdge), FaceEdge(Face.Bottom, RightEdge))
  {
    var side := if back then Face.Back else Face.Front;
    var a := if back then [Move.BackPrime, Move.Right] else [Move.Front, Move.RightPrime];
    var mid := if back then FaceEdge(Face.Back, LeftEdge) else FaceEdge(Face.Front, RightEdge);
    PieceAlong(a, [FaceEdge(side, TopEdge), mid, FaceEdge(Face.Bottom, RightEdge)]);
  }

  /** The moves for an inverted edge turn the bottom edge of its own side aside. */
  lemma TopMiddleInvertedTurns(back: bool)
    ensures var sb := FaceEdge(if back then Face.Back else Face.Front, BottomEdge);
      var a := if back then [Move.BackPrime, Move.Right] else [Move.Front, Move.RightPrime];
      var turned := if back then FaceEdge(Face.Back, RightEdge) else FaceEdge(Face.Front, LeftEdge);
      CarriesPiece(a, sb, turned)
  {
    var sb := FaceEdge(if back then Face.Back else Face.Front, BottomEdge);
    var a := if back then [Move.BackPrime, Move.Right] else [Move.Front, Move.RightPrime];
    var turned := if back then FaceEdge(Face.Back, RightEdge) else FaceEdge(Face.Front, LeftEdge);
    PieceAlong(a, [sb, turned, turned]);
  }

  /** Turning the side back leaves the solved edge at the bottom right in place. */
  lemma TopMiddleRestoreCarries(back: bool)
    ensures CarriesPiece(if back then [Move.Back] else [Move.FrontPrime], FaceEdge(Face.Bottom, RightEdge), FaceEdge(Face.Bottom, RightEdge))
  {
    var br := FaceEdge(Face.Bottom, RightEdge);
    PieceAlong(if back then [Move.Back] else [Move.FrontPrime], [br, br]);
  }

  /** Turning the side back returns its own bottom edge. */
  lemma TopMiddleRestoreReturns(back: bool)
    ensures var sb := FaceEdge(if back then Face.Back else Face.Front, BottomEdge);
      var turned := if back then FaceEdge(Face.Back, RightEdge) else FaceEdge(Face.Front, LeftEdge);
      CarriesPiece(if back then [Move.Back] else [Move.FrontPrime], turned, sb)
  {
    var sb := FaceEdge(if back then Face.Back else Face.Front, BottomEdge);
    var turned := if back then FaceEdge(Face.Back, RightEdge) else FaceEdge(Face.Front, LeftEdge);
    PieceAlong(if back then [Move.Back] else [Move.FrontPrime], [turned, sb]);
  }

  /**
   * The top-middle moves solve the cross edge of the right face, and when
   * they turn the back or front face whose cross edge was solved, that edge
   * is back in place.
   */
  lemma TopMiddleMeaning(s: CubeFaces)
    requires TopMiddleMoves(s).Some? && CenterOf(s, Face.Right) != BottomColor
    ensures var back := EdgeShows(s, Face.Top, TopEdge, BottomColor, CenterOf(s, Face.Right));
      var edge := if back then TopEdge else BottomEdge;
      var side := if back then Face.Back else Face.Front;
      var ms := TopMiddleMoves(s).value;
      CarriesPiece(ms, StickerShowing(s, Face.Top, edge, BottomColor), FaceEdge(Face.Bottom, RightEdge)) &&
      (IsFaceCrossSolved(s, side) ==> CarriesPiece(ms, FaceEdge(side, BottomEdge), FaceEdge(side, BottomEdge)))
  {
    var color := CenterOf(s, Face.Right);
    var back := IsEdgeInPosition(s, Face.Top, TopEdge, BottomColor, color).found;
    var edge := if back then TopEdge else BottomEdge;
    var side := if back then Face.Back else Face.Front;
    var m := IsEdgeInPosition(s, Face.Top, edge, BottomColor, color);
    TopMiddleCaseMeaning(back, m.isInverted == Some(true), IsFaceCrossSolved(s, side));
  }

  /** Solves the cross edge of the right face when it is in the top layer, at the back or the front. */
  method SolveCrossEdgeInTopMiddle(ml: CubeMoveList) returns (solved: bool)
    requires ml.Valid()
    modifies ml, ml.mCube.mCube
    ensures solved <==> TopMiddleMoves(old(ml.Snapshot()).faces).Some?
    ensures ml.Snapshot() == CommitIfSome(ml.mCube.engine, old(ml.Snapshot()), TopMiddleMoves(old(ml.Snapshot()).faces))
  {
    var moves := TopMiddleMoves(ml.mCube.State());
    if moves.Some? {
      ml.PushMoves(moves.value);
      ml.AcceptPendingMoves();
      return true;
    }
    return false;
  }

  /**
   * What SolveCrossFace does: nothing, returning false, when the face's
   * cross edge is solved; otherwise it brings the face to the right and
   * tries, in order, the bottom-middle case, the top-middle case, and the
   * left-face and right-face cases, returning true.
   */
  function CrossFaceResult(e: Engine, st: ListState, face: Face): (r: (bool, ListState))
    ensures !r.0 <==> IsFaceCrossSolved(st.faces, face)
    ensures !r.0 ==> r.1 == st
  {
    if IsFaceCrossSolved(st.faces, face) then (false, st)
    else
      var rotated := PushedIfSome(e, st, SideToRightMove(face));
      var bottom := BottomMiddleMoves(rotated.faces);
      if bottom.Some? then (true, Committed(e, rotated, bottom.value))
      else
        var top := TopMiddleMoves(rotated.faces);
        if top.Some? then (true, Committed(e, rotated, top.value))
        else
          var left := LeftFaceUpTo(e, rotated, CenterOf(rotated.faces, Face.Right), 4);
          (true, CommitIfSome(e, left, RightFaceMoves(left.faces, CenterOf(left.faces, Face.Right),
                                                      AlgMoves(e, SolveInvertedEdge))))
  }

  lemma CrossFaceAdvances(e: Engine, origin: CubeFaces, st: ListState, face: Face)
    ensures Advances(e, origin, st, CrossFaceResult(e, st, face).1)
  {
    PushedAdvances(e, origin, st, []);
    if !IsFaceCrossSolved(st.faces, face) {
      var rotated := PushedIfSome(e, st, SideToRightMove(face));
      IfSomeAdvances(e, origin, st, SideToRightMove(face), None);
      var bottom := BottomMiddleMoves(rotated.faces);
      var top := TopMiddleMoves(rotated.faces);
      IfSomeAdvances(e, origin, rotated, None, bottom);
      IfSomeAdvances(e, origin, rotated, None, top);
      var left := LeftFaceUpTo(e, rotated, CenterOf(rotated.faces, Face.Right), 4);
      LeftFaceUpToAdvances(e, origin, rotated, CenterOf(rotated.faces, Face.Right), 4);
      var right := RightFaceMoves(left.faces, CenterOf(left.faces, Face.Right), AlgMoves(e, SolveInvertedEdge));
      IfSomeAdvances(e, origin, left, None, right);
      AdvancesTrans(e, origin, rotated, left, CommitIfSome(e, left, right));
      AdvancesTrans(e, origin, st, rotated, CrossFaceResult(e, st, face).1);
    }
  }

  /** Solves the cross edge of one side face; false when it was solved already. */
  method SolveCrossFace(ml: CubeMoveList, face: Face) returns (solved: bool)
    requires ml.Valid()
    modifies ml, ml.mCube.mCube
    ensures (solved, ml.Snapshot()) == CrossFaceResult(ml.mCube.engine, old(ml.Snapshot()), face)
  {
    if IsFaceCrossSolved(ml.mCube.State(), face) {
      return false;
    }
    RotateSideFaceToRight(ml, face);
    solved := SolveCrossEdgeInBottomMiddle(ml);
    if solved {
      return;
    }
    solved := SolveCrossEdgeInTopMiddle(ml);
    if solved {
      return;
    }
    SolveCrossEdgeOnLeftFace(ml);
    SolveCrossEdgeOnRightFace(ml);
    solved := true;
  }

  /**
   * One round of SolveCross: the right, front, back and left faces are tried
   * in that order until one needs solving. It solves none exactly when all
   * four cross edges are solved, and then changes nothing.
   */
  function CrossRound(e: Engine, st: ListState): (r: (bool, ListState))
    ensures !r.0 <==> forall f :: IsSideFace(f) ==> IsFaceCrossSolved(st.faces, f)
    ensures !r.0 ==> r.1 == st
  {
    var right := CrossFaceResult(e, st, Face.Right);
    if right.0 then right
    else
      var front := CrossFaceResult(e, right.1, Face.Front);
      if front.0 then front
      else
        var back := CrossFaceResult(e, front.1, Face.Back);
        if back.0 then back else CrossFaceResult(e, back.1, Face.Left)
  }

  /** The move list after SolveCross's loop, entered with `counter` faces solved. */
  function CrossLoop(e: Engine, st: ListState, counter: nat): ListState
    requires counter <= 4
    decreases 4 - counter
  {
    if counter == 4 then st
    else
      var round := CrossRound(e, st);
      if round.0 then CrossLoop(e, round.1, counter + 1) else round.1
  }

  lemma {:induction false} CrossLoopAdvances(e: Engine, origin: CubeFaces, st: ListState, counter: nat)
    requires counter <= 4
    ensures Advances(e, origin, st, CrossLoop(e, st, counter))
    decreases 4 - counter
  {
    PushedAdvances(e, origin, st, []);
    if counter < 4 {
      var right := CrossFaceResult(e, st, Face.Right);
      var front := CrossFaceResult(e, right.1, Face.Front);
      var back := CrossFaceResult(e, front.1, Face.Back);
      CrossFaceAdvances(e, origin, st, Face.Right);
      CrossFaceAdvances(e, origin, right.1, Face.Front);
      CrossFaceAdvances(e, origin, front.1, Face.Back);
      CrossFaceAdvances(e, origin, back.1, Face.Left);
      AdvancesTrans(e, origin, st, right.1, front.1);
      AdvancesTrans(e, origin, st, front.1, back.1);
      AdvancesTrans(e, origin, st, back.1, CrossFaceResult(e, back.1, Face.Left).1);
      var round := CrossRound(e, st);
      if round.0 {
        CrossLoopAdvances(e, origin, round.1, counter + 1);
        AdvancesTrans(e, origin, st, round.1, CrossLoop(e, round.1, counter + 1));
      }
    }
  }

  /**
   * Solves the cross: side faces are solved one at a time, at most four
   * times, until a round finds nothing to solve. True when moves were
   * committed.
   */
  method SolveCross(cube: Cube) returns (solvedAny: bool)
    requires cube.Valid()
    modifies cube.mCube
    ensures var st := CrossLoop(cube.engine, ListState([], [], old(cube.State())), 0);
      cube.State() == st.faces && (solvedAny <==> |st.moves| > 0)
    ensures (forall f :: IsSideFace(f) ==> IsFaceCrossSolved(old(cube.State()), f)) ==>
      !solvedAny && cube.State() == old(cube.State())
  {
    var moveList := new CubeMoveList(cube);
    ghost var start := moveList.Snapshot();
    var faceSolveCounter := 0;
    while faceSolveCounter < 4
      invariant 0 <= faceSolveCounter <= 4 && moveList.mCube == cube && moveList.Valid()
      invariant CrossLoop(cube.engine, moveList.Snapshot(), faceSolveCounter) == CrossLoop(cube.engine, start, 0)
      decreases 4 - faceSolveCounter
    {
      var neededSolve := SolveCrossRound(moveList);
      if !neededSolve {
        break;
      }
      faceSolveCounter := faceSolveCounter + 1;
    }
    solvedAny := moveList.GetNumMoves() > 0;
  }

  /** The body of SolveCross's loop: the first side face, in the order right, front, back, left, that needs solving is solved. */
  method SolveCrossRound(ml: CubeMoveList) returns (neededSolve: bool)
    requires ml.Valid()
    modifies ml, ml.mCube.mCube
    ensures (neededSolve, ml.Snapshot()) == CrossRound(ml.mCube.engine, old(ml.Snapshot()))
  {
    neededSolve := SolveCrossFace(ml, Face.Right);
    if neededSolve {
      return;
    }
    neededSolve := SolveCrossFace(ml, Face.Front);
    if neededSolve {
      return;
    }
    neededSolve := SolveCrossFace(ml, Face.Back);
    if neededSolve {
      return;
    }
    neededSolve := SolveCrossFace(ml, Face.Left);
  }
}

// The move sequences the F2L positioning steps of src/CfopSolver.cpp push,
// and what they do to the edge pieces under the standard reading of cube
// notation: each keeps the four cross edges where they are, and those meant
// to take an edge out of a middle slot bring it to the top layer.

module F2lMoves {
  import opened CubeDefs
  import opened Geometry
  import opened Cross

  // ---------------------------------------------------------------------
  // Keeping the cross

  /** The moves put each of the four cross edges back where it was. */
  predicate KeepsCross(ms: seq<Move>)
  {
    forall f :: IsSideFace(f) ==> CarriesPiece(ms, FaceEdge(f, BottomEdge), FaceEdge(f, BottomEdge))
  }

  /** The edge piece with a sticker at p ends in the top layer. */
  predicate EndsOnTop(ms: seq<Move>, p: FaceEdge)
  {
    var q := CarryStickers(ms, p);
    q.Some? && (q.value.face == Face.Top || GetAdjacentEdge(q.value.face, q.value.edge).face == Face.Top)
  }

  // ---------------------------------------------------------------------
  // The positioning moves

  /** The front-left slot taken up through the left face: lifts a corner or an edge found there. */
  const LeftCornerLift: seq<Move> := [Move.LeftPrime, Move.UpPrime, Move.Left]

  /** The back-left corner brought up behind the right face. */
  const BackLeftCornerLift: seq<Move> := [Move.Y, Move.Right, Move.Up, Move.RightPrime, Move.YPrime]

  /** The back-right corner brought up opposite the slot. */
  const BackRightCornerLift: seq<Move> := [Move.YPrime, Move.LeftPrime, Move.Up2, Move.Left, Move.Y]

  /** The front-left edge taken up with the corner above the slot. */
  const FrontLeftEdgeLift: seq<Move> := [Move.YPrime, Move.Right, Move.UpPrime, Move.RightPrime, Move.Y]

  /** The edge from the slot behind the right face taken to the front of the top face. */
  const BackLeftEdgeToFront: seq<Move> := [Move.RightPrime, Move.Up, Move.Right]

  /** The edge from the slot behind the right face taken to the back of the top face. */
  const BackLeftEdgeToBack: seq<Move> := [Move.RightPrime, Move.UpPrime, Move.Right]

  /** The edge from the slot behind the left face taken up. */
  const BackRightEdgeLift: seq<Move> := [Move.Left, Move.UpPrime, Move.LeftPrime]

  /** The edge from the slot behind the left face taken up, then the top turned. */
  const BackRightEdgeLiftTurned: seq<Move> := [Move.Left, Move.UpPrime, Move.LeftPrime, Move.Up]

  /** Doing nothing keeps the cross. */
  lemma NoMovesKeepCross()
    ensures KeepsCross([])
  {
  }

  /** A turn of the top face keeps the cross. */
  lemma TopTurnKeepsCross(m: Move)
    requires m == Move.Up || m == Move.UpPrime || m == Move.Up2
    ensures KeepsCross([m])
  {
    forall f | IsSideFace(f)
      ensures CarriesPiece([m], FaceEdge(f, BottomEdge), FaceEdge(f, BottomEdge))
    {
      PieceAlong([m], [FaceEdge(f, BottomEdge), FaceEdge(f, BottomEdge)]);
    }
  }

  lemma LeftCornerLiftKeepsCross()
    ensures KeepsCross(LeftCornerLift)
  {
    forall f | IsSideFace(f)
      ensures CarriesPiece(LeftCornerLift, FaceEdge(f, BottomEdge), FaceEdge(f, BottomEdge))
    {
      LeftCornerLiftKeepsCrossEdge(f);
    }
  }

  lemma LeftCornerLiftKeepsCrossEdge(f: Face)
    requires IsSideFace(f)
    ensures CarriesPiece(LeftCornerLift, FaceEdge(f, BottomEdge), FaceEdge(f, BottomEdge))
  {
    if f == Face.Front {
      PieceAlong(LeftCornerLift, [FaceEdge(Face.Front, BottomEdge), FaceEdge(Face.Front, BottomEdge), FaceEdge(Face.Front, BottomEdge), FaceEdge(Face.Front, BottomEdge)]);
    } else if f == Face.Right {
      PieceAlong(LeftCornerLift, [FaceEdge(Face.Right, BottomEdge), FaceEdge(Face.Right, BottomEdge), FaceEdge(Face.Right, BottomEdge), FaceEdge(Face.Right, BottomEdge)]);
    } else if f == Face.Back {
      PieceAlong(LeftCornerLift, [FaceEdge(Face.Back, BottomEdge), FaceEdge(Face.Back, BottomEdge), FaceEdge(Face.Back, BottomEdge), FaceEdge(Face.Back, BottomEdge)]);
    } else {
      PieceAlong(LeftCornerLift, [FaceEdge(Face.Left, BottomEdge), FaceEdge(Face.Left, RightEdge), FaceEdge(Face.Left, RightEdge), FaceEdge(Face.Left, BottomEdge)]);
    }
  }

  lemma LeftCornerLiftLiftsEdge()
    ensures EndsOnTop(LeftCornerLift, FaceEdge(Face.Front, LeftEdge))
  {
    PieceAlong(LeftCornerLift, [FaceEdge(Face.Front, LeftEdge), FaceEdge(Face.Top, LeftEdge), FaceEdge(Face.Top, BottomEdge), FaceEdge(Face.Top, BottomEdge)]);
  }

  lemma BackLeftCornerLiftKeepsCross()
    ensures KeepsCross(BackLeftCornerLift)
  {
    forall f | IsSideFace(f)
      ensures CarriesPiece(BackLeftCornerLift, FaceEdge(f, BottomEdge), FaceEdge(f, BottomEdge))
    {
      if f == Face.Front {
        BackLeftCornerLiftKeepsFront();
      } else if f == Face.Right {
        BackLeftCornerLiftKeepsRight();
      } else if f == Face.Back {
        BackLeftCornerLiftKeepsBack();
      } else {
        BackLeftCornerLiftKeepsLeft();
      }
    }
  }

  lemma BackLeftCornerLiftKeepsFront()
    ensures CarriesPiece(BackLeftCornerLift, FaceEdge(Face.Front, BottomEdge), FaceEdge(Face.Front, BottomEdge))
  {
    PieceAlong(BackLeftCornerLift, [FaceEdge(Face.Front, BottomEdge), FaceEdge(Face.Left, BottomEdge), FaceEdge(Face.Left, BottomEdge), FaceEdge(Face.Left, BottomEdge), FaceEdge(Face.Left, BottomEdge), FaceEdge(Face.Front, BottomEdge)]);
  }

  lemma BackLeftCornerLiftKeepsRight()
    ensures CarriesPiece(BackLeftCornerLift, FaceEdge(Face.Right, BottomEdge), FaceEdge(Face.Right, BottomEdge))
  {
    PieceAlong(BackLeftCornerLift, [FaceEdge(Face.Right, BottomEdge), FaceEdge(Face.Front, BottomEdge), FaceEdge(Face.Front, BottomEdge), FaceEdge(Face.Front, BottomEdge), FaceEdge(Face.Front, BottomEdge), FaceEdge(Face.Right, BottomEdge)]);
  }

  lemma BackLeftCornerLiftKeepsBack()
    ensures CarriesPiece(BackLeftCornerLift, FaceEdge(Face.Back, BottomEdge), FaceEdge(Face.Back, BottomEdge))
  {
    PieceAlong(BackLeftCornerLift, [FaceEdge(Face.Back, BottomEdge), FaceEdge(Face.Right, BottomEdge), FaceEdge(Face.Right, LeftEdge), FaceEdge(Face.Right, LeftEdge), FaceEdge(Face.Right, BottomEdge), FaceEdge(Face.Back, BottomEdge)]);
  }

  lemma BackLeftCornerLiftKeepsLeft()
    ensures CarriesPiece(BackLeftCornerLift, FaceEdge(Face.Left, BottomEdge), FaceEdge(Face.Left, BottomEdge))
  {
    PieceAlong(BackLeftCornerLift, [FaceEdge(Face.Left, BottomEdge), FaceEdge(Face.Back, BottomEdge), FaceEdge(Face.Back, BottomEdge), FaceEdge(Face.Back, BottomEdge), FaceEdge(Face.Back, BottomEdge), FaceEdge(Face.Left, BottomEdge)]);
  }

  lemma BackRightCornerLiftKeepsCross()
    ensures KeepsCross(BackRightCornerLift)
  {
    forall f | IsSideFace(f)
      ensures CarriesPiece(BackRightCornerLift, FaceEdge(f, BottomEdge), FaceEdge(f, BottomEdge))
    {
      if f == Face.Front {
        BackRightCornerLiftKeepsFront();
      } else if f == Face.Right {
        BackRightCornerLiftKeepsRight();
      } else if f == Face.Back {
        BackRightCornerLiftKeepsBack();
      } else {
        BackRightCornerLiftKeepsLeft();
      }
    }
  }

  lemma BackRightCornerLiftKeepsFront()
    ensures CarriesPiece(BackRightCornerLift, FaceEdge(Face.Front, BottomEdge), FaceEdge(Face.Front, BottomEdge))
  {
    PieceAlong(BackRightCornerLift, [FaceEdge(Face.Front, BottomEdge), FaceEdge(Face.Right, BottomEdge), FaceEdge(Face.Right, BottomEdge), FaceEdge(Face.Right, BottomEdge), FaceEdge(Face.Right, BottomEdge), FaceEdge(Face.Front, BottomEdge)]);
  }

  lemma BackRightCornerLiftKeepsRight()
    ensures CarriesPiece(BackRightCornerLift, FaceEdge(Face.Right, BottomEdge), FaceEdge(Face.Right, BottomEdge))
  {
    PieceAlong(BackRightCornerLift, [FaceEdge(Face.Right, BottomEdge), FaceEdge(Face.Back, BottomEdge), FaceEdge(Face.Back, BottomEdge), FaceEdge(Face.Back, BottomEdge), FaceEdge(Face.Back, BottomEdge), FaceEdge(Face.Right, BottomEdge)]);
  }

  lemma BackRightCornerLiftKeepsBack()
    ensures CarriesPiece(BackRightCornerLift, FaceEdge(Face.Back, BottomEdge), FaceEdge(Face.Back, BottomEdge))
  {
    PieceAlong(BackRightCornerLift, [FaceEdge(Face.Back, BottomEdge), FaceEdge(Face.Left, BottomEdge), FaceEdge(Face.Left, RightEdge), FaceEdge(Face.Left, RightEdge), FaceEdge(Face.Left, BottomEdge), FaceEdge(Face.Back, BottomEdge)]);
  }

  lemma BackRightCornerLiftKeepsLeft()
    ensures CarriesPiece(BackRightCornerLift, FaceEdge(Face.Left, BottomEdge), FaceEdge(Face.Left, BottomEdge))
  {
    PieceAlong(BackRightCornerLift, [FaceEdge(Face.Left, BottomEdge), FaceEdge(Face.Front, BottomEdge), FaceEdge(Face.Front, BottomEdge), FaceEdge(Face.Front, BottomEdge), FaceEdge(Face.Front, BottomEdge), FaceEdge(Face.Left, BottomEdge)]);
  }

  lemma FrontLeftEdgeLiftKeepsCross()
    ensures KeepsCross(FrontLeftEdgeLift)
  {
    forall f | IsSideFace(f)
      ensures CarriesPiece(FrontLeftEdgeLift, FaceEdge(f, BottomEdge), FaceEdge(f, BottomEdge))
    {
      if f == Face.Front {
        FrontLeftEdgeLiftKeepsFront();
      } else if f == Face.Right {
        FrontLeftEdgeLiftKeepsRight();
      } else if f == Face.Back {
        FrontLeftEdgeLiftKeepsBack();
      } else {
        FrontLeftEdgeLiftKeepsLeft();
      }
    }
  }

  lemma FrontLeftEdgeLiftKeepsFront()
    ensures CarriesPiece(FrontLeftEdgeLift, FaceEdge(Face.Front, BottomEdge), FaceEdge(Face.Front, BottomEdge))
  {
    PieceAlong(FrontLeftEdgeLift, [FaceEdge(Face.Front, BottomEdge), FaceEdge(Face.Right, BottomEdge), FaceEdge(Face.Right, LeftEdge), FaceEdge(Face.Right, LeftEdge), FaceEdge(Face.Right, BottomEdge), FaceEdge(Face.Front, BottomEdge)]);
  }

  lemma FrontLeftEdgeLiftKeepsRight()
    ensures CarriesPiece(FrontLeftEdgeLift, FaceEdge(Face.Right, BottomEdge), FaceEdge(Face.Right, BottomEdge))
  {
    PieceAlong(FrontLeftEdgeLift, [FaceEdge(Face.Right, BottomEdge), FaceEdge(Face.Back, BottomEdge), FaceEdge(Face.Back, BottomEdge), FaceEdge(Face.Back, BottomEdge), FaceEdge(Face.Back, BottomEdge), FaceEdge(Face.Right, BottomEdge)]);
  }

  lemma FrontLeftEdgeLiftKeepsBack()
    ensures CarriesPiece(FrontLeftEdgeLift, FaceEdge(Face.Back, BottomEdge), FaceEdge(Face.Back, BottomEdge))
  {
    PieceAlong(FrontLeftEdgeLift, [FaceEdge(Face.Back, BottomEdge), FaceEdge(Face.Left, BottomEdge), FaceEdge(Face.Left, BottomEdge), FaceEdge(Face.Left, BottomEdge), FaceEdge(Face.Left, BottomEdge), FaceEdge(Face.Back, BottomEdge)]);
  }

  lemma FrontLeftEdgeLiftKeepsLeft()
    ensures CarriesPiece(FrontLeftEdgeLift, FaceEdge(Face.Left, BottomEdge), FaceEdge(Face.Left, BottomEdge))
  {
    PieceAlong(FrontLeftEdgeLift, [FaceEdge(Face.Left, BottomEdge), FaceEdge(Face.Front, BottomEdge), FaceEdge(Face.Front, BottomEdge), FaceEdge(Face.Front, BottomEdge), FaceEdge(Face.Front, BottomEdge), FaceEdge(Face.Left, BottomEdge)]);
  }

  lemma FrontLeftEdgeLiftLiftsEdge()
    ensures EndsOnTop(FrontLeftEdgeLift, FaceEdge(Face.Front, LeftEdge))
  {
    PieceAlong(FrontLeftEdgeLift, [FaceEdge(Face.Front, LeftEdge), FaceEdge(Face.Right, LeftEdge), FaceEdge(Face.Right, TopEdge), FaceEdge(Face.Back, TopEdge), FaceEdge(Face.Back, TopEdge), FaceEdge(Face.Right, TopEdge)]);
  }

  lemma BackLeftEdgeToFrontKeepsCross()
    ensures KeepsCross(BackLeftEdgeToFront)
  {
    forall f | IsSideFace(f)
      ensures CarriesPiece(BackLeftEdgeToFront, FaceEdge(f, BottomEdge), FaceEdge(f, BottomEdge))
    {
      BackLeftEdgeToFrontKeepsCrossEdge(f);
    }
  }

  lemma BackLeftEdgeToFrontKeepsCrossEdge(f: Face)
    requires IsSideFace(f)
    ensures CarriesPiece(BackLeftEdgeToFront, FaceEdge(f, BottomEdge), FaceEdge(f, BottomEdge))
  {
    if f == Face.Front {
      PieceAlong(BackLeftEdgeToFront, [FaceEdge(Face.Front, BottomEdge), FaceEdge(Face.Front, BottomEdge), FaceEdge(Face.Front, BottomEdge), FaceEdge(Face.Front, BottomEdge)]);
    } else if f == Face.Right {
      PieceAlong(BackLeftEdgeToFront, [FaceEdge(Face.Right, BottomEdge), FaceEdge(Face.Right, RightEdge), FaceEdge(Face.Right, RightEdge), FaceEdge(Face.Right, BottomEdge)]);
    } else if f == Face.Back {
      PieceAlong(BackLeftEdgeToFront, [FaceEdge(Face.Back, BottomEdge), FaceEdge(Face.Back, BottomEdge), FaceEdge(Face.Back, BottomEdge), FaceEdge(Face.Back, BottomEdge)]);
    } else {
      PieceAlong(BackLeftEdgeToFront, [FaceEdge(Face.Left, BottomEdge), FaceEdge(Face.Left, BottomEdge), FaceEdge(Face.Left, BottomEdge), FaceEdge(Face.Left, BottomEdge)]);
    }
  }

  lemma BackLeftEdgeToFrontLiftsEdge()
    ensures EndsOnTop(BackLeftEdgeToFront, FaceEdge(Face.Back, LeftEdge))
  {
    PieceAlong(BackLeftEdgeToFront, [FaceEdge(Face.Back, LeftEdge), FaceEdge(Face.Top, RightEdge), FaceEdge(Face.Top, BottomEdge), FaceEdge(Face.Top, BottomEdge)]);
  }

  lemma BackLeftEdgeToBackKeepsCross()
    ensures KeepsCross(BackLeftEdgeToBack)
  {
    forall f | IsSideFace(f)
      ensures CarriesPiece(BackLeftEdgeToBack, FaceEdge(f, BottomEdge), FaceEdge(f, BottomEdge))
    {
      BackLeftEdgeToBackKeepsCrossEdge(f);
    }
  }

  lemma BackLeftEdgeToBackKeepsCrossEdge(f: Face)
    requires IsSideFace(f)
    ensures CarriesPiece(BackLeftEdgeToBack, FaceEdge(f, BottomEdge), FaceEdge(f, BottomEdge))
  {
    if f == Face.Front {
      PieceAlong(BackLeftEdgeToBack, [FaceEdge(Face.Front, BottomEdge), FaceEdge(Face.Front, BottomEdge), FaceEdge(Face.Front, BottomEdge), FaceEdge(Face.Front, BottomEdge)]);
    } else if f == Face.Right {
      PieceAlong(BackLeftEdgeToBack, [FaceEdge(Face.Right, BottomEdge), FaceEdge(Face.Right, RightEdge), FaceEdge(Face.Right, RightEdge), FaceEdge(Face.Right, BottomEdge)]);
    } else if f == Face.Back {
      PieceAlong(BackLeftEdgeToBack, [FaceEdge(Face.Back, BottomEdge), FaceEdge(Face.Back, BottomEdge), FaceEdge(Face.Back, BottomEdge), FaceEdge(Face.Back, BottomEdge)]);
    } else {
      PieceAlong(BackLeftEdgeToBack, [FaceEdge(Face.Left, BottomEdge), FaceEdge(Face.Left, BottomEdge), FaceEdge(Face.Left, BottomEdge), FaceEdge(Face.Left, BottomEdge)]);
    }
  }

  lemma BackLeftEdgeToBackLiftsEdge()
    ensures EndsOnTop(BackLeftEdgeToBack, FaceEdge(Face.Back, LeftEdge))
  {
    PieceAlong(BackLeftEdgeToBack, [FaceEdge(Face.Back, LeftEdge), FaceEdge(Face.Top, RightEdge), FaceEdge(Face.Top, TopEdge), FaceEdge(Face.Top, TopEdge)]);
  }

  lemma BackRightEdgeLiftKeepsCross()
    ensures KeepsCross(BackRightEdgeLift)
  {
    forall f | IsSideFace(f)
      ensures CarriesPiece(BackRightEdgeLift, FaceEdge(f, BottomEdge), FaceEdge(f, BottomEdge))
    {
      BackRightEdgeLiftKeepsCrossEdge(f);
    }
  }

  lemma BackRightEdgeLiftKeepsCrossEdge(f: Face)
    requires IsSideFace(f)
    ensures CarriesPiece(BackRightEdgeLift, FaceEdge(f, BottomEdge), FaceEdge(f, BottomEdge))
  {
    if f == Face.Front {
      PieceAlong(BackRightEdgeLift, [FaceEdge(Face.Front, BottomEdge), FaceEdge(Face.Front, BottomEdge), FaceEdge(Face.Front, BottomEdge), FaceEdge(Face.Front, BottomEdge)]);
    } else if f == Face.Right {
      PieceAlong(BackRightEdgeLift, [FaceEdge(Face.Right, BottomEdge), FaceEdge(Face.Right, BottomEdge), FaceEdge(Face.Right, BottomEdge), FaceEdge(Face.Right, BottomEdge)]);
    } else if f == Face.Back {
      PieceAlong(BackRightEdgeLift, [FaceEdge(Face.Back, BottomEdge), FaceEdge(Face.Back, BottomEdge), FaceEdge(Face.Back, BottomEdge), FaceEdge(Face.Back, BottomEdge)]);
    } else {
      PieceAlong(BackRightEdgeLift, [FaceEdge(Face.Left, BottomEdge), FaceEdge(Face.Left, LeftEdge), FaceEdge(Face.Left, LeftEdge), FaceEdge(Face.Left, BottomEdge)]);
    }
  }

  lemma BackRightEdgeLiftLiftsEdge()
    ensures EndsOnTop(BackRightEdgeLift, FaceEdge(Face.Back, RightEdge))
  {
    PieceAlong(BackRightEdgeLift, [FaceEdge(Face.Back, RightEdge), FaceEdge(Face.Top, LeftEdge), FaceEdge(Face.Top, BottomEdge), FaceEdge(Face.Top, BottomEdge)]);
  }

  lemma BackRightEdgeLiftTurnedKeepsCross()
    ensures KeepsCross(BackRightEdgeLiftTurned)
  {
    forall f | IsSideFace(f)
      ensures CarriesPiece(BackRightEdgeLiftTurned, FaceEdge(f, BottomEdge), FaceEdge(f, BottomEdge))
    {
      BackRightEdgeLiftTurnedKeepsCrossEdge(f);
    }
  }

  lemma BackRightEdgeLiftTurnedKeepsCrossEdge(f: Face)
    requires IsSideFace(f)
    ensures CarriesPiece(BackRightEdgeLiftTurned, FaceEdge(f, BottomEdge), FaceEdge(f, BottomEdge))
  {
    if f == Face.Front {
      PieceAlong(BackRightEdgeLiftTurned, [FaceEdge(Face.Front, BottomEdge), FaceEdge(Face.Front, BottomEdge), FaceEdge(Face.Front, BottomEdge), FaceEdge(Face.Front, BottomEdge), FaceEdge(Face.Front, BottomEdge)]);
    } else if f == Face.Right {
      PieceAlong(BackRightEdgeLiftTurned, [FaceEdge(Face.Right, BottomEdge), FaceEdge(Face.Right, BottomEdge), FaceEdge(Face.Right, BottomEdge), FaceEdge(Face.Right, BottomEdge), FaceEdge(Face.Right, BottomEdge)]);
    } else if f == Face.Back {
      PieceAlong(BackRightEdgeLiftTurned, [FaceEdge(Face.Back, BottomEdge), FaceEdge(Face.Back, BottomEdge), FaceEdge(Face.Back, BottomEdge), FaceEdge(Face.Back, BottomEdge), FaceEdge(Face.Back, BottomEdge)]);
    } else {
      PieceAlong(BackRightEdgeLiftTurned, [FaceEdge(Face.Left, BottomEdge), FaceEdge(Face.Left, LeftEdge), FaceEdge(Face.Left, LeftEdge), FaceEdge(Face.Left, BottomEdge), FaceEdge(Face.Left, BottomEdge)]);
    }
  }

  lemma BackRightEdgeLiftTurnedLiftsEdge()
    ensures EndsOnTop(BackRightEdgeLiftTurned, FaceEdge(Face.Back, RightEdge))
  {
    PieceAlong(BackRightEdgeLiftTurned, [FaceEdge(Face.Back, RightEdge), FaceEdge(Face.Top, LeftEdge), FaceEdge(Face.Top, BottomEdge), FaceEdge(Face.Top, BottomEdge), FaceEdge(Face.Top, LeftEdge)]);
  }

  /** A turn of the top face carries a top edge piece round the top by its quarter turns. */
  lemma TopTurnCarriesTopEdge(m: Move, e: EdgePos)
    requires m == Move.Up || m == Move.UpPrime || m == Move.Up2
    ensures CarriesPiece([m], FaceEdge(Face.Top, e), FaceEdge(Face.Top, TurnEdge(e, FaceTurnOf(m).value.1)))
  {
    PieceAlong([m], [FaceEdge(Face.Top, e), FaceEdge(Face.Top, TurnEdge(e, FaceTurnOf(m).value.1))]);
  }
}

// The named algorithms of the FirstTwoLayersAlgorithms class in
// src/CfopSolver.cpp. Each is a line of move notation that the cube's
// ParseMoveNotation turns into moves; the notation is kept as text and its
// reading is left to the engine.

module Algorithms {
  import opened CubeDefs
  import opened CubeState

  datatype Alg =
    | SolveInvertedEdge
    | BasicInsertRightPair | BasicInsertFrontPair | BasicInsertSoloLeftEdge | BasicInsertSoloTopEdge
    | Case1_1 | Case1_2 | Case1_3 | Case1_4 | Case1_5 | Case1_6
    | Case2_1 | Case2_2 | Case2_3 | Case2_4
    | Case3_1 | Case3_2 | Case3_3 | Case3_4
    | IncorrectlyConnected1 | IncorrectlyConnected2 | IncorrectlyConnected3
    | IncorrectlyConnected4 | IncorrectlyConnected5 | IncorrectlyConnected6
    | CornerInPlaceEdgeInU1 | CornerInPlaceEdgeInU2 | CornerInPlaceEdgeInU3
    | CornerInPlaceEdgeInU4 | CornerInPlaceEdgeInU5 | CornerInPlaceEdgeInU6
    | EdgeInPlaceCornerInU1 | EdgeInPlaceCornerInU2 | EdgeInPlaceCornerInU3
    | EdgeInPlaceCornerInU4 | EdgeInPlaceCornerInU5 | EdgeInPlaceCornerInU6
    | EdgeAndCornerInPlace1 | EdgeAndCornerInPlace2 | EdgeAndCornerInPlace3
    | EdgeAndCornerInPlace4 | EdgeAndCornerInPlace5 | EdgeAndCornerInPlace6

  /** The move notation of each algorithm. */
  function Notation(a: Alg): string
  {
    match a
    case SolveInvertedEdge => "Uw R' Uw'"
    case BasicInsertRightPair => "U (R U' R')"
    case BasicInsertFrontPair => "y' U' (R' U R)"
    case BasicInsertSoloLeftEdge => "y' (R' U' R)"
    case BasicInsertSoloTopEdge => "(R U R')"
    case Case1_1 => "U' (R U' R' U) y' (R' U' R)"
    case Case1_2 => "U' (R U R' U) (R U R')"
    case Case1_3 => "U' (R U2 R') d (R' U' R)"
    case Case1_4 => "R' U2 R2 U R2 U R"
    case Case1_5 => "y' U (R' U R U') (R' U' R)"
    case Case1_6 => "U' (R U' R' U) (R U R')"
    case Case2_1 => "(U' R U R') U2 (R U' R')"
    case Case2_2 => "d (R' U' R) U2 (R' U R)"
    case Case2_3 => "U' (R U2 R') U2 (R U' R')"
    case Case2_4 => "d (R' U2 R) U2 (R' U R)"
    case Case3_1 => "U (R U2 R') U (R U' R')"
    case Case3_2 => "y' U' (R' U2 R) U' (R' U R)"
    case Case3_3 => "(R U' R') U2 (R U R')"
    case Case3_4 => "y' U2 (R' U' R) U' (R' U R)"
    case IncorrectlyConnected1 => "y' (R' U R) U2 y (R U R')"
    case IncorrectlyConnected2 => "U F (R U R' U') F' (U R U' R')"
    case IncorrectlyConnected3 => "(R U2 R') U' (R U R')"
    case IncorrectlyConnected4 => "y' (R' U2 R) U (R' U' R)"
    case IncorrectlyConnected5 => "U (R U' R' U') (R U' R' U) (R U' R')"
    case IncorrectlyConnected6 => "y' U' (R' U R U) (R' U R U') (R' U R)"
    case CornerInPlaceEdgeInU1 => "R' F' R U (R U' R') F"
    case CornerInPlaceEdgeInU2 => "U (R U' R') U' (F' U F)"
    case CornerInPlaceEdgeInU3 => "(R U' R' U) (R U' R')"
    case CornerInPlaceEdgeInU4 => "y' (R' U R U') (R' U R)"
    case CornerInPlaceEdgeInU5 => "y' (R' U' R U) (R' U' R)"
    case CornerInPlaceEdgeInU6 => "(R U R' U') (R U R')"
    case EdgeInPlaceCornerInU1 => "(R U' R' U) y' (R' U R)"
    case EdgeInPlaceCornerInU2 => "(U R U' R') (U R U' R') (U R U' R')"
    case EdgeInPlaceCornerInU3 => "(U' R U' R') U2 (R U' R')"
    case EdgeInPlaceCornerInU4 => "U (R U R') U2 (R U R')"
    case EdgeInPlaceCornerInU5 => "(U' R U R') U y' (R' U' R)"
    case EdgeInPlaceCornerInU6 => "U (F' U' F) U' (R U R')"
    case EdgeAndCornerInPlace1 => ""
    case EdgeAndCornerInPlace2 => "(R U' R') d (R' U2 R) U2 (R' U R)"
    case EdgeAndCornerInPlace3 => "(R U' R' U') R U R' U2 (R U' R')"
    case EdgeAndCornerInPlace4 => "(R U' R' U) (R U2 R') U (R U' R')"
    case EdgeAndCornerInPlace5 => "(F' U F) U2 (R U R' U) (R U' R')"
    case EdgeAndCornerInPlace6 => "(R U R' U') (R U' R') U2 y' (R' U' R)"
  }

  /** The moves of an algorithm, as the engine reads its notation. */
  function AlgMoves(e: Engine, a: Alg): seq<Move>
  {
    e.parseMoveNotation(Notation(a))
  }
}

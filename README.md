# CubeSolverCpp in Dafny

A model of the core of CubeSolverCpp, a Rubik's cube solver that follows the
CFOP method: cross, first two layers (F2L), orientation of the last layer
(OLL) and permutation of the last layer (PLL). The model covers:

- the cube state, the `Cube` class of `include/Cube.hpp` and `src/Cube.cpp`.
  It holds six faces of nine stickers in a 6 x 9 `array2`, with the
  colour/face enums, `CubeDimsToIdx`, `GetState`/`SetState`, `ColorOfFace`,
  `FaceOfColor` and the default colour scheme (module `CubeDefs`,
  `CubeState`);
- the single-face rotation primitives of `src/Cube.cpp`: the row and column
  get/set/copy/swap helpers and the three face turns. Each is an imperative
  method that writes cells of that array one at a time and is proved
  against a function on the face's nine cells (module `FaceTurns`);
- the transactional move list `CubeMoveList` of `include/CubeSolver.hpp`: a
  class with a committed log, a pending buffer and the cube it drives. Its
  methods are proved against the functions `Pushed`, `Accepted`,
  `RejectedAsWritten`/`Rejected` and `Committed` on a `ListState` value
  (module `MoveLists`);
- the solver of `src/CfopSolver.cpp`:
  - the geometric tables of `CubeSolveUtils` (module `Geometry`);
  - the cross stage (module `Cross`);
  - F2L: the positioning steps, the case finder, the eight classifiers and
    the dispatch (modules `F2L`, `F2lMoves`, `Algorithms`);
  - the OLL bit-template matcher (module `Oll`);
  - the PLL symbolic matcher (module `Pll`);
  - the orientation-probing search of both, and the two last-layer stages
    (modules `Catalogues`, `LastLayer`).

Every `Execute*` move body and `Cube::ExecuteMove` is empty in this revision
of the source. `Cube::ExecuteMoves`, `Cube::ReverseMoves` and
`Cube::ParseMoveNotation` are only declared (include/Cube.hpp:155, 283,
291-292), although `CubeMoveList::RejectPendingMoves` calls `ExecuteMoves`.
The model defines `ExecuteMoves` as its declaration's comment describes it:
`ExecuteMove` applied to each move in order (`ApplyMoves`). A move is
therefore abstract: each `Cube` carries an
`Engine(execute, reverseMoves, parseMoveNotation)`. Properties that need
moves to be undone assume `ReverseUndoes(engine)`, which says that executing
`reverseMoves(p)` after `p` gives back the state.

For claims about where pieces go, the model has its own sticker-motion model
of the standard move notation (`Geometry.CarrySticker`). It follows a single
edge sticker through a face turn, a slice-free wide move or a whole-cube
rotation, and it is built on the source's `GetAdjacentEdge` table. With it
the model proves that each cross and F2L move sequence carries the wanted
edge piece where the code's comments say. It also proves that each F2L
positioning sequence keeps the four cross edges in place (`KeepsCross`).
This motion model is not taken from the source, whose moves are empty.

`IsCornerInPosition` and `GetAxisForFace` are used by the source but defined
in no file of it. They are fields of a `SolveUtils` parameter. The header
that defines `eFaceCornerPos` and `tCornerDescriptor` is not part of this
model. `CornerPos` and `CornerDescriptor` are declared here, with the
descriptor's fields in the order FaceY, CornerY, FaceX, CornerX, FaceZ,
CornerZ, as the constructor calls and field reads of `CfopSolver.cpp` use
them.

Where the code does something its comments, names or tests evidently do not
intend, the model has both the code as written and a corrected member. The
as-written member comes with a lemma on a concrete input that shows the
difference (see "## Findings"). The solver stages use the corrected members.

## Model

| member | source | states |
|---|---|---|
| CubeDefs.FaceIndex | include/Cube.hpp:109-112 | the integer value of a face is below the six real faces |
| CubeDefs.FaceAt | include/Cube.hpp:31-40 | the cast from an integer below six gives the face of that value |
| CubeDefs.ColorIndex | include/Cube.hpp:109-112 | the integer value of a colour is below the six real colours |
| CubeDefs.ColorAt | include/Cube.hpp:16-25 | the cast from an integer below six gives the colour of that value |
| CubeDefs.FaceIndexInjective | include/Cube.hpp:31-40 | distinct faces have distinct enum values |
| CubeDefs.DefaultFaceOfColor | include/Cube.hpp:203-206 | the default face of a colour has the colour's enum value |
| CubeDefs.DefaultColorOfFace | include/Cube.hpp:216-219 | the default colour of a face has the face's enum value |
| CubeDefs.DefaultCastsInverse | include/Cube.hpp:203-219 | the two default casts are mutual inverses, in both directions |
| CubeDefs.DefaultColorScheme | src/Cube.cpp:439-450 | the scheme the constructor's static asserts demand: yellow top, white bottom, red left, orange right, green front, blue back |
| CubeDefs.CubeDimsToIdx | include/Cube.hpp:114-117 | for x, y in 0..2 the index is below nine, and the index's column is x and its row is y |
| CubeDefs.CubeDimsToIdxBijective | include/Cube.hpp:114-117 | the index is a bijection from {0,1,2} x {0,1,2} onto 0..8 |
| CubeDefs.SolidFace | src/Cube.cpp:462-465 | every cell of a face written with one colour holds that colour |
| CubeDefs.SolvedFaces | src/Cube.cpp:455-467 | in the default state every cell of face f holds DefaultColorOfFace(f) |
| CubeDefs.FaceOfColorFromFirst | include/Cube.hpp:228-241 | the scan from face i finds the first face in enum order whose centre has the colour, or falls back to the default face when none has |
| CubeDefs.SolvedFaceOfColor | tests/CubeStateTests.test.cpp:12-18 | in the default state the face of colour c is DefaultFaceOfColor(c) |
| CubeState.ApplyMovesAppend | include/Cube.hpp:155 | executing a + b is executing a and then b |
| CubeState.ApplyMovesSnoc | include/Cube.hpp:155 | executing a then m is one more execute after a |
| CubeState.FaceOf | include/Cube.hpp:106-107 | the nine cells of a face are that face's row of the array |
| CubeState.FacesOf | include/Cube.hpp:106-107 | the state is the six faces, each its row of the array |
| CubeState.Cube.constructor | src/Cube.cpp:437-453 | a new cube is fresh and in the default solved state |
| CubeState.Cube.SetDefaultState | src/Cube.cpp:455-467 | afterwards every cell of face f holds DefaultColorOfFace(f) |
| CubeState.Cube.GetState | include/Cube.hpp:177-180 | the colour at (x, y) of the face, that is cell 3y + x |
| CubeState.Cube.SetState | include/Cube.hpp:191-194 | the cell written holds the colour and every other cell of every face is unchanged |
| CubeState.Cube.ColorOfFace | include/Cube.hpp:250-254 | the colour of a face is its centre cell (1, 1) |
| CubeState.Cube.FaceOfColor | include/Cube.hpp:228-241 | when some face has centre c, the first such face in enum order; when none has, DefaultFaceOfColor(c) |
| CubeState.Cube.ExecuteMove | include/Cube.hpp:147 | the state becomes the engine's execution of the move |
| CubeState.Cube.ExecuteMoves | include/Cube.hpp:155 | the state becomes the moves executed one after another |
| FaceTurns.RowIndex | src/Cube.cpp:7-12 | a row's value is below three |
| FaceTurns.ColIndex | src/Cube.cpp:14-19 | a column's value is below three |
| FaceTurns.RowRoundTrip | src/Cube.cpp:31-76 | writing back the row just read, with the same reverse flag, changes nothing; reading a written row gives what was written |
| FaceTurns.ColRoundTrip | src/Cube.cpp:143-189 | the same two round trips for columns |
| FaceTurns.RowWrittenFrame | src/Cube.cpp:59-76 | writing a row leaves every cell outside that row as it was |
| FaceTurns.RowCopiedMeaning | src/Cube.cpp:80-97 | copying row src onto row dst puts src's cells, reversed when asked, in dst, and changes no cell outside dst |
| FaceTurns.ColCopiedMeaning | src/Cube.cpp:193-210 | the same for columns |
| FaceTurns.QuarterTurn | src/Cube.cpp:246-258 | the clockwise quarter turn: new(x, y) = old(y, 2 - x) |
| FaceTurns.QuarterTurnBack | tests/CubeStateTests.test.cpp:89-98 | the counter-clockwise quarter turn the tests expect: new(x, y) = old(2 - y, x) |
| FaceTurns.HalfTurn | tests/CubeStateTests.test.cpp:100-105 | the half turn the tests expect: new(x, y) = old(2 - x, 2 - y) |
| FaceTurns.TurnAlgebra | tests/CubeStateTests.test.cpp:78-105 | the turns keep the centre; the quarter turn and the turn back are inverses; two quarter turns make a half turn; four quarter turns, and two half turns, are the identity; three quarter turns are the turn back |
| FaceTurns.TestLayoutCycles | tests/CubeStateTests.test.cpp:62-105 | on the test layouts the quarter turn maps cw0 to cw1 to cw2 to cw3 to cw0, the turn back runs the other way, and the half turn swaps cw0 and cw2 |
| FaceTurns.SameExceptTrans | src/Cube.cpp:246-279 | changing only one face twice changes only that face |
| FaceTurns.WriteLine | src/Cube.cpp:59-76 | writes three colours into a line of cells of one face and leaves every other face alone |
| FaceTurns.CopyLine | src/Cube.cpp:80-97 | copies one line of cells of a face onto another and leaves every other face alone |
| FaceTurns.GetRowData | src/Cube.cpp:31-47 | returns the row's three colours, right to left when reversed |
| FaceTurns.SetRowData | src/Cube.cpp:59-76 | the face becomes the row written, and no other face changes |
| FaceTurns.GetColData | src/Cube.cpp:143-160 | returns the column's three colours, bottom to top when reversed |
| FaceTurns.SetColData | src/Cube.cpp:173-189 | the face becomes the column written, and no other face changes |
| FaceTurns.CopyRowToRow | src/Cube.cpp:80-97 | the face becomes the row copy, and no other face changes |
| FaceTurns.CopyRowToCol | src/Cube.cpp:114-130 | the face becomes the row copied into the column, and no other face changes |
| FaceTurns.CopyColToCol | src/Cube.cpp:193-210 | the face becomes the column copy, and no other face changes |
| FaceTurns.CopyColToRow | src/Cube.cpp:212-229 | the face becomes the column copied into the row, and no other face changes |
| FaceTurns.RowsSwapped | src/Cube.cpp:99-112 | the exchange of two rows: each holds what the other held, and the third row is kept |
| FaceTurns.ColsSwapped | src/Cube.cpp:231-244 | the exchange of two columns: each holds what the other held, and the third column is kept |
| FaceTurns.SwapRowsSteps | src/Cube.cpp:101-112 | the statements of SwapRows, on values, give back the face unchanged |
| FaceTurns.SwapRowsMissesSwap | src/Cube.cpp:101-112 | exchanging the upper and lower rows of cw0 changes it, so a no-op is not a swap |
| FaceTurns.SwapRows | src/Cube.cpp:101-112 | as written: no cell of any face changes |
| FaceTurns.SwapRowsCorrectedSteps | src/Cube.cpp:101-112 | writing the saved row into the second row instead exchanges the rows |
| FaceTurns.SwapRowsCorrected | src/Cube.cpp:101-112 | the face's two rows are exchanged, and no other face changes |
| FaceTurns.SwapColsAsWrittenMeaning | src/Cube.cpp:233-244 | as written, the first column receives the row whose index is that column's, and the second column is unchanged |
| FaceTurns.SwapColsMissesSwap | src/Cube.cpp:233-244 | on cw0 SwapCols does not exchange the left and right columns |
| FaceTurns.SwapCols | src/Cube.cpp:233-244 | as written: the face becomes SwapColsAsWritten of it, and no other face changes |
| FaceTurns.SwapColsCorrectedSteps | src/Cube.cpp:233-244 | saving the first column and writing it into the second exchanges the columns |
| FaceTurns.SwapColsCorrected | src/Cube.cpp:233-244 | the face's two columns are exchanged, and no other face changes |
| FaceTurns.ClockwiseSteps | src/Cube.cpp:246-258 | the four copies and the final write of RotateFaceClockwise, on values, make the clockwise quarter turn |
| FaceTurns.RotateFaceClockwise | src/Cube.cpp:246-258 | the face becomes its clockwise quarter turn, and no other face changes |
| FaceTurns.CounterClockwiseSteps | src/Cube.cpp:260-272 | the statements of RotateFaceCounterClockwise, on values, give QuarterTurnBackAsWritten |
| FaceTurns.CounterClockwiseMissesTest | tests/CubeStateTests.test.cpp:89-92 | as written the counter-clockwise turn of cw0 is not cw3, and not the quarter turn back |
| FaceTurns.RotateFaceCounterClockwise | src/Cube.cpp:260-272 | as written: the face becomes QuarterTurnBackAsWritten of it, and no other face changes |
| FaceTurns.CounterClockwiseCorrectedSteps | src/Cube.cpp:260-272 | the corrected order of copies, on values, makes the quarter turn back |
| FaceTurns.RotateFaceCounterClockwiseCorrected | src/Cube.cpp:260-272 | the face becomes its quarter turn back, the inverse of the clockwise turn, and no other face changes |
| FaceTurns.HalfTurnMissesTest | tests/CubeStateTests.test.cpp:100-103 | as written the double turn of cw0 is not cw2, and not the half turn |
| FaceTurns.RotateFaceTwice | src/Cube.cpp:274-279 | as written: the face becomes HalfTurnAsWritten of it, and no other face changes |
| FaceTurns.SwapsMakeHalfTurn | src/Cube.cpp:274-279 | exchanging the outer columns and then the outer rows makes the half turn |
| FaceTurns.RotateFaceTwiceCorrected | src/Cube.cpp:274-279 | with the corrected swaps the face becomes its half turn, and no other face changes |
| MoveLists.Pushed | include/CubeSolver.hpp:40-52 | pushing appends the moves to the pending buffer, keeps the log, and executes the moves on the cube in order |
| MoveLists.Accepted | include/CubeSolver.hpp:74-78 | accepting appends the pending buffer to the log, empties it and leaves the cube alone |
| MoveLists.RejectedAsWritten | include/CubeSolver.hpp:83-88 | as written, rejecting executes the reverse of the pending moves and keeps both the log and the pending buffer |
| MoveLists.Rejected | include/CubeSolver.hpp:83-88 | rejecting executes the reverse of the pending moves, keeps the log and empties the pending buffer |
| MoveLists.Committed | include/CubeSolver.hpp:48-51 | pushing with acceptMoves adds the old pending moves and the new moves to the log and leaves nothing pending |
| MoveLists.AdvancesTrans | include/CubeSolver.hpp:27-124 | a log that only grows and keeps tracking the cube does so across two steps |
| MoveLists.PushedAdvances | include/CubeSolver.hpp:40-69 | pushing, with or without accepting, only grows the log and keeps it tracking the cube |
| MoveLists.PushedAppend | include/CubeSolver.hpp:40-52 | pushing a and then b is pushing a + b |
| MoveLists.PushAcceptTrack | include/CubeSolver.hpp:40-78 | if the cube is the origin with log and pending moves executed, it stays so after a push or an accept |
| MoveLists.RejectTracks | include/CubeSolver.hpp:83-88 | with reverse moves that undo, the corrected reject keeps that invariant and puts the cube back to the origin with the log executed |
| MoveLists.PushRejectRestores | include/CubeSolver.hpp:83-88 | from a list with nothing pending, pushing moves and then rejecting them restores the list |
| MoveLists.TopTurnUndone | tests/CubeStateTests.test.cpp:78-98 | on the engine that turns only the top face, each top move is undone by its inverse |
| MoveLists.TopFaceEngineUndoes | include/Cube.hpp:291-292 | on that engine, the reversed inverse moves undo any move sequence |
| MoveLists.TopFaceEngineReverses | include/Cube.hpp:291-292 | that engine meets ReverseUndoes, so the assumption can be met |
| MoveLists.RejectAsWrittenLosesTrack | include/CubeSolver.hpp:83-88 | after pushing Up on cw0's cube and rejecting as written, the cube is back to cw0 but Up is still pending, so accepting logs Up for a cube on which nothing was done |
| MoveLists.RejectKeepsTrack | include/CubeSolver.hpp:83-88 | on that engine the corrected reject keeps the log tracking the cube |
| MoveLists.CubeMoveList.constructor | include/CubeSolver.hpp:30-32 | a new list has an empty log and an empty pending buffer, and drives the cube given |
| MoveLists.CubeMoveList.PushMoves | include/CubeSolver.hpp:40-52 | each move is executed on the cube and appended to the pending buffer in order; with acceptMoves the pending buffer is then committed |
| MoveLists.CubeMoveList.PushMove | include/CubeSolver.hpp:60-69 | the move is executed and appended to the pending buffer; with acceptMoves it is committed with the older pending moves |
| MoveLists.CubeMoveList.AcceptPendingMoves | include/CubeSolver.hpp:74-78 | log' = log + pending, pending' = [] and the cube is untouched |
| MoveLists.CubeMoveList.RejectPendingMoves | include/CubeSolver.hpp:83-88 | as written: the reverse of the pending moves is executed, and the log and the pending buffer are kept |
| MoveLists.CubeMoveList.RejectPendingMovesCorrected | include/CubeSolver.hpp:83-88 | the reverse of the pending moves is executed and the pending buffer is emptied |
| MoveLists.CubeMoveList.GetMoves | include/CubeSolver.hpp:98-104 | asks for nothing pending; for a consistent list, the log executed on the origin gives the cube |
| MoveLists.CubeMoveList.GetNumMoves | include/CubeSolver.hpp:116-119 | the length of the log |
| MoveLists.CubeMoveList.GetNumPendingMoves | include/CubeSolver.hpp:121-124 | the length of the pending buffer |
| Geometry.EdgeAt | include/CubeSolver.hpp:8-14 | the cast from an integer below four gives the edge of that value |
| Geometry.EdgeIndex | include/CubeSolver.hpp:8-17 | an edge's value is below GetNumEdgeTypes, four |
| Geometry.OppositeFaceInvolution | src/CfopSolver.cpp:601-621 | the opposite face is never the face itself, taking it twice gives the face back, and it maps side faces to side faces |
| Geometry.CornerDescriptorConsistent | src/CfopSolver.cpp:623-753 | the descriptor holds the (face, corner) asked for; its Y face is top or bottom, X left or right, Z front or back; asking for any of its three pairs gives the same descriptor |
| Geometry.AdjacentEdgeInvolution | src/CfopSolver.cpp:763-831 | the adjacent edge is on a face neither the face nor its opposite, and its adjacent edge is the edge itself |
| Geometry.GetEdgePosition | src/CfopSolver.cpp:840-864 | an edge's cell has coordinates in 0..2, exactly one of them the middle |
| Geometry.EdgeCell | src/CfopSolver.cpp:892-897 | the cell index of an edge's coordinates |
| Geometry.GetCornerPosition | src/CfopSolver.cpp:866-890 | a corner's coordinates are both 0 or 2 |
| Geometry.PositionsInjective | src/CfopSolver.cpp:840-890 | distinct edges, and distinct corners, have distinct coordinates |
| Geometry.GetEdgeColor | src/CfopSolver.cpp:892-897 | the colour of the face's cell at the edge's coordinates |
| Geometry.GetAdjacentEdgeColor | src/CfopSolver.cpp:899-905 | the colour at the adjacent face's edge |
| Geometry.GetCornerColor | src/CfopSolver.cpp:907-912 | the colour of the face's cell at the corner's coordinates |
| Geometry.GetCornerColors | src/CfopSolver.cpp:914-920 | the colours of the descriptor's Y, X and Z stickers, in that order |
| Geometry.GetCornerColorsAt | src/CfopSolver.cpp:922-927 | the colours of the corner's descriptor, among which is the face's own corner colour |
| Geometry.EdgeShowsSymmetric | src/CfopSolver.cpp:929-950 | an edge piece shows two colours from either of its two stickers |
| Geometry.IsEdgeInPosition | src/CfopSolver.cpp:929-950 | found and not inverted iff the cell is color1 and the adjacent cell color2; found and inverted iff the cell is color2, not color1, and the adjacent cell color1; isInverted unset iff the cell is neither colour, and then not found |
| Geometry.F2lPairMeaning | src/CfopSolver.cpp:1475-1587 | for two adjacent side faces the pair corner is the bottom corner between them, and the pair edges of the two faces are the two stickers of the one edge piece between them |
| Geometry.FindEdgeFromFirst | src/CfopSolver.cpp:2278-2288 | the scan of a face's edges from i finds the first edge, in enum order, showing the two colours, or none when no edge from i shows them |
| Geometry.EdgeClockwiseSticker | src/Cube.cpp:246-258 | a clockwise face turn moves an edge sticker to the next edge clockwise |
| Geometry.TurnEdgeSticker | src/Cube.cpp:246-258 | k quarter turns move an edge sticker k edges clockwise |
| Geometry.YTurnKeepsPieces | src/CfopSolver.cpp:763-831 | a turn about the vertical axis moves both stickers of an edge piece together, and moves side faces as the rotation does |
| Geometry.CarryKeepsPieces | src/CfopSolver.cpp:763-831 | a single move carries the two stickers of an edge piece to the two stickers of one piece |
| Geometry.CarryStickersAppend | src/CfopSolver.cpp:763-831 | following a sticker through a + b is following it through a and then b |
| Geometry.CarryAlong | src/CfopSolver.cpp:763-831 | a path of single-move steps is where the sticker goes through the whole sequence |
| Geometry.CarryStickersKeepPieces | src/CfopSolver.cpp:763-831 | a move sequence carries an edge piece as a whole |
| Geometry.StepPermutesFaces | src/CfopSolver.cpp:959-1053 | a cube rotation step is one-to-one on faces and commutes with taking opposites |
| Geometry.RotationPermutesFaces | src/CfopSolver.cpp:959-1053 | the same for k rotation steps |
| Catalogues.FirstMatchFrom | src/CfopSolver.cpp:345-351 | the index the catalogue scan from i stops at is the first matching entry; none means no entry from i matches |
| Cross.IfSomeAdvances | src/CfopSolver.cpp:959-1053 | an optional push or commit only grows the log and keeps it tracking the cube |
| Cross.SideToFrontMove | src/CfopSolver.cpp:959-984 | no move for the front face; for another side face, the cube rotation that brings it to the front; NumMoves for top or bottom |
| Cross.SideToRightMove | src/CfopSolver.cpp:994-1019 | no move for the right face; for another side face, the cube rotation that brings it to the right; NumMoves for top or bottom |
| Cross.ColorToBottomMove | src/CfopSolver.cpp:1021-1053 | for a face other than the bottom, the cube rotation that brings it to the bottom; NumMoves for the bottom |
| Cross.ColorToBottomMeaning | src/CfopSolver.cpp:1021-1053 | when the bottom centre is not the colour, one move is committed; it brings the first face with that centre to the bottom; it is NumMoves only when no centre has the colour and its default face is the bottom |
| Cross.RotateSideFaceToFront | src/CfopSolver.cpp:959-984 | pushes the chosen rotation, if any |
| Cross.RotateSideFaceToRight | src/CfopSolver.cpp:994-1019 | pushes the chosen rotation, if any |
| Cross.RotateColorToBottom | src/CfopSolver.cpp:1021-1053 | nothing when the bottom centre has the colour, else the rotation committed |
| Cross.OrientCube | src/CfopSolver.cpp:1055-1071 | the cube is rotated to bring white to the bottom; true iff the bottom centre was not white |
| Cross.IsFaceCrossSolved | src/CfopSolver.cpp:1078-1086 | true iff the face's bottom edge shows the face's centre colour with white on the adjacent sticker |
| Cross.LeftEdgeMoves | src/CfopSolver.cpp:1096-1149 | a sequence exists for a left-face edge iff that edge holds the piece of the given colour and white |
| Cross.LeftEdgeMovesMeaning | src/CfopSolver.cpp:1096-1149 | the sequence carries that piece from the left face to the top edge of the right face and, when the left cross edge is solved and another edge was found, keeps it in place |
| Cross.LeftSequenceMeaning | src/CfopSolver.cpp:1110-1146 | the prepare, U2, restore sequence for each edge carries the piece to the right face's top edge, keeping a solved left cross edge |
| Cross.LeftFaceUpToAdvances | src/CfopSolver.cpp:1102-1148 | the scan of the left face's edges only grows the log and keeps it tracking the cube |
| Cross.SolveCrossEdgeOnLeftFace | src/CfopSolver.cpp:1096-1149 | the list becomes the scan of the four left edges, each found piece moved up, for the right centre's colour |
| Cross.RightFaceMoves | src/CfopSolver.cpp:1158-1235 | there is no sequence iff no edge of the right face holds the piece of the right colour and white |
| Cross.RightPrepMeaning | src/CfopSolver.cpp:1166-1232 | the preparing moves carry the white sticker to the right edge of the right face when inverted, else to the right edge of the bottom face |
| Cross.SolveCrossEdgeOnRightFace | src/CfopSolver.cpp:1158-1235 | commits the sequence for the first right-face edge holding the piece, if any |
| Cross.BottomMiddleMoves | src/CfopSolver.cpp:1245-1284 | there is a sequence iff the bottom face's top or bottom edge holds the white and right-colour piece |
| Cross.BottomMiddleMeaning | src/CfopSolver.cpp:1245-1284 | the sequence carries the white sticker to the bottom face's right edge, under the right face |
| Cross.SolveCrossEdgeInBottomMiddle | src/CfopSolver.cpp:1245-1284 | true iff such a piece is there; its sequence is committed |
| Cross.TopMiddleMoves | src/CfopSolver.cpp:1295-1348 | there is a sequence iff the top face's top or bottom edge holds the white and right-colour piece |
| Cross.TopMiddleCaseMeaning | src/CfopSolver.cpp:1295-1348 | each of the eight front/back, upright/inverted, restore cases carries the white sticker to the bottom face's right edge, and keeps the side's cross edge unless it is an inverted case without the restore |
| Cross.TopMiddleMeaning | src/CfopSolver.cpp:1295-1348 | the sequence chosen carries the white sticker under the right face and keeps a solved cross edge of the side it passes |
| Cross.SolveCrossEdgeInTopMiddle | src/CfopSolver.cpp:1295-1348 | true iff such a piece is there; its sequence is committed |
| Cross.CrossFaceResult | src/CfopSolver.cpp:1350-1390 | false exactly when the face's cross edge is solved, and then the list is unchanged |
| Cross.CrossFaceAdvances | src/CfopSolver.cpp:1350-1390 | solving a cross face only grows the log and keeps it tracking the cube |
| Cross.SolveCrossFace | src/CfopSolver.cpp:1350-1390 | false, with the list unchanged, exactly when the face's cross edge is solved; otherwise the face is turned to the right and the edge searched in the bottom middle, then in the top middle, each ending the search when it finds the edge, and otherwise on the left face and then on the right face |
| Cross.CrossRound | src/CfopSolver.cpp:1415-1446 | a round solves nothing exactly when all four cross edges are solved, and then changes nothing |
| Cross.CrossLoopAdvances | src/CfopSolver.cpp:1413-1452 | the whole loop only grows the log and keeps it tracking the cube |
| Cross.SolveCross | src/CfopSolver.cpp:1405-1466 | the cube ends as the loop of at most four rounds leaves it; true iff moves were logged; a cube whose cross is solved is left alone and gives false |
| Cross.SolveCrossRound | src/CfopSolver.cpp:1415-1446 | false, with nothing changed, exactly when all four cross edges are solved; otherwise the first of right, front, back, left whose cross edge needed solving is solved |
| F2L.IsF2lPairSolved | src/CfopSolver.cpp:1589-1626 | a solved pair has the pair edge showing the first face's centre |
| F2L.F2lPairSolvedMeaning | src/CfopSolver.cpp:1589-1626 | with the standard axes the check is true iff the pair's edge and corner are home, showing both faces' centres and white below |
| F2L.CornerPositionKeepsCross | src/CfopSolver.cpp:1648-1695 | every corner-positioning sequence keeps the four cross edges in place |
| F2L.PositionF2lCornerInRightTopOrBottom | src/CfopSolver.cpp:1648-1695 | pushes the sequence for the first corner position, in the source's order, at which the pair's corner is found |
| F2L.EdgeStage1Meaning | src/CfopSolver.cpp:1714-1765 | the first stage keeps the cross and brings the pair's edge from its middle-layer slot to the top layer, or pushes nothing when the edge is not in a slot |
| F2L.EdgeStage2Meaning | src/CfopSolver.cpp:1767-1814 | when the corner is below, the second stage keeps the cross and turns the top to bring the edge to the top face's right edge, or its bottom edge when the other colour is up |
| F2L.PositionF2lEdgeAtTopOrMiddleRight | src/CfopSolver.cpp:1701-1829 | pushes the first stage and, when the corner is in the bottom right, the second |
| F2L.F2lCaseOf | src/CfopSolver.cpp:2252-2296 | the case read off the cube: the corner at top right when the probe finds it there, else bottom right; the edge at the first top edge showing the pair's colours, else at the front's right edge; their colours |
| F2L.FindF2lCase | src/CfopSolver.cpp:2252-2296 | fills the case as F2lCaseOf reads it off the cube |
| F2L.SolveF2lBasicInserts | src/CfopSolver.cpp:1845-1879 | nothing when the corner and edge are not both on top; any algorithm it picks is the one for the case's situation |
| F2L.SolveF2lCase1 | src/CfopSolver.cpp:1881-1929 | the same guard and soundness for the Case1 algorithms |
| F2L.SolveF2lCase2 | src/CfopSolver.cpp:1931-1964 | the same guard and soundness for the Case2 algorithms |
| F2L.SolveF2lCase3 | src/CfopSolver.cpp:1966-1999 | the same guard and soundness for the Case3 algorithms |
| F2L.SolveF2lCaseIncorrectlyConnectedPieces | src/CfopSolver.cpp:2001-2046 | the same guard and soundness for the incorrectly connected pieces |
| F2L.SolveF2lCaseCornerInPlaceEdgeInUFace | src/CfopSolver.cpp:2048-2096 | nothing unless the corner is below and the edge on top; any pick is sound |
| F2L.SolveF2lCaseEdgeInPlaceCornerInUFaceAsWritten | src/CfopSolver.cpp:2098-2144 | as written: nothing unless the edge is in the slot and the corner above; picks only F2L algorithms |
| F2L.SolveF2lCaseEdgeInPlaceCornerInUFace | src/CfopSolver.cpp:2098-2144 | with the sixth algorithm in its last test: the same guard, and any pick is sound |
| F2L.SolveF2lCaseEdgeAndCornerInPlaceAsWritten | src/CfopSolver.cpp:2146-2194 | as written: nothing unless both are in the slot; picks only F2L algorithms |
| F2L.SolveF2lCaseEdgeAndCornerInPlace | src/CfopSolver.cpp:2146-2194 | picking its own algorithms: the same guard, and any pick is sound |
| F2L.SituationOf | src/CfopSolver.cpp:1831-1843 | every case that can arise fits a situation |
| F2L.SituationUnique | src/CfopSolver.cpp:1831-1843 | and fits only that one |
| F2L.SolveF2lCaseChoiceCorrect | src/CfopSolver.cpp:2203-2247 | for every case that can arise, the dispatch picks an algorithm, and it is the one for the case's situation |
| F2L.SolveF2lCaseChoiceCovers | src/CfopSolver.cpp:2203-2247 | every case that can arise is picked up by some classifier |
| F2L.SolveF2lCaseChoiceSound | src/CfopSolver.cpp:2203-2247 | whatever the dispatch picks is sound for the case |
| F2L.FirstOfNone | src/CfopSolver.cpp:2203-2247 | the dispatch picks nothing only when every classifier declines |
| F2L.EdgeInPlaceCornerInUMisses | src/CfopSolver.cpp:2137-2141 | a case with the edge in place and the corner above showing green on the front gets the fifth algorithm as written, which is for another situation; corrected, the sixth |
| F2L.EdgeAndCornerInPlaceMisses | src/CfopSolver.cpp:2156-2191 | a case with both in the slot, the edge showing orange and the corner green on the front, gets an edge-in-place algorithm as written, made for a corner in the top layer; corrected, its own |
| F2L.SolveF2lCase | src/CfopSolver.cpp:2203-2247 | pushes the moves of the algorithm the dispatch picks, or nothing |
| F2L.F2lPairResult | src/CfopSolver.cpp:2302-2323 | a pair found solved gives false with the turn undone; a pair solved gives true with nothing left pending |
| F2L.F2lPairAdvances | src/CfopSolver.cpp:2302-2323 | solving a pair only grows the log and keeps it tracking the cube |
| F2L.F2lPairSolvedRestores | src/CfopSolver.cpp:2302-2323 | a pair found solved leaves a list with nothing pending as it was |
| F2L.SolveFirstTwoLayersPair | src/CfopSolver.cpp:2302-2323 | turns the face to the right; if the pair is solved undoes the turn and gives false; else positions, finds, solves and accepts |
| F2L.F2lRoundAdvances | src/CfopSolver.cpp:2331-2358 | a pass of the loop only grows the log and keeps it tracking the cube, and one that solves nothing changes nothing |
| F2L.SolveFirstTwoLayersRound | src/CfopSolver.cpp:2331-2358 | one pass of the loop: the pairs of right, front, back, left tried in that order, stopping at the first that needed solving |
| F2lMoves.NoMovesKeepCross | src/CfopSolver.cpp:1648-1695 | the empty sequence keeps the cross |
| F2lMoves.TopTurnKeepsCross | src/CfopSolver.cpp:1648-1695 | a top-layer turn keeps the cross |
| F2lMoves.LeftCornerLiftKeepsCross | src/CfopSolver.cpp:1660-1665 | the front bottom-left corner lift keeps the cross |
| F2lMoves.LeftCornerLiftLiftsEdge | src/CfopSolver.cpp:1716-1721 | that lift brings the front-left edge to the top layer |
| F2lMoves.BackLeftCornerLiftKeepsCross | src/CfopSolver.cpp:1675-1682 | the back bottom-left corner lift keeps the cross |
| F2lMoves.BackRightCornerLiftKeepsCross | src/CfopSolver.cpp:1683-1690 | the back bottom-right corner lift keeps the cross |
| F2lMoves.FrontLeftEdgeLiftKeepsCross | src/CfopSolver.cpp:1722-1729 | the front-left edge lift keeps the cross |
| F2lMoves.FrontLeftEdgeLiftLiftsEdge | src/CfopSolver.cpp:1722-1729 | and lifts that edge to the top layer |
| F2lMoves.BackLeftEdgeToFrontKeepsCross | src/CfopSolver.cpp:1733-1739 | the lift of the edge behind the right face, taken to the front, keeps the cross |
| F2lMoves.BackLeftEdgeToFrontLiftsEdge | src/CfopSolver.cpp:1733-1739 | and lifts that edge to the top layer |
| F2lMoves.BackLeftEdgeToBackKeepsCross | src/CfopSolver.cpp:1740-1746 | the same lift, taken to the back, keeps the cross |
| F2lMoves.BackLeftEdgeToBackLiftsEdge | src/CfopSolver.cpp:1740-1746 | and lifts that edge to the top layer |
| F2lMoves.BackRightEdgeLiftKeepsCross | src/CfopSolver.cpp:1750-1755 | the lift of the edge behind the left face keeps the cross |
| F2lMoves.BackRightEdgeLiftLiftsEdge | src/CfopSolver.cpp:1750-1755 | and lifts that edge to the top layer |
| F2lMoves.BackRightEdgeLiftTurnedKeepsCross | src/CfopSolver.cpp:1756-1762 | that lift followed by a top turn keeps the cross |
| F2lMoves.BackRightEdgeLiftTurnedLiftsEdge | src/CfopSolver.cpp:1756-1762 | and lifts that edge to the top layer |
| F2lMoves.TopTurnCarriesTopEdge | src/CfopSolver.cpp:1767-1814 | a top turn carries a top edge piece to the edge the turn moves it to |
| Oll.BitsetToString | src/CfopSolver.cpp:122-126 | the text of a w-bit bitset has w binary digits |
| Oll.BitsetRoundTrip | src/CfopSolver.cpp:122-126 | reading the digits back, most significant first, gives the number |
| Oll.BinaryRoundTrip | src/CfopSolver.cpp:122-126 | and writing a digit text's value gives the text back |
| Oll.CreateOllPattern | src/CfopSolver.cpp:221-230 | asks for templates of 9 and 3 digits with nine ones in all, as the constructor asserts; keeps them and the notation |
| Oll.CheckSquareMatch | src/CfopSolver.cpp:201-211 | true iff the cell is the top colour exactly where the template has a one |
| Oll.CheckMatch | src/CfopSolver.cpp:151-180 | true iff every top cell, and every top-row cell of the four sides, is the top colour exactly where its template has a one |
| Oll.OllMatchUnique | src/CfopSolver.cpp:151-180 | two templates that match the same cube have their ones in the same places |
| Oll.PerformAlgIfMatches | src/CfopSolver.cpp:188-198 | true iff the template matches; the algorithm is pushed exactly then |
| Oll.FirstOllMeaning | src/CfopSolver.cpp:345-351 | if entry i matches, the scan finds a match at an index no later than i, with the same ones |
| Oll.PerformFirstMatchingOll | src/CfopSolver.cpp:345-351 | the first matching entry's algorithm is pushed; false and nothing pushed when none matches |
| Pll.LetterAt | src/CfopSolver.cpp:466-485 | a template's letters are symbols F, R, B, L |
| Pll.Template | src/CfopSolver.cpp:426-436 | each side's template is three symbols |
| Pll.VisitAt | src/CfopSolver.cpp:426-436 | the check visits column i of sides front, right, back, left, in that order |
| Pll.Bind | src/CfopSolver.cpp:488-494 | binding a symbol sets it to the colour and leaves the other symbols alone |
| Pll.FirstWith | src/CfopSolver.cpp:488-496 | the first visited cell carrying a symbol, or none |
| Pll.StepConsistent | src/CfopSolver.cpp:488-496 | one more cell keeps the match iff the cell fits the binding so far |
| Pll.StepAgrees | src/CfopSolver.cpp:488-496 | the binding after a cell holds each symbol's first colour |
| Pll.CheckSquareMatch | src/CfopSolver.cpp:459-497 | an unbound symbol binds the cell's colour and matches; a bound one matches iff the colours are equal |
| Pll.ConsistentPrefix | src/CfopSolver.cpp:419-439 | a consistent visit is consistent on every prefix |
| Pll.MatchRunMeaning | src/CfopSolver.cpp:419-439 | the early-exit run of the check agrees with PllMatches |
| Pll.CheckColumn | src/CfopSolver.cpp:427-435 | one column of the four sides, stopping at the first mismatch |
| Pll.CheckMatch | src/CfopSolver.cpp:419-439 | true iff any two top-row stickers of the four sides whose template letters are the same have the same colour |
| Pll.PerformAlgIfMatches | src/CfopSolver.cpp:447-457 | true iff the template matches; the algorithm is pushed exactly then |
| Pll.CreatePllPattern | src/CfopSolver.cpp:505-510 | keeps the four templates and the notation |
| Pll.PerformFirstMatchingPll | src/CfopSolver.cpp:548-554 | the first matching entry's algorithm is pushed; false and nothing pushed when none matches |
| LastLayer.ProbeSearchMeaning | src/CfopSolver.cpp:344-387 | the search finds the first of no turn, Up, UpPrime, Up2 after which some entry matches and pushes that turn and the entry's algorithm; it gives false with the list unchanged when none does |
| LastLayer.ProbeAt | src/CfopSolver.cpp:353-362 | from a list with nothing pending, the corrected reject undoes a probe turn exactly; after a match, the turn and the algorithm are pushed as one sequence |
| LastLayer.ProbeSearchAdvances | src/CfopSolver.cpp:344-387 | the search only grows the log and keeps it tracking the cube |
| LastLayer.ProbesAdvance | src/CfopSolver.cpp:352-384 | the same for any list of probe turns |
| LastLayer.TopFaceMoves | tests/CubeStateTests.test.cpp:78-105 | on the top-face engine one and two moves turn the top face |
| LastLayer.AsWrittenSearchMissesUp2 | src/CfopSolver.cpp:352-384 | with the as-written reject, on a cube whose top is cw0 and a template that wants cw2, which Up2 gives, the search fails with all three probe turns left pending |
| LastLayer.CorrectedSearchFindsUp2 | src/CfopSolver.cpp:352-384 | with the corrected reject the same search finds the match after Up2 |
| LastLayer.ProbeOll | src/CfopSolver.cpp:353-362 | one probe block of the OLL search |
| LastLayer.FindAndExecuteCorrectOll | src/CfopSolver.cpp:247-388 | the list becomes the probing search's result over the OLL catalogue |
| LastLayer.ProbePll | src/CfopSolver.cpp:556-565 | one probe block of the PLL search |
| LastLayer.FindAndExecuteCorrectPll | src/CfopSolver.cpp:515-591 | the list becomes the probing search's result over the PLL catalogue |
| LastLayer.SolveOrientLastLayer | src/CfopSolver.cpp:2394-2412 | the cube ends as the OLL search leaves it; true iff moves were logged |
| LastLayer.AufMoveMeaning | src/CfopSolver.cpp:2430-2447 | the final top turn moves the front's top row onto the side whose centre has the colour of the front's top-left sticker; there is no turn exactly when the front's centre has that colour or no side's centre does |
| LastLayer.SolvePermeateLastLayer | src/CfopSolver.cpp:2423-2464 | the cube ends as the PLL search, the bottom rotation and the final top turn leave it; true iff moves were logged |
| LastLayer.LastLayerTracks | src/CfopSolver.cpp:2394-2464 | both stages leave nothing pending and a log that, executed on the start, gives the cube; the OLL log is the search's first probe turn and algorithm |

## Left out

- Output: the `outputStream` logging of every stage, `Print`, `PrintFace`, `SerializeMoves` and `SerializeMoveList`, the timer and `main`.
- Moves: every `Execute*` body and `Cube::ExecuteMove` are empty in the source, and `ExecuteMoves`, `ReverseMoves` and `ParseMoveNotation` are only declared. `ExecuteMove`, `ReverseMoves` and `ParseMoveNotation` are the `Engine` parameter. `ExecuteMoves` is defined here as the in-order application of `ExecuteMove` that its comment describes, which the source does not define. Algorithm texts are kept as notation strings that the engine reads. `GenerateMoves` and the `CUBE_ALG_DEF`, `CUBE_OLL_DEF` macros are not modelled beyond that.
- `IsCornerInPosition` and `GetAxisForFace` are defined in no source file; they are the `SolveUtils` parameter. `IsSolved`, `SetSolved`, `Validate` and `Solve` are declared without definitions.
- `CfopSolver::Solve` and the F2L outer loop of `SolveFirstTwoLayers` (src/CfopSolver.cpp:2325-2377): the loop has no bound in code, since `count` is raised only on a path that never runs. Its body, one pass over the four faces, is `F2L.SolveFirstTwoLayersRound`.
- The self-tests `EnsureCrossSolved`, `EnsureF2lSolved`, `EnsureOLLSolved`, `EnsurePllSolved`, and the debug asserts that check move outcomes. Without the geometry of moves they cannot be stated. Debug asserts on arguments became `requires`: the nine ones of an OLL template, the F/R/B/L letters of a PLL template, adjacent side faces for the F2L pair tables, and the X and Z axes that `IsF2lPairSolved` asserts for its two faces (`PairAxesValid`, which the standard axes meet).
- The `assert(false)` after a search that finds nothing, and the one after the solved F2L pair, are modelled by what release builds do: the function returns false, or the algorithm stays pushed.
- Catalogue completeness (that every OLL and PLL case is in the tables) and end-to-end solving.
- FindAndExecuteCorrectOll, FindAndExecuteCorrectPll: the catalogue is a parameter. `Oll.OllCatalogue` and `Pll.PllCatalogue` hold the source's tables in order. The four repeated probe blocks are one method, `ProbeOll` or `ProbePll`, called per probe turn.
- FindAndExecuteCorrectOll, FindAndExecuteCorrectPll, SolveFirstTwoLayersPair: these use the corrected reject, which empties the pending buffer. The as-written reject is `CubeMoveList.RejectPendingMoves` together with `LastLayer.ProbeSearch(..., false)`.
- Pll.CreatePllPattern: the source's constructor checks nothing. The letters F/R/B/L are asked for here because `CheckSquareMatch` dereferences a null pointer for any other character.
- Oll.CreateOllPattern: takes the templates as the digit texts `bitset::to_string` makes of the source's binary literals; `BitsetToString` and its round-trip lemmas model that conversion.
- PushMoves: a constant sequence pushed by the source through `PushMoves` or several `PushMove` calls is pushed once with the whole sequence; `PushedAppend` shows the two are the same.
- F2L.SolveF2lBasicInserts, F2L.SolveF2lCase1, F2L.SolveF2lCase2, F2L.SolveF2lCase3, F2L.SolveF2lCaseIncorrectlyConnectedPieces, F2L.SolveF2lCaseCornerInPlaceEdgeInUFace, F2L.SolveF2lCaseEdgeInPlaceCornerInUFace, F2L.SolveF2lCaseEdgeAndCornerInPlace: `AlgSituation`, the situation each algorithm is for, is read off the guards under which the source's classifiers push that algorithm. Each classifier's `Sound` ensures therefore largely repeats its own guards. The independent content is the dispatch lemma `SolveF2lCaseChoiceCorrect`, with `SituationOf` and `SituationUnique`: each case that can arise fits exactly one situation, built from the case's fields alone, and the dispatch picks that situation's algorithm.
- F2L.IsF2lPairSolved: its own contract gives only the edge half; the full meaning needs the standard axes and is `F2lPairSolvedMeaning`.
- The sticker-motion model of standard move notation is this model's own, used only to prove where the cross and F2L sequences carry pieces; nothing in the source defines it.

## Findings

| source | as written | input that shows it | evidently intended | confidence | as-written member | corrected member |
|---|---|---|---|---|---|---|
| src/Cube.cpp:260-272 | RotateFaceCounterClockwise reads cells earlier copies have overwritten and writes the saved row back onto the upper row | the test layout cw0 of tests/CubeStateTests.test.cpp:62-64: the result is not cw3 | the inverse of the clockwise turn, new(x, y) = old(2 - y, x) | not executed | FaceTurns.CounterClockwiseMissesTest | FaceTurns.RotateFaceCounterClockwiseCorrected |
| src/Cube.cpp:101-112 | SwapRows writes the saved first row back into the first row, so it changes nothing | cw0, upper and lower rows: their exchange differs from cw0 | the saved row goes into the second row | not executed | FaceTurns.SwapRowsMissesSwap | FaceTurns.SwapRowsCorrected |
| src/Cube.cpp:233-244 | SwapCols saves the cells (0, c), (1, c), (2, c), a row, and writes them as the first column; the second column is never written | cw0, left and right columns: cell 0 stays yellow instead of becoming green | the saved first column goes into the second column | not executed | FaceTurns.SwapColsMissesSwap | FaceTurns.SwapColsCorrected |
| src/Cube.cpp:274-279 | RotateFaceTwice relies on the two swaps above | cw0: the result is not cw2, which the test expects | the half turn, two clockwise turns | not executed | FaceTurns.HalfTurnMissesTest | FaceTurns.RotateFaceTwiceCorrected |
| include/CubeSolver.hpp:83-88 | RejectPendingMoves undoes the pending moves on the cube but does not clear them | push Up on a cube, then reject: Up is still pending, and an accept logs it | the pending buffer is emptied | not executed | MoveLists.RejectAsWrittenLosesTrack | MoveLists.RejectKeepsTrack |
| src/CfopSolver.cpp:353-384 | with the reject above, the later probes of the OLL and PLL searches start from a wrong cube and pile up pending turns (the same code is at 555-587) | top face cw0, a catalogue entry that wants cw2: Up2 would find it, the search fails | each probe starts from the unturned cube | not executed | LastLayer.AsWrittenSearchMissesUp2 | LastLayer.CorrectedSearchFindsUp2 |
| src/CfopSolver.cpp:2137-2141 | the last test of SolveF2lCaseEdgeInPlaceCornerInUFace pushes the fifth algorithm again | edge in place showing orange, corner above showing green on the front | the sixth algorithm | not executed | F2L.EdgeInPlaceCornerInUMisses | F2L.SolveF2lCaseEdgeInPlaceCornerInUFace |
| src/CfopSolver.cpp:2156-2191 | SolveF2lCaseEdgeAndCornerInPlace pushes the EdgeInPlaceCornerInU algorithms | edge and corner in the slot, the edge showing orange and the corner green on the front: the algorithm picked is for a corner in the top layer | the EdgeAndCornerInPlace algorithms of the same numbers | not executed | F2L.EdgeAndCornerInPlaceMisses | F2L.SolveF2lCaseEdgeAndCornerInPlace |

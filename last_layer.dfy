// The last-layer phases of src/CfopSolver.cpp: FindAndExecuteCorrectOLL and
// FindAndExecuteCorrectPLL, which look for a catalogue case on the top layer
// as it is and then after each of the turns Up, UpPrime and Up2, and
// SolveOrientLastLayer and SolvePermeateLastLayer, which run them on a fresh
// move list; the latter also turns the top layer into place at the end.
//
// The search is stated once, over what a scan of a catalogue finds on a
// cube (the notation of the first matching case). Between two probes the
// source undoes the probing turn with RejectPendingMoves, which leaves the
// turn pending (see MoveLists.RejectedAsWritten); the methods use the
// corrected reject, and ProbeSearch keeps both readings.

module LastLayer {
  import opened CubeDefs
  import opened CubeState
  import opened FaceTurns
  import opened MoveLists
  import opened Geometry
  import opened Catalogues
  import opened Cross
  import opened Oll
  import opened Pll

  /** The turns of the top layer tried after the cube as it is, in order. */
  const ProbeTurns: seq<Move> := [Move.Up, Move.UpPrime, Move.Up2]

  /** The orientations of the top layer the search examines, in order. */
  const Orientations: seq<seq<Move>> := [[], [Move.Up], [Move.UpPrime], [Move.Up2]]

  /**
   * One probe: the turn is pushed and the catalogue scanned; on a find the
   * case's algorithm is pushed after it, otherwise the turn is rejected,
   * with the corrected reject or as the source does it.
   */
  function Probe(e: Engine, st: ListState, find: CubeFaces -> Option<string>, t: Move, corrected: bool): (bool, ListState)
  {
    var probed := Pushed(e, st, [t]);
    var r := find(probed.faces);
    if r.Some? then (true, Pushed(e, probed, e.parseMoveNotation(r.value)))
    else (false, if corrected then Rejected(e, probed) else RejectedAsWritten(e, probed))
  }

  /** Probing the turns in order until one finds a case. */
  function Probes(e: Engine, st: ListState, find: CubeFaces -> Option<string>, turns: seq<Move>, corrected: bool): (bool, ListState)
    decreases |turns|
  {
    if turns == [] then (false, st)
    else
      var r := Probe(e, st, find, turns[0], corrected);
      if r.0 then r else Probes(e, r.1, find, turns[1..], corrected)
  }

  /** The whole search: the cube as it is first, then the probing turns. */
  function ProbeSearch(e: Engine, st: ListState, find: CubeFaces -> Option<string>, corrected: bool): (bool, ListState)
  {
    var r := find(st.faces);
    if r.Some? then (true, Pushed(e, st, e.parseMoveNotation(r.value)))
    else Probes(e, st, find, ProbeTurns, corrected)
  }

  /** Whether a scan finds a case on the cube turned by an orientation. */
  function FindsAfter(e: Engine, s: CubeFaces, find: CubeFaces -> Option<string>): seq<Move> -> bool
  {
    (o: seq<Move>) => find(ApplyMoves(e, s, o)).Some?
  }

  /**
   * The corrected search on a list with nothing pending, when the engine's
   * reversal undoes: it finds a case exactly when some orientation shows
   * one, and then pushes the first such orientation followed by the case's
   * algorithm; otherwise the list is as it was.
   */
  lemma ProbeSearchMeaning(e: Engine, st: ListState, find: CubeFaces -> Option<string>)
    requires ReverseUndoes(e) && st.pending == []
    ensures var k := FirstMatchFrom(Orientations, FindsAfter(e, st.faces, find), 0);
      ProbeSearch(e, st, find, true) ==
        if k.None? then (false, st)
        else (true, Pushed(e, st, Orientations[k.value] +
                                  e.parseMoveNotation(find(ApplyMoves(e, st.faces, Orientations[k.value])).value)))
  {
    var s := st.faces;
    var f, o := FindsAfter(e, s, find), Orientations;
    assert ProbeTurns[1..] == [Move.UpPrime, Move.Up2] && ProbeTurns[1..][1..] == [Move.Up2];
    assert o[0] == [] && o[1] == [Move.Up] && o[2] == [Move.UpPrime] && o[3] == [Move.Up2];
    ProbeAt(e, st, find, Move.Up);
    ProbeAt(e, st, find, Move.UpPrime);
    ProbeAt(e, st, find, Move.Up2);
    assert ApplyMoves(e, s, []) == s;
    var a, b, c := Probe(e, st, find, Move.Up, true), Probe(e, st, find, Move.UpPrime, true), Probe(e, st, find, Move.Up2, true);
    var tail := Probes(e, st, find, [Move.Up2], true);
    assert [Move.Up2][1..] == [];
    assert tail == if c.0 then c else (false, st);
    var mid := Probes(e, st, find, [Move.UpPrime, Move.Up2], true);
    assert mid == if b.0 then b else tail;
    assert Probes(e, st, find, ProbeTurns, true) == if a.0 then a else mid;
    if f(o[0]) {
      assert [] + e.parseMoveNotation(find(s).value) == e.parseMoveNotation(find(s).value);
      assert FirstMatchFrom(o, f, 0) == Some(0);
    } else if f(o[1]) {
      assert FirstMatchFrom(o, f, 0) == FirstMatchFrom(o, f, 1) == Some(1);
    } else if f(o[2]) {
      assert FirstMatchFrom(o, f, 0) == FirstMatchFrom(o, f, 1) == FirstMatchFrom(o, f, 2) == Some(2);
    } else if f(o[3]) {
      assert FirstMatchFrom(o, f, 0) == FirstMatchFrom(o, f, 1) == FirstMatchFrom(o, f, 2) == Some(3);
    } else {
      assert FirstMatchFrom(o, f, 0) == FirstMatchFrom(o, f, 1) == FirstMatchFrom(o, f, 2) == None;
    }
  }

  /** A single probe of the corrected search from a list with nothing pending. */
  lemma ProbeAt(e: Engine, st: ListState, find: CubeFaces -> Option<string>, t: Move)
    requires ReverseUndoes(e) && st.pending == []
    ensures var probed := Pushed(e, st, [t]);
      probed.faces == ApplyMoves(e, st.faces, [t]) &&
      Rejected(e, probed) == st &&
      (find(probed.faces).Some? ==>
         Pushed(e, probed, e.parseMoveNotation(find(probed.faces).value)) ==
         Pushed(e, st, [t] + e.parseMoveNotation(find(probed.faces).value)))
  {
    PushRejectRestores(e, st, [t]);
    var probed := Pushed(e, st, [t]);
    if find(probed.faces).Some? {
      PushedAppend(e, st, [t], e.parseMoveNotation(find(probed.faces).value));
    }
  }

  /** With a reversal that undoes, the corrected search is a step of the solver. */
  lemma ProbeSearchAdvances(e: Engine, origin: CubeFaces, st: ListState, find: CubeFaces -> Option<string>)
    requires ReverseUndoes(e)
    ensures Advances(e, origin, st, ProbeSearch(e, st, find, true).1)
  {
    if find(st.faces).Some? {
      PushedAdvances(e, origin, st, e.parseMoveNotation(find(st.faces).value));
    } else {
      ProbesAdvance(e, origin, st, find, ProbeTurns);
    }
  }

  lemma {:induction false} ProbesAdvance(e: Engine, origin: CubeFaces, st: ListState, find: CubeFaces -> Option<string>, turns: seq<Move>)
    requires ReverseUndoes(e)
    ensures Advances(e, origin, st, Probes(e, st, find, turns, true).1)
    decreases |turns|
  {
    if turns != [] {
      var probed := Pushed(e, st, [turns[0]]);
      PushedAdvances(e, origin, st, [turns[0]]);
      var r := find(probed.faces);
      if r.Some? {
        PushedAdvances(e, origin, probed, e.parseMoveNotation(r.value));
        AdvancesTrans(e, origin, st, probed, Pushed(e, probed, e.parseMoveNotation(r.value)));
      } else {
        var back := Rejected(e, probed);
        if Tracks(e, origin, probed) {
          RejectTracks(e, origin, probed);
        }
        assert Advances(e, origin, probed, back);
        ProbesAdvance(e, origin, back, find, turns[1..]);
        AdvancesTrans(e, origin, st, probed, back);
        AdvancesTrans(e, origin, st, back, Probes(e, back, find, turns[1..], true).1);
      }
    }
  }

  /** A scan that finds a case, with no moves, exactly when the top face shows the given stickers. */
  function TopShows(f: FaceCells): CubeFaces -> Option<string>
  {
    (s: CubeFaces) => if s[0] == f then Some("") else None
  }

  /** One and two moves of the top-face engine. */
  lemma TopFaceMoves(s: CubeFaces, m: Move, n: Move)
    ensures ApplyMoves(TopFaceEngine, s, [m]) == TopTurn(m, s)
    ensures ApplyMoves(TopFaceEngine, s, [m, n]) == TopTurn(n, TopTurn(m, s))
  {
    var e := TopFaceEngine;
    assert [m][1..] == [] && [m, n][1..] == [n];
    assert ApplyMoves(e, s, [m]) == ApplyMoves(e, TopTurn(m, s), []);
    assert ApplyMoves(e, s, [m, n]) == ApplyMoves(e, TopTurn(m, s), [n]);
    assert ApplyMoves(e, TopTurn(m, s), [n]) == ApplyMoves(e, TopTurn(n, TopTurn(m, s)), []);
  }

  /**
   * As written, the search misses the Up2 orientation: on a cube whose top
   * face shows Cw0, looking for Cw2 (what Up2 makes of it), the rejected Up
   * and UpPrime stay pending and the last reject leaves the cube turned by
   * UpPrime, so the last probe examines Up rather than Up2, and the search
   * reports no case with the three turns pending.
   */
  lemma AsWrittenSearchMissesUp2(c: CubeFaces)
    requires c[0] == Cw0
    ensures var e, st, find := TopFaceEngine, ListState([], [], c), TopShows(Cw2);
      find(ApplyMoves(e, c, [Move.Up2])).Some? &&
      ProbeSearch(e, st, find, false).0 == false &&
      ProbeSearch(e, st, find, false).1.pending == [Move.Up, Move.UpPrime, Move.Up2]
  {
    var e, st, find := TopFaceEngine, ListState([], [], c), TopShows(Cw2);
    TestLayoutCycles();
    TopFaceMoves(c, Move.Up2, Move.Up2);
    // the probe of Up, undone by UpPrime
    var s1 := Pushed(e, st, [Move.Up]);
    TopFaceMoves(c, Move.Up, Move.Up);
    assert s1.faces[0] == Cw1;
    assert e.reverseMoves([Move.Up]) == [Move.UpPrime];
    TopFaceMoves(s1.faces, Move.UpPrime, Move.UpPrime);
    var b1 := RejectedAsWritten(e, s1);
    assert b1.faces[0] == Cw0 && b1.pending == [Move.Up];
    assert Probe(e, st, find, Move.Up, false) == (false, b1);
    // the probe of UpPrime, followed by the reversal of Up UpPrime, which is Up UpPrime
    var s2 := Pushed(e, b1, [Move.UpPrime]);
    TopFaceMoves(b1.faces, Move.UpPrime, Move.UpPrime);
    assert s2.faces[0] == Cw3 && s2.pending == [Move.Up, Move.UpPrime];
    assert ReverseTopMoves([Move.UpPrime]) == [Move.Up];
    assert e.reverseMoves([Move.Up, Move.UpPrime]) == [Move.Up, Move.UpPrime];
    TopFaceMoves(s2.faces, Move.Up, Move.UpPrime);
    var b2 := RejectedAsWritten(e, s2);
    assert b2.faces[0] == Cw3;
    assert Probe(e, b1, find, Move.UpPrime, false) == (false, b2);
    // the last probe examines Up2 after UpPrime, which is Up
    var s3 := Pushed(e, b2, [Move.Up2]);
    TopFaceMoves(b2.faces, Move.Up2, Move.Up2);
    assert s3.faces[0] == Cw1;
    var b3 := RejectedAsWritten(e, s3);
    assert Probe(e, b2, find, Move.Up2, false) == (false, b3);
    assert ProbeTurns[1..] == [Move.UpPrime, Move.Up2] && ProbeTurns[1..][1..] == [Move.Up2];
    assert [Move.Up2][1..] == [];
    assert Probes(e, b2, find, [Move.Up2], false) == (false, b3);
    assert Probes(e, b1, find, [Move.UpPrime, Move.Up2], false) == (false, b3);
    assert find(c).None?;
  }

  /** The corrected search finds the case of AsWrittenSearchMissesUp2 with the single turn Up2. */
  lemma CorrectedSearchFindsUp2(c: CubeFaces)
    requires c[0] == Cw0
    ensures var e, st, find := TopFaceEngine, ListState([], [], c), TopShows(Cw2);
      ProbeSearch(e, st, find, true) == (true, Pushed(e, st, [Move.Up2]))
  {
    var e, st, find := TopFaceEngine, ListState([], [], c), TopShows(Cw2);
    TestLayoutCycles();
    TopFaceEngineReverses();
    ProbeSearchMeaning(e, st, find);
    TopFaceMoves(c, Move.Up, Move.Up);
    TopFaceMoves(c, Move.UpPrime, Move.Up);
    TopFaceMoves(c, Move.Up2, Move.Up);
    var f, o := FindsAfter(e, c, find), Orientations;
    assert o[0] == [] && o[1] == [Move.Up] && o[2] == [Move.UpPrime] && o[3] == [Move.Up2];
    assert ApplyMoves(e, c, []) == c;
    assert !f(o[0]) && !f(o[1]) && !f(o[2]) && f(o[3]);
    assert FirstMatchFrom(o, f, 0) == FirstMatchFrom(o, f, 1) == FirstMatchFrom(o, f, 2) == Some(3);
    assert [Move.Up2] + e.parseMoveNotation("") == [Move.Up2];
  }

  // ---------------------------------------------------------------------
  // The methods

  /** What FindAndExecuteCorrectOLL looks for: the first OLL case of the catalogue. */
  function OllFinder(catalogue: seq<OllTemplate>): CubeFaces -> Option<string>
  {
    (s: CubeFaces) => FirstOllNotation(catalogue, s)
  }

  /** What FindAndExecuteCorrectPLL looks for: the first PLL case of the catalogue. */
  function PllFinder(catalogue: seq<PllTemplate>): CubeFaces -> Option<string>
  {
    (s: CubeFaces) => FirstPllNotation(catalogue, s)
  }

  /** One probe of FindAndExecuteCorrectOLL: push the turn, scan, and reject the turn when nothing matched. */
  method ProbeOll(catalogue: seq<OllTemplate>, ml: CubeMoveList, t: Move) returns (found: bool)
    requires ml.Valid()
    modifies ml, ml.mCube.mCube
    ensures (found, ml.Snapshot()) == Probe(ml.mCube.engine, old(ml.Snapshot()), OllFinder(catalogue), t, true)
  {
    ml.PushMove(t);
    found := PerformFirstMatchingOll(catalogue, ml);
    if !found {
      ml.RejectPendingMovesCorrected();
    }
  }

  /** FindAndExecuteCorrectOLL over a catalogue, with the corrected reject between probes. */
  method FindAndExecuteCorrectOll(catalogue: seq<OllTemplate>, ml: CubeMoveList) returns (found: bool)
    requires ml.Valid()
    modifies ml, ml.mCube.mCube
    ensures (found, ml.Snapshot()) == ProbeSearch(ml.mCube.engine, old(ml.Snapshot()), OllFinder(catalogue), true)
  {
    assert ProbeTurns[1..] == [Move.UpPrime, Move.Up2] && ProbeTurns[1..][1..] == [Move.Up2];
    found := PerformFirstMatchingOll(catalogue, ml);
    if found {
      return;
    }
    found := ProbeOll(catalogue, ml, Move.Up);
    if found {
      return;
    }
    found := ProbeOll(catalogue, ml, Move.UpPrime);
    if found {
      return;
    }
    found := ProbeOll(catalogue, ml, Move.Up2);
  }

  /** One probe of FindAndExecuteCorrectPLL: push the turn, scan, and reject the turn when nothing matched. */
  method ProbePll(catalogue: seq<PllTemplate>, ml: CubeMoveList, t: Move) returns (found: bool)
    requires ml.Valid()
    modifies ml, ml.mCube.mCube
    ensures (found, ml.Snapshot()) == Probe(ml.mCube.engine, old(ml.Snapshot()), PllFinder(catalogue), t, true)
  {
    ml.PushMove(t);
    found := PerformFirstMatchingPll(catalogue, ml);
    if !found {
      ml.RejectPendingMovesCorrected();
    }
  }

  /** FindAndExecuteCorrectPLL over a catalogue, with the corrected reject between probes. */
  method FindAndExecuteCorrectPll(catalogue: seq<PllTemplate>, ml: CubeMoveList) returns (found: bool)
    requires ml.Valid()
    modifies ml, ml.mCube.mCube
    ensures (found, ml.Snapshot()) == ProbeSearch(ml.mCube.engine, old(ml.Snapshot()), PllFinder(catalogue), true)
  {
    assert ProbeTurns[1..] == [Move.UpPrime, Move.Up2] && ProbeTurns[1..][1..] == [Move.Up2];
    found := PerformFirstMatchingPll(catalogue, ml);
    if found {
      return;
    }
    found := ProbePll(catalogue, ml, Move.Up);
    if found {
      return;
    }
    found := ProbePll(catalogue, ml, Move.UpPrime);
    if found {
      return;
    }
    found := ProbePll(catalogue, ml, Move.Up2);
  }

  // ---------------------------------------------------------------------
  // The phases

  /**
   * What SolveOrientLastLayer does with a cube: the OLL search over the
   * catalogue (Oll.OllCatalogue in the solver) on a fresh list, accepted.
   */
  function OrientLastLayerResult(e: Engine, catalogue: seq<OllTemplate>, s: CubeFaces): ListState
  {
    Accepted(ProbeSearch(e, ListState([], [], s), OllFinder(catalogue), true).1)
  }

  /** Orients the last layer with the OLL catalogue given; true when that took moves. */
  method SolveOrientLastLayer(cube: Cube, catalogue: seq<OllTemplate>) returns (solved: bool)
    requires cube.Valid()
    modifies cube.mCube
    ensures var r := OrientLastLayerResult(cube.engine, catalogue, old(cube.State()));
      cube.State() == r.faces && (solved <==> |r.moves| > 0)
  {
    var moveList := new CubeMoveList(cube);
    var _ := FindAndExecuteCorrectOll(catalogue, moveList);
    moveList.AcceptPendingMoves();
    solved := moveList.GetNumMoves() > 0;
  }

  /**
   * The turn of the top layer SolvePermeateLastLayer makes at the end: none
   * when the front face's top-left sticker has the front colour, otherwise
   * the turn towards the first of the right, left and back faces whose
   * centre has that sticker's colour, if any.
   */
  function AufMove(s: CubeFaces): Option<Move>
  {
    var current := Cell(s, Face.Front, 0, 0);
    if CenterOf(s, Face.Front) == current then None
    else if CenterOf(s, Face.Right) == current then Some(Move.UpPrime)
    else if CenterOf(s, Face.Left) == current then Some(Move.Up)
    else if CenterOf(s, Face.Back) == current then Some(Move.Up2)
    else None
  }

  /**
   * The turn carries the front face's top row, followed by its edge
   * sticker, onto another side face whose centre has the colour of the
   * front face's top-left sticker; there is no turn exactly when that
   * sticker has the front colour or no other side centre has its colour.
   */
  lemma AufMoveMeaning(s: CubeFaces)
    ensures var current, m := Cell(s, Face.Front, 0, 0), AufMove(s);
      (m.Some? ==>
         var q := CarryStickers([m.value], FaceEdge(Face.Front, TopEdge));
         q.Some? && q.value.edge == TopEdge && IsSideFace(q.value.face) && q.value.face != Face.Front &&
         CenterOf(s, q.value.face) == current) &&
      (m.None? <==>
         CenterOf(s, Face.Front) == current ||
         (CenterOf(s, Face.Right) != current && CenterOf(s, Face.Left) != current && CenterOf(s, Face.Back) != current))
  {
    var m := AufMove(s);
    if m.Some? {
      assert CarryStickers([m.value], FaceEdge(Face.Front, TopEdge)) == CarrySticker(m.value, FaceEdge(Face.Front, TopEdge));
    }
  }

  /**
   * What SolvePermeateLastLayer does with a cube: the PLL search over the
   * catalogue (Pll.PllCatalogue in the solver) on a fresh list, the bottom
   * colour brought back to the bottom (which commits the list), and the
   * final turn of the top layer, accepted.
   */
  function PermuteLastLayerResult(e: Engine, catalogue: seq<PllTemplate>, s: CubeFaces): ListState
  {
    var found := ProbeSearch(e, ListState([], [], s), PllFinder(catalogue), true).1;
    var oriented := ColorToBottomResult(e, found, BottomColor);
    Accepted(PushedIfSome(e, oriented, AufMove(oriented.faces)))
  }

  /** Permutes the last layer with the PLL catalogue given and turns it into place; true when that took moves. */
  method SolvePermeateLastLayer(cube: Cube, catalogue: seq<PllTemplate>) returns (solved: bool)
    requires cube.Valid()
    modifies cube.mCube
    ensures var r := PermuteLastLayerResult(cube.engine, catalogue, old(cube.State()));
      cube.State() == r.faces && (solved <==> |r.moves| > 0)
  {
    var moveList := new CubeMoveList(cube);
    var _ := FindAndExecuteCorrectPll(catalogue, moveList);
    RotateColorToBottom(moveList, BottomColor);
    var frontColor := cube.ColorOfFace(Face.Front);
    var currentTopLayerFrontColor := cube.GetState(Face.Front, 0, 0);
    if frontColor != currentTopLayerFrontColor {
      if cube.ColorOfFace(Face.Right) == currentTopLayerFrontColor {
        moveList.PushMove(Move.UpPrime);
      } else if cube.ColorOfFace(Face.Left) == currentTopLayerFrontColor {
        moveList.PushMove(Move.Up);
      } else if cube.ColorOfFace(Face.Back) == currentTopLayerFrontColor {
        moveList.PushMove(Move.Up2);
      }
    }
    moveList.AcceptPendingMoves();
    solved := moveList.GetNumMoves() > 0;
  }

  /**
   * With a reversal that undoes, both phases leave a cube that is what
   * their committed log makes of the cube they were given, nothing pending;
   * the orientation phase logs the first orientation that shows an OLL case
   * followed by that case's algorithm, or nothing.
   */
  lemma LastLayerTracks(e: Engine, ollCases: seq<OllTemplate>, pllCases: seq<PllTemplate>, s: CubeFaces)
    requires ReverseUndoes(e)
    ensures var r := OrientLastLayerResult(e, ollCases, s);
      Tracks(e, s, r) && r.pending == [] &&
      var find := OllFinder(ollCases);
      var k := FirstMatchFrom(Orientations, FindsAfter(e, s, find), 0);
      r.moves == if k.None? then [] else Orientations[k.value] + e.parseMoveNotation(find(ApplyMoves(e, s, Orientations[k.value])).value)
    ensures var r := PermuteLastLayerResult(e, pllCases, s);
      Tracks(e, s, r) && r.pending == []
  {
    var st := ListState([], [], s);
    assert Tracks(e, s, st);
    ProbeSearchMeaning(e, st, OllFinder(ollCases));
    var o := ProbeSearch(e, st, OllFinder(ollCases), true).1;
    ProbeSearchAdvances(e, s, st, OllFinder(ollCases));
    PushAcceptTrack(e, s, o, []);
    var p := ProbeSearch(e, st, PllFinder(pllCases), true).1;
    ProbeSearchAdvances(e, s, st, PllFinder(pllCases));
    var c := ColorToBottomResult(e, p, BottomColor);
    if CenterOf(p.faces, Face.Bottom) != BottomColor {
      PushedAdvances(e, s, p, [ColorToBottomMove(FaceOfColorFrom(p.faces, BottomColor, 0))]);
    }
    IfSomeAdvances(e, s, c, AufMove(c.faces), None);
    var q := PushedIfSome(e, c, AufMove(c.faces));
    PushAcceptTrack(e, s, q, []);
  }
}

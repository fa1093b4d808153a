// The transactional move list of include/CubeSolver.hpp: moves are first
// simulated on the cube and held as pending, then either accepted into the
// committed log or rejected, which undoes them on the cube.

module MoveLists {
  import opened CubeDefs
  import opened CubeState
  import opened FaceTurns

  /** The value of a move list together with the cube it drives. */
  datatype ListState = ListState(moves: seq<Move>, pending: seq<Move>, faces: CubeFaces)

  /** Pushing moves: each is appended to the pending buffer and executed on the cube. */
  function Pushed(e: Engine, st: ListState, ms: seq<Move>): (r: ListState)
    ensures r.moves == st.moves && r.pending == st.pending + ms
    ensures r.faces == ApplyMoves(e, st.faces, ms)
  {
    ListState(st.moves, st.pending + ms, ApplyMoves(e, st.faces, ms))
  }

  /** Accepting: the pending moves join the log and the buffer empties; the cube is untouched. */
  function Accepted(st: ListState): (r: ListState)
    ensures r.moves == st.moves + st.pending && r.pending == [] && r.faces == st.faces
  {
    ListState(st.moves + st.pending, [], st.faces)
  }

  /** Rejecting as the source does it: the reversal of the pending moves runs on the cube, and the buffer is kept. */
  function RejectedAsWritten(e: Engine, st: ListState): (r: ListState)
    ensures r.moves == st.moves && r.pending == st.pending
    ensures r.faces == ApplyMoves(e, st.faces, e.reverseMoves(st.pending))
  {
    ListState(st.moves, st.pending, ApplyMoves(e, st.faces, e.reverseMoves(st.pending)))
  }

  /** Rejecting as documented: the pending moves are undone on the cube and dropped. */
  function Rejected(e: Engine, st: ListState): (r: ListState)
    ensures r.moves == st.moves && r.pending == []
    ensures r.faces == ApplyMoves(e, st.faces, e.reverseMoves(st.pending))
  {
    ListState(st.moves, [], ApplyMoves(e, st.faces, e.reverseMoves(st.pending)))
  }

  /** The cube is what the log and the pending moves make of `origin`. */
  predicate Tracks(e: Engine, origin: CubeFaces, st: ListState)
  {
    st.faces == ApplyMoves(e, origin, st.moves + st.pending)
  }

  /** Pushing moves and accepting them at once. */
  function Committed(e: Engine, st: ListState, ms: seq<Move>): (r: ListState)
    ensures r.moves == st.moves + st.pending + ms && r.pending == []
    ensures r.faces == ApplyMoves(e, st.faces, ms)
  {
    Accepted(Pushed(e, st, ms))
  }

  /** A step of the solver: the log only grows, and a cube in step with it stays in step. */
  predicate Advances(e: Engine, origin: CubeFaces, st: ListState, st2: ListState)
  {
    st.moves <= st2.moves && (Tracks(e, origin, st) ==> Tracks(e, origin, st2))
  }

  lemma AdvancesTrans(e: Engine, origin: CubeFaces, a: ListState, b: ListState, c: ListState)
    requires Advances(e, origin, a, b) && Advances(e, origin, b, c)
    ensures Advances(e, origin, a, c)
  {
  }

  /** Pushing, and pushing with accepting, are steps of the solver. */
  lemma PushedAdvances(e: Engine, origin: CubeFaces, st: ListState, ms: seq<Move>)
    ensures Advances(e, origin, st, st)
    ensures Advances(e, origin, st, Pushed(e, st, ms))
    ensures Advances(e, origin, st, Committed(e, st, ms))
  {
    if Tracks(e, origin, st) {
      PushAcceptTrack(e, origin, st, ms);
      PushAcceptTrack(e, origin, Pushed(e, st, ms), []);
    }
    assert st.moves + st.pending + ms == st.moves + (st.pending + ms);
  }

  /** The engine's reversal of a move list undoes it, from every state. */
  ghost predicate ReverseUndoes(e: Engine)
  {
    forall s: CubeFaces, p: seq<Move> :: ApplyMoves(e, ApplyMoves(e, s, p), e.reverseMoves(p)) == s
  }

  /** Pushing in two batches is pushing their concatenation. */
  lemma PushedAppend(e: Engine, st: ListState, a: seq<Move>, b: seq<Move>)
    ensures Pushed(e, Pushed(e, st, a), b) == Pushed(e, st, a + b)
  {
    ApplyMovesAppend(e, st.faces, a, b);
    assert st.pending + a + b == st.pending + (a + b);
  }

  /** Pushing and accepting keep the cube in step with the log. */
  lemma PushAcceptTrack(e: Engine, origin: CubeFaces, st: ListState, ms: seq<Move>)
    requires Tracks(e, origin, st)
    ensures Tracks(e, origin, Pushed(e, st, ms))
    ensures Tracks(e, origin, Accepted(st))
  {
    ApplyMovesAppend(e, origin, st.moves + st.pending, ms);
    assert st.moves + st.pending + ms == st.moves + (st.pending + ms);
    assert st.moves + st.pending + [] == st.moves + st.pending;
  }

  /** Rejecting and clearing keeps the cube in step with the log when the reversal undoes. */
  lemma RejectTracks(e: Engine, origin: CubeFaces, st: ListState)
    requires ReverseUndoes(e) && Tracks(e, origin, st)
    ensures Tracks(e, origin, Rejected(e, st))
    ensures Rejected(e, st).faces == ApplyMoves(e, origin, st.moves)
  {
    ApplyMovesAppend(e, origin, st.moves, st.pending);
    var mid := ApplyMoves(e, origin, st.moves);
    assert ApplyMoves(e, ApplyMoves(e, mid, st.pending), e.reverseMoves(st.pending)) == mid;
    assert st.moves + [] == st.moves;
  }

  /** Pushing moves onto an empty buffer and rejecting them restores the list, when the reversal undoes. */
  lemma PushRejectRestores(e: Engine, st: ListState, ms: seq<Move>)
    requires ReverseUndoes(e) && st.pending == []
    ensures Rejected(e, Pushed(e, st, ms)) == st
  {
    assert Pushed(e, st, ms).pending == ms;
    assert ApplyMoves(e, ApplyMoves(e, st.faces, ms), e.reverseMoves(ms)) == st.faces;
  }

  // ---------------------------------------------------------------------
  // An engine that turns only the stickers of the top face, enough to see
  // what a move list does with the cube.

  function TopTurn(m: Move, s: CubeFaces): CubeFaces
  {
    match m
    case Up => s[0 := QuarterTurn(s[0])]
    case UpPrime => s[0 := QuarterTurnBack(s[0])]
    case Up2 => s[0 := HalfTurn(s[0])]
    case _ => s
  }

  function InverseTopMove(m: Move): Move
  {
    match m
    case Up => Move.UpPrime
    case UpPrime => Move.Up
    case _ => m
  }

  /** The moves in reverse order, each inverted. */
  function ReverseTopMoves(p: seq<Move>): seq<Move>
  {
    if p == [] then [] else ReverseTopMoves(p[1..]) + [InverseTopMove(p[0])]
  }

  const TopFaceEngine: Engine := Engine((m, s) => TopTurn(m, s), p => ReverseTopMoves(p), n => [])

  lemma TopTurnUndone(m: Move, s: CubeFaces)
    ensures TopTurn(InverseTopMove(m), TopTurn(m, s)) == s
  {
    TurnAlgebra(s[0]);
    if m == Move.Up2 {
      assert HalfTurn(HalfTurn(s[0])) == s[0];
    }
  }

  lemma {:induction false} TopFaceEngineUndoes(s: CubeFaces, p: seq<Move>)
    ensures ApplyMoves(TopFaceEngine, ApplyMoves(TopFaceEngine, s, p), TopFaceEngine.reverseMoves(p)) == s
    decreases |p|
  {
    var e := TopFaceEngine;
    if p != [] {
      var t := e.execute(p[0], s);
      TopFaceEngineUndoes(t, p[1..]);
      assert e.reverseMoves(p) == e.reverseMoves(p[1..]) + [InverseTopMove(p[0])];
      ApplyMovesSnoc(e, ApplyMoves(e, s, p), e.reverseMoves(p[1..]), InverseTopMove(p[0]));
      TopTurnUndone(p[0], s);
    }
  }

  /** The top-face engine satisfies the hypothesis of RejectTracks. */
  lemma TopFaceEngineReverses()
    ensures ReverseUndoes(TopFaceEngine)
  {
    forall s: CubeFaces, p: seq<Move> {
      TopFaceEngineUndoes(s, p);
    }
  }

  /** A cube whose top face shows the test layout Cw0, the rest solved. */
  function Cw0Cube(): CubeFaces
  {
    SolvedFaces()[0 := Cw0]
  }

  /**
   * Rejecting as written loses track of the cube, even with a reversal that
   * undoes: the rejected Up is undone on the cube but stays pending, and the
   * next accept commits it.
   */
  lemma RejectAsWrittenLosesTrack()
    ensures var st := Pushed(TopFaceEngine, ListState([], [], Cw0Cube()), [Move.Up]);
            Tracks(TopFaceEngine, Cw0Cube(), st) &&
            !Tracks(TopFaceEngine, Cw0Cube(), RejectedAsWritten(TopFaceEngine, st)) &&
            Accepted(RejectedAsWritten(TopFaceEngine, st)).moves == [Move.Up] &&
            Accepted(RejectedAsWritten(TopFaceEngine, st)).faces == Cw0Cube()
  {
    var e := TopFaceEngine;
    var st := Pushed(e, ListState([], [], Cw0Cube()), [Move.Up]);
    assert [] + [Move.Up] == [Move.Up];
    assert st.faces == e.execute(Move.Up, Cw0Cube());
    TopFaceEngineUndoes(Cw0Cube(), [Move.Up]);
    TestLayoutCycles();
    assert ApplyMoves(e, Cw0Cube(), [Move.Up])[0] == Cw1;
    assert RejectedAsWritten(e, st).faces == Cw0Cube();
  }

  /** The corrected reject keeps track with the same engine, from any tracked state. */
  lemma RejectKeepsTrack(origin: CubeFaces, st: ListState)
    requires Tracks(TopFaceEngine, origin, st)
    ensures Tracks(TopFaceEngine, origin, Rejected(TopFaceEngine, st))
  {
    TopFaceEngineReverses();
    RejectTracks(TopFaceEngine, origin, st);
  }

  // ---------------------------------------------------------------------
  // The class

  class CubeMoveList {
    const mCube: Cube
    var mMoves: seq<Move>
    var mPendingMoves: seq<Move>
    /** The cube's stickers when the list was made; the log is replayed from here. */
    ghost const origin: CubeFaces

    ghost predicate Valid()
    {
      mCube.Valid()
    }

    ghost function Snapshot(): ListState
      reads this, mCube.mCube
      requires Valid()
    {
      ListState(mMoves, mPendingMoves, mCube.State())
    }

    /** The cube shows what the log and the pending moves make of the origin. */
    ghost predicate Consistent()
      reads this, mCube.mCube
      requires Valid()
    {
      Tracks(mCube.engine, origin, Snapshot())
    }

    /** An empty list driving the given cube. */
    constructor (cube: Cube)
      requires cube.Valid()
      ensures mCube == cube && Valid() && origin == cube.State()
      ensures mMoves == [] && mPendingMoves == [] && Consistent()
    {
      mCube := cube;
      mMoves := [];
      mPendingMoves := [];
      origin := cube.State();
    }

    /** Simulates the moves one after another; with acceptMoves they are committed as well. */
    method PushMoves(moves: seq<Move>, acceptMoves: bool := false)
      requires Valid()
      modifies this, mCube.mCube
      ensures Snapshot() == if acceptMoves then Accepted(Pushed(mCube.engine, old(Snapshot()), moves))
                            else Pushed(mCube.engine, old(Snapshot()), moves)
      ensures old(Consistent()) ==> Consistent()
    {
      for i := 0 to |moves|
        invariant Snapshot() == Pushed(mCube.engine, old(Snapshot()), moves[..i])
      {
        ghost var before := Snapshot();
        mPendingMoves := mPendingMoves + [moves[i]];
        mCube.ExecuteMove(moves[i]);
        ApplyMovesSnoc(mCube.engine, old(Snapshot()).faces, moves[..i], moves[i]);
        assert moves[..i + 1] == moves[..i] + [moves[i]];
        assert before.pending + [moves[i]] == old(Snapshot()).pending + moves[..i + 1];
      }
      assert moves[..|moves|] == moves;
      if acceptMoves {
        AcceptPendingMoves();
      }
      if old(Consistent()) {
        PushAcceptTrack(mCube.engine, origin, old(Snapshot()), moves);
        PushAcceptTrack(mCube.engine, origin, Pushed(mCube.engine, old(Snapshot()), moves), []);
      }
    }

    /** Simulates one move; with acceptMoves it is committed as well. */
    method PushMove(move: Move, acceptMoves: bool := false)
      requires Valid()
      modifies this, mCube.mCube
      ensures Snapshot() == if acceptMoves then Accepted(Pushed(mCube.engine, old(Snapshot()), [move]))
                            else Pushed(mCube.engine, old(Snapshot()), [move])
      ensures old(Consistent()) ==> Consistent()
    {
      mPendingMoves := mPendingMoves + [move];
      mCube.ExecuteMove(move);
      ApplyMovesSnoc(mCube.engine, old(Snapshot()).faces, [], move);
      assert [] + [move] == [move];
      assert Snapshot() == Pushed(mCube.engine, old(Snapshot()), [move]);
      if acceptMoves {
        AcceptPendingMoves();
      }
      if old(Consistent()) {
        PushAcceptTrack(mCube.engine, origin, old(Snapshot()), [move]);
        PushAcceptTrack(mCube.engine, origin, Pushed(mCube.engine, old(Snapshot()), [move]), []);
      }
    }

    /** Commits the pending moves. */
    method AcceptPendingMoves()
      requires Valid()
      modifies this
      ensures Snapshot() == Accepted(old(Snapshot()))
      ensures old(Consistent()) ==> Consistent()
    {
      mMoves := mMoves + mPendingMoves;
      mPendingMoves := [];
      if old(Consistent()) {
        PushAcceptTrack(mCube.engine, origin, old(Snapshot()), []);
      }
    }

    /** As written: undoes the pending moves on the cube but leaves them pending. */
    method RejectPendingMoves()
      requires Valid()
      modifies mCube.mCube
      ensures Snapshot() == RejectedAsWritten(mCube.engine, old(Snapshot()))
    {
      var reverseMoves := mCube.engine.reverseMoves(mPendingMoves);
      mCube.ExecuteMoves(reverseMoves);
    }

    /** Undoes the pending moves on the cube and drops them. */
    method RejectPendingMovesCorrected()
      requires Valid()
      modifies this, mCube.mCube
      ensures Snapshot() == Rejected(mCube.engine, old(Snapshot()))
      ensures ReverseUndoes(mCube.engine) && old(Consistent()) ==> Consistent()
    {
      var reverseMoves := mCube.engine.reverseMoves(mPendingMoves);
      mCube.ExecuteMoves(reverseMoves);
      mPendingMoves := [];
      if ReverseUndoes(mCube.engine) && old(Consistent()) {
        RejectTracks(mCube.engine, origin, old(Snapshot()));
      }
    }

    /** The committed log; calling it with moves still pending is a bug. */
    function GetMoves(): (moves: seq<Move>)
      reads this, mCube.mCube
      requires mPendingMoves == []
      ensures Valid() && Consistent() ==> mCube.State() == ApplyMoves(mCube.engine, origin, moves)
    {
      assert mMoves + [] == mMoves;
      mMoves
    }

    function GetNumMoves(): (n: nat)
      reads this
      ensures n == |mMoves|
    {
      |mMoves|
    }

    function GetNumPendingMoves(): (n: nat)
      reads this
      ensures n == |mPendingMoves|
    {
      |mPendingMoves|
    }
  }
}

// The Cube class of include/Cube.hpp and src/Cube.cpp: six faces of nine
// stickers held in place in a 6x9 array, read and written cell by cell.

module CubeState {
  import opened CubeDefs

  /**
   * The operations Cube declares but whose effect is not part of this model:
   * what one move does to the stickers (ExecuteMove is an empty stub), how a
   * move list is undone (ReverseMoves) and how a line of move notation is
   * read (ParseMoveNotation). A cube is built around a given engine.
   */
  datatype Engine = Engine(
    execute: (Move, CubeFaces) -> CubeFaces,
    reverseMoves: seq<Move> -> seq<Move>,
    parseMoveNotation: string -> seq<Move>)

  /** The state reached from s by executing the moves one after another. */
  function ApplyMoves(e: Engine, s: CubeFaces, moves: seq<Move>): CubeFaces
    decreases |moves|
  {
    if moves == [] then s else ApplyMoves(e, e.execute(moves[0], s), moves[1..])
  }

  /** Executing a + b is executing a and then b. */
  lemma {:induction false} ApplyMovesAppend(e: Engine, s: CubeFaces, a: seq<Move>, b: seq<Move>)
    ensures ApplyMoves(e, s, a + b) == ApplyMoves(e, ApplyMoves(e, s, a), b)
    decreases |a|
  {
    if a == [] {
      assert a + b == b;
    } else {
      assert (a + b)[0] == a[0];
      assert (a + b)[1..] == a[1..] + b;
      ApplyMovesAppend(e, e.execute(a[0], s), a[1..], b);
    }
  }

  /** Executing one more move extends the fold by one step. */
  lemma ApplyMovesSnoc(e: Engine, s: CubeFaces, a: seq<Move>, m: Move)
    ensures ApplyMoves(e, s, a + [m]) == e.execute(m, ApplyMoves(e, s, a))
  {
    ApplyMovesAppend(e, s, a, [m]);
    assert [m][1..] == [];
  }

  /** True when the array has the shape of CubeFaceData: six faces of nine cells. */
  predicate IsFaceData(data: array2<Color>)
  {
    data.Length0 == 6 && data.Length1 == 9
  }

  /** The stickers of face f as held in the array. */
  function FaceOf(data: array2<Color>, f: Face): (cells: FaceCells)
    reads data
    requires IsFaceData(data)
    ensures forall i :: 0 <= i < 9 ==> cells[i] == data[FaceIndex(f), i]
  {
    var cells := seq(9, i requires 0 <= i < 9 reads data => data[FaceIndex(f), i]);
    assert |cells| == 9;
    cells
  }

  /** The whole state held in the array, face by face. */
  function FacesOf(data: array2<Color>): (s: CubeFaces)
    reads data
    requires IsFaceData(data)
    ensures forall f :: s[FaceIndex(f)] == FaceOf(data, f)
  {
    [FaceOf(data, Face.Top), FaceOf(data, Face.Bottom), FaceOf(data, Face.Left),
     FaceOf(data, Face.Right), FaceOf(data, Face.Front), FaceOf(data, Face.Back)]
  }

  class Cube {
    /** The stickers: row FaceIndex(f) holds face f, column CubeDimsToIdx(x, y) its cell (x, y). */
    const mCube: array2<Color>
    const engine: Engine

    ghost predicate Valid()
    {
      IsFaceData(mCube)
    }

    /** The abstract value of the cube. */
    function State(): CubeFaces
      reads mCube
      requires Valid()
    {
      FacesOf(mCube)
    }

    /** A solved cube that moves with the given engine. */
    constructor (engine: Engine)
      ensures Valid() && fresh(mCube) && this.engine == engine
      ensures State() == SolvedFaces()
    {
      mCube := new Color[6, 9];
      this.engine := engine;
      new;
      SetDefaultState();
    }

    /** Paints every face in its default colour. */
    method SetDefaultState()
      requires Valid()
      modifies mCube
      ensures State() == SolvedFaces()
      ensures forall f, x, y :: 0 <= x < 3 && 0 <= y < 3 ==> GetState(f, x, y) == DefaultColorOfFace(f)
    {
      for i := 0 to 6
        invariant forall c :: ColorIndex(c) < i ==> FaceOf(mCube, DefaultFaceOfColor(c)) == SolidFace(c)
        invariant forall c :: ColorIndex(c) >= i ==> FaceOf(mCube, DefaultFaceOfColor(c)) == old(FaceOf(mCube, DefaultFaceOfColor(c)))
      {
        var color := ColorAt(i);
        var face := FaceIndex(DefaultFaceOfColor(color));
        ghost var before := FacesOf(mCube);
        for j := 0 to 9
          invariant forall k :: 0 <= k < j ==> mCube[face, k] == color
          invariant forall g, k :: 0 <= g < 6 && 0 <= k < 9 && (g != face || k >= j) ==> mCube[g, k] == before[g][k]
        {
          mCube[face, j] := color;
        }
      }
    }

    /** The sticker at column x, row y of the given face. */
    function GetState(face: Face, x: int, y: int): (c: Color)
      reads mCube
      requires Valid() && 0 <= x < CubeSize && 0 <= y < CubeSize
      ensures c == Cell(State(), face, x, y)
    {
      mCube[FaceIndex(face), CubeDimsToIdx(x, y)]
    }

    /** Paints the sticker at column x, row y of the given face. */
    method SetState(face: Face, x: int, y: int, color: Color)
      requires Valid() && 0 <= x < CubeSize && 0 <= y < CubeSize
      modifies mCube
      ensures GetState(face, x, y) == color
      ensures forall g, i, j :: 0 <= i < 3 && 0 <= j < 3 && (g != face || i != x || j != y) ==>
                GetState(g, i, j) == old(GetState(g, i, j))
    {
      mCube[FaceIndex(face), CubeDimsToIdx(x, y)] := color;
      CubeDimsToIdxBijective();
    }

    /** The colour of a face is the colour of its centre sticker. */
    function ColorOfFace(face: Face): (c: Color)
      reads mCube
      requires Valid()
      ensures c == GetState(face, 1, 1)
      ensures c == CenterOf(State(), face)
    {
      mCube[FaceIndex(face), CubeDimsToIdx(CubeSize / 2, CubeSize / 2)]
    }

    /**
     * The first face, in enum order, whose centre has the given colour;
     * when no face has it, the colour's default face.
     */
    method FaceOfColor(color: Color) returns (face: Face)
      requires Valid()
      ensures face == FaceOfColorFrom(State(), color, 0)
      ensures (exists g :: ColorOfFace(g) == color) ==>
                ColorOfFace(face) == color &&
                forall g :: FaceIndex(g) < FaceIndex(face) ==> ColorOfFace(g) != color
      ensures (forall g :: ColorOfFace(g) != color) ==> face == DefaultFaceOfColor(color)
    {
      for i := 0 to 6
        invariant FaceOfColorFrom(State(), color, i) == FaceOfColorFrom(State(), color, 0)
      {
        var f := FaceAt(i);
        if ColorOfFace(f) == color {
          face := f;
          FaceOfColorFromFirst(State(), color, 0);
          return;
        }
      }
      face := DefaultFaceOfColor(color);
      FaceOfColorFromFirst(State(), color, 0);
    }

    /** Executes one move: the stickers become what the engine makes of them. */
    method ExecuteMove(move: Move)
      requires Valid()
      modifies mCube
      ensures State() == engine.execute(move, old(State()))
    {
      var next := engine.execute(move, State());
      forall f, i | 0 <= f < 6 && 0 <= i < 9 {
        mCube[f, i] := next[f][i];
      }
      assert forall g :: FaceOf(mCube, g) == next[FaceIndex(g)];
    }

    /** Executes a series of moves, first to last. */
    method ExecuteMoves(moves: seq<Move>)
      requires Valid()
      modifies mCube
      ensures State() == ApplyMoves(engine, old(State()), moves)
    {
      for i := 0 to |moves|
        invariant State() == ApplyMoves(engine, old(State()), moves[..i])
      {
        ApplyMovesSnoc(engine, old(State()), moves[..i], moves[i]);
        assert moves[..i + 1] == moves[..i] + [moves[i]];
        ExecuteMove(moves[i]);
      }
      assert moves[..|moves|] == moves;
    }
  }
}

// The OLL (orientation of the last layer) patterns of src/CfopSolver.cpp:
// tOLLPattern, which tests the stickers of the top layer against templates
// of ones and zeros, and the catalogue of 57 patterns that
// FindAndExecuteCorrectOLL scans.

module Oll {
  import opened CubeDefs
  import opened CubeState
  import opened MoveLists
  import opened Catalogues

  // ---------------------------------------------------------------------
  // std::bitset<N>(value).to_string()

  function Pow2(w: nat): (p: nat)
    ensures p >= 1
  {
    if w == 0 then 1 else 2 * Pow2(w - 1)
  }

  /** The digit for the lowest bit of n. */
  function BitChar(n: nat): char
  {
    if n % 2 == 1 then '1' else '0'
  }

  /**
   * The low w bits of n as text, most significant first: the last
   * character is bit 0 and the first is bit w - 1.
   */
  function BitsetToString(n: nat, w: nat): (s: string)
    ensures |s| == w
    ensures IsBinary(s)
    decreases w
  {
    if w == 0 then [] else BitsetToString(n / 2, w - 1) + [BitChar(n)]
  }

  predicate IsBinary(s: string)
  {
    forall i :: 0 <= i < |s| ==> s[i] == '0' || s[i] == '1'
  }

  /** The number a text of binary digits denotes, most significant first. */
  function BinaryValue(s: string): nat
    decreases |s|
  {
    if s == [] then 0 else 2 * BinaryValue(s[..|s| - 1]) + (if s[|s| - 1] == '1' then 1 else 0)
  }

  /** Reading back the text of a number that fits in w bits gives the number. */
  lemma {:induction false} BitsetRoundTrip(n: nat, w: nat)
    requires n < Pow2(w)
    ensures BinaryValue(BitsetToString(n, w)) == n
    decreases w
  {
    if w > 0 {
      var s := BitsetToString(n, w);
      BitsetRoundTrip(n / 2, w - 1);
      assert s[..|s| - 1] == BitsetToString(n / 2, w - 1);
    }
  }

  /** Writing out the value of a binary text in as many bits gives the text back. */
  lemma {:induction false} BinaryRoundTrip(s: string)
    requires IsBinary(s)
    ensures BitsetToString(BinaryValue(s), |s|) == s
    decreases |s|
  {
    if s != [] {
      var init := s[..|s| - 1];
      assert IsBinary(init) by {
        forall i | 0 <= i < |init|
          ensures init[i] == '0' || init[i] == '1'
        {
          assert init[i] == s[i];
        }
      }
      BinaryRoundTrip(init);
      assert BinaryValue(s) / 2 == BinaryValue(init);
      assert s == init + [s[|s| - 1]];
    }
  }

  // ---------------------------------------------------------------------
  // The pattern

  /**
   * A tOLLPattern: a nine-digit template for the top face, indexed like its
   * cells, three-digit templates for the top rows of the front, right, back
   * and left faces, and the notation of the algorithm that solves the case.
   * A one marks a sticker that shows the top colour.
   */
  datatype OllPattern = OllPattern(top: string, front: string, right: string, back: string, left: string, notation: string)

  /** The number of ones in a template. */
  function Ones(s: string): nat
  {
    multiset(s)['1']
  }

  /**
   * The patterns the constructor admits: templates of nine and three digits
   * holding nine ones among them, as nine stickers of the top layer show the
   * top colour.
   */
  predicate ValidPattern(p: OllPattern)
  {
    |p.top| == 9 && |p.front| == 3 && |p.right| == 3 && |p.back| == 3 && |p.left| == 3 &&
    Ones(p.top) + Ones(p.front) + Ones(p.right) + Ones(p.back) + Ones(p.left) == 9
  }

  type OllTemplate = p: OllPattern | ValidPattern(p)
    witness OllPattern("111111111", "000", "000", "000", "000", "")

  /**
   * CreateOLLPattern, given the texts of the binary literals it is called
   * with: a literal of nine (three) digits makes a bit set whose text is the
   * literal's own digits (BinaryRoundTrip). The constructor requires nine
   * ones among the templates.
   */
  function CreateOllPattern(top: string, front: string, right: string, back: string, left: string, moves: string): (p: OllTemplate)
    requires |top| == 9 && |front| == 3 && |right| == 3 && |back| == 3 && |left| == 3
    requires Ones(top) + Ones(front) + Ones(right) + Ones(back) + Ones(left) == 9
    ensures p.top == top && p.front == front && p.right == right && p.back == back && p.left == left
    ensures p.notation == moves
  {
    OllPattern(top, front, right, back, left, moves)
  }

  // ---------------------------------------------------------------------
  // Matching

  /**
   * The case a pattern describes: on the top face, and on the top row of
   * each side face, a sticker shows the top face's colour exactly where the
   * template has a one.
   */
  predicate OllMatches(p: OllTemplate, s: CubeFaces)
  {
    var c := CenterOf(s, Face.Top);
    (forall x, y :: 0 <= x < 3 && 0 <= y < 3 ==> CellFits(p.top, s, Face.Top, x, y, c)) &&
    (forall x :: 0 <= x < 3 ==> CellFits(p.front, s, Face.Front, x, 0, c) && CellFits(p.right, s, Face.Right, x, 0, c) &&
                                CellFits(p.back, s, Face.Back, x, 0, c) && CellFits(p.left, s, Face.Left, x, 0, c))
  }

  /** The cell at (x, y) shows the colour exactly when its template digit is one. */
  predicate CellFits(template: string, s: CubeFaces, face: Face, x: int, y: int, color: Color)
    requires 0 <= x < CubeSize && 0 <= y < CubeSize && CubeDimsToIdx(x, y) < |template|
  {
    template[CubeDimsToIdx(x, y)] == '1' <==> Cell(s, face, x, y) == color
  }

  /** One cell against its template digit: the expected colour where the digit is one, any other colour elsewhere. */
  function CheckSquareMatch(cube: Cube, x: int, y: int, face: Face, expectedColor: Color, pattern: string): (r: bool)
    reads cube.mCube
    requires cube.Valid() && 0 <= x < CubeSize && 0 <= y < CubeSize && CubeDimsToIdx(x, y) < |pattern|
    ensures r == CellFits(pattern, cube.State(), face, x, y, expectedColor)
  {
    if pattern[CubeDimsToIdx(x, y)] == '1' then cube.GetState(face, x, y) == expectedColor
    else cube.GetState(face, x, y) != expectedColor
  }

  /** Tests the top face row by row, then the top rows of the sides column by column, stopping at the first cell that differs. */
  method CheckMatch(p: OllTemplate, cube: Cube) returns (matched: bool)
    requires cube.Valid()
    ensures matched == OllMatches(p, cube.State())
  {
    var topColor := cube.ColorOfFace(Face.Top);
    for j := 0 to 3
      invariant forall x, y :: 0 <= x < 3 && 0 <= y < j ==> CellFits(p.top, cube.State(), Face.Top, x, y, topColor)
    {
      for i := 0 to 3
        invariant forall x, y :: 0 <= x < 3 && 0 <= y < j ==> CellFits(p.top, cube.State(), Face.Top, x, y, topColor)
        invariant forall x :: 0 <= x < i ==> CellFits(p.top, cube.State(), Face.Top, x, j, topColor)
      {
        if !CheckSquareMatch(cube, i, j, Face.Top, topColor, p.top) {
          return false;
        }
      }
    }
    for i := 0 to 3
      invariant forall x, y :: 0 <= x < 3 && 0 <= y < 3 ==> CellFits(p.top, cube.State(), Face.Top, x, y, topColor)
      invariant forall x :: 0 <= x < i ==>
                  CellFits(p.front, cube.State(), Face.Front, x, 0, topColor) &&
                  CellFits(p.right, cube.State(), Face.Right, x, 0, topColor) &&
                  CellFits(p.back, cube.State(), Face.Back, x, 0, topColor) &&
                  CellFits(p.left, cube.State(), Face.Left, x, 0, topColor)
    {
      if !CheckSquareMatch(cube, i, 0, Face.Front, topColor, p.front) ||
         !CheckSquareMatch(cube, i, 0, Face.Right, topColor, p.right) ||
         !CheckSquareMatch(cube, i, 0, Face.Back, topColor, p.back) ||
         !CheckSquareMatch(cube, i, 0, Face.Left, topColor, p.left)
      {
        return false;
      }
    }
    return true;
  }

  /** Two templates mark the same cells with ones. */
  predicate SameOnes(a: string, b: string)
  {
    |a| == |b| && forall i :: 0 <= i < |a| ==> (a[i] == '1' <==> b[i] == '1')
  }

  /**
   * A cube fits at most one set of templates: two patterns that both match
   * it have their ones in the same places.
   */
  lemma OllMatchUnique(p: OllTemplate, q: OllTemplate, s: CubeFaces)
    requires OllMatches(p, s) && OllMatches(q, s)
    ensures SameOnes(p.top, q.top) && SameOnes(p.front, q.front) && SameOnes(p.right, q.right) &&
            SameOnes(p.back, q.back) && SameOnes(p.left, q.left)
  {
    forall i | 0 <= i < 9
      ensures p.top[i] == '1' <==> q.top[i] == '1'
    {
      var x, y := i % 3, i / 3;
      assert CubeDimsToIdx(x, y) == i;
      assert CellFits(p.top, s, Face.Top, x, y, CenterOf(s, Face.Top));
      assert CellFits(q.top, s, Face.Top, x, y, CenterOf(s, Face.Top));
    }
    forall i | 0 <= i < 3
      ensures (p.front[i] == '1' <==> q.front[i] == '1') && (p.right[i] == '1' <==> q.right[i] == '1') &&
              (p.back[i] == '1' <==> q.back[i] == '1') && (p.left[i] == '1' <==> q.left[i] == '1')
    {
      var c := CenterOf(s, Face.Top);
      assert CubeDimsToIdx(i, 0) == i;
      assert CellFits(p.front, s, Face.Front, i, 0, c) && CellFits(q.front, s, Face.Front, i, 0, c);
      assert CellFits(p.right, s, Face.Right, i, 0, c) && CellFits(q.right, s, Face.Right, i, 0, c);
      assert CellFits(p.back, s, Face.Back, i, 0, c) && CellFits(q.back, s, Face.Back, i, 0, c);
      assert CellFits(p.left, s, Face.Left, i, 0, c) && CellFits(q.left, s, Face.Left, i, 0, c);
    }
  }

  /** Pushes the pattern's algorithm when the cube matches it. */
  method PerformAlgIfMatches(p: OllTemplate, ml: CubeMoveList) returns (matched: bool)
    requires ml.Valid()
    modifies ml, ml.mCube.mCube
    ensures matched == OllMatches(p, old(ml.Snapshot()).faces)
    ensures ml.Snapshot() == if matched then Pushed(ml.mCube.engine, old(ml.Snapshot()), ml.mCube.engine.parseMoveNotation(p.notation))
                             else old(ml.Snapshot())
  {
    matched := CheckMatch(p, ml.mCube);
    if matched {
      ml.PushMoves(ml.mCube.engine.parseMoveNotation(p.notation));
    }
  }

  // ---------------------------------------------------------------------
  // The catalogue, in the order FindAndExecuteCorrectOLL tries it, each
  // pattern named after its OLL case number.

  const Oll29: OllTemplate := CreateOllPattern("011110001", "110", "010", "001", "000", "R U R' U' R U' R' F' U' F R U R'")
  const Oll30: OllTemplate := CreateOllPattern("010110101", "010", "011", "000", "100", "F R' F R2 U' R' U' R U R' F2")
  const Oll41: OllTemplate := CreateOllPattern("010110101", "010", "010", "101", "000", "R U R' U R U2 R' F R U R' U' F'")
  const Oll42: OllTemplate := CreateOllPattern("101110010", "101", "010", "010", "000", "R' U' R U' R' U2 R F R U R' U' F'")
  const Oll39: OllTemplate := CreateOllPattern("001111100", "010", "100", "011", "000", "L F' L' U' L U F U' L'")
  const Oll40: OllTemplate := CreateOllPattern("100111001", "010", "000", "110", "001", "R' F R U R' U' F' U R")
  const Oll34: OllTemplate := CreateOllPattern("000111101", "010", "001", "010", "100", "R U R2 U' R' F R U R U' F'")
  const Oll46: OllTemplate := CreateOllPattern("110010110", "000", "111", "000", "010", "R' U' R' F R F' U R")
  const Oll28: OllTemplate := CreateOllPattern("111110101", "010", "010", "000", "000", "r U R' U' r' R U R U' R'")
  const Oll57: OllTemplate := CreateOllPattern("101111101", "010", "000", "010", "000", "R U R' U' M' U R U' r'")
  const Oll21: OllTemplate := CreateOllPattern("010111010", "101", "000", "101", "000", "R U2 R' U' R U R' U' R U' R'")
  const Oll22: OllTemplate := CreateOllPattern("010111010", "001", "000", "100", "101", "R U2 R2 U' R2 U' R2 U2 R")
  const Oll23: OllTemplate := CreateOllPattern("010111111", "000", "000", "101", "000", "R2 D' R U2 R' D R U2 R")
  const Oll24: OllTemplate := CreateOllPattern("011111011", "100", "000", "001", "000", "r U R' U' r' F R F'")
  const Oll25: OllTemplate := CreateOllPattern("011111110", "001", "000", "000", "100", "F' r U R' U' r' F R")
  const Oll26: OllTemplate := CreateOllPattern("011111010", "100", "100", "000", "100", "R U2 R' U' R U' R'")
  const Oll27: OllTemplate := CreateOllPattern("010111110", "001", "001", "001", "000", "R U R' U R U2 R'")
  const Oll01: OllTemplate := CreateOllPattern("000010000", "010", "111", "010", "111", "R U2 R2 F R F' U2 R' F R F'")
  const Oll02: OllTemplate := CreateOllPattern("000010000", "010", "110", "111", "011", "r U r' U2 r U2 R' U2 R U' r'")
  const Oll03: OllTemplate := CreateOllPattern("000010100", "011", "011", "011", "010", "r' R2 U R' U r U2 r' U M'")
  const Oll04: OllTemplate := CreateOllPattern("000010001", "110", "010", "110", "110", "M U' r U2 r' U' R U' R' M'")
  const Oll17: OllTemplate := CreateOllPattern("100010001", "110", "011", "010", "010", "F R' F' R2 r' U R U' R' U' M'")
  const Oll18: OllTemplate := CreateOllPattern("101010000", "111", "010", "010", "010", "r U R' U R U2 r2 U' R U' R' U2 r")
  const Oll19: OllTemplate := CreateOllPattern("101010000", "010", "110", "010", "011", "r' R U R U R' U' M' R' F R F'")
  const Oll20: OllTemplate := CreateOllPattern("101010101", "010", "010", "010", "010", "r U R' U' M2 U R U' R' U' M'")
  const Oll09: OllTemplate := CreateOllPattern("010110001", "110", "010", "100", "100", "R U R' U' R' F R2 U R' U' F'")
  const Oll10: OllTemplate := CreateOllPattern("001110010", "001", "010", "011", "001", "R U R' U R' F R F' R U2 R'")
  const Oll35: OllTemplate := CreateOllPattern("100011011", "100", "001", "010", "010", "R U2 R2 F R F' R U2 R'")
  const Oll37: OllTemplate := CreateOllPattern("110110001", "110", "011", "000", "000", "F R' F' R U R U' R'")
  const Oll51: OllTemplate := CreateOllPattern("000111000", "110", "101", "011", "000", "F U R U' R' U R U' R' F'")
  const Oll52: OllTemplate := CreateOllPattern("010010010", "100", "111", "001", "010", "R U R' U R U' B U' B' R'")
  const Oll55: OllTemplate := CreateOllPattern("000111000", "111", "000", "111", "000", "R' F R U R U' R2 F' R2 U' R' U R U R'")
  const Oll56: OllTemplate := CreateOllPattern("000111000", "010", "101", "010", "101", "r' U' r U' R' U R U' R' U R r' U r")
  const Oll13: OllTemplate := CreateOllPattern("000111100", "011", "001", "011", "000", "F U R U' R2 F' R U R U' R'")
  const Oll14: OllTemplate := CreateOllPattern("000111001", "110", "000", "110", "100", "R' F R U R' F' R F U' F'")
  const Oll15: OllTemplate := CreateOllPattern("100111000", "011", "001", "010", "001", "l' U' l L' U' L U l' U l")
  const Oll16: OllTemplate := CreateOllPattern("001111000", "110", "100", "010", "100", "r U r' R U R' U' r U' r'")
  const Oll31: OllTemplate := CreateOllPattern("011011001", "110", "000", "001", "010", "R' U' F U R U' R' F' R")
  const Oll32: OllTemplate := CreateOllPattern("110110100", "011", "010", "100", "000", "L U F' U' L' U L F L'")
  const Oll43: OllTemplate := CreateOllPattern("011011001", "010", "000", "000", "111", "F' U' L' U L F")
  const Oll44: OllTemplate := CreateOllPattern("110110100", "010", "111", "000", "000", "F U R U' R' F'")
  const Oll47: OllTemplate := CreateOllPattern("010011000", "110", "101", "001", "010", "R' U' R' F R F' R' F R F' U R")
  const Oll48: OllTemplate := CreateOllPattern("010110000", "011", "010", "100", "101", "F R U R' U' R U R' U' F'")
  const Oll49: OllTemplate := CreateOllPattern("010011000", "011", "000", "100", "111", "r U' r2 U r2 U r2 U' r")
  const Oll50: OllTemplate := CreateOllPattern("000011010", "001", "000", "110", "111", "r' U r2 U' r2 U' r2 U r'")
  const Oll53: OllTemplate := CreateOllPattern("010011000", "111", "000", "101", "010", "l' U2 L U L' U' L U L' U l")
  const Oll54: OllTemplate := CreateOllPattern("010110000", "111", "010", "101", "000", "r U2 R' U' R U R' U' R U' r'")
  const Oll07: OllTemplate := CreateOllPattern("010110100", "011", "011", "001", "000", "r U R' U R U2 r'")
  const Oll08: OllTemplate := CreateOllPattern("010011001", "110", "000", "100", "110", "l' U' L U' L' U2 l")
  const Oll11: OllTemplate := CreateOllPattern("011110000", "011", "010", "001", "001", "r U R' U R' F R F' R U2 r'")
  const Oll12: OllTemplate := CreateOllPattern("110011000", "110", "100", "100", "010", "M' R' U' R U' R' U2 R U' R r'")
  const Oll05: OllTemplate := CreateOllPattern("110110000", "011", "011", "000", "001", "l' U2 L U L' U l")
  const Oll06: OllTemplate := CreateOllPattern("011011000", "110", "100", "000", "110", "r U2 R' U' R U' r'")
  const Oll33: OllTemplate := CreateOllPattern("001111001", "110", "000", "011", "000", "R U R' U' R' F R F'")
  const Oll45: OllTemplate := CreateOllPattern("001111001", "010", "000", "010", "101", "F R U R' U' F'")
  const Oll36: OllTemplate := CreateOllPattern("110011001", "010", "000", "100", "011", "L' U' L U' L' U L U L F' L' F")
  const Oll38: OllTemplate := CreateOllPattern("011110100", "010", "110", "001", "000", "R U R' U R U' R' U' R' F R F'")

  const OllCatalogue: seq<OllTemplate> := [
    Oll29, Oll30, Oll41, Oll42, Oll39, Oll40, Oll34, Oll46,
    Oll28, Oll57, Oll21, Oll22, Oll23, Oll24, Oll25, Oll26,
    Oll27, Oll01, Oll02, Oll03, Oll04, Oll17, Oll18, Oll19,
    Oll20, Oll09, Oll10, Oll35, Oll37, Oll51, Oll52, Oll55,
    Oll56, Oll13, Oll14, Oll15, Oll16, Oll31, Oll32, Oll43,
    Oll44, Oll47, Oll48, Oll49, Oll50, Oll53, Oll54, Oll07,
    Oll08, Oll11, Oll12, Oll05, Oll06, Oll33, Oll45, Oll36,
    Oll38
  ]

  /** The matching test of a pattern against the cube as it is. */
  function OllMatcher(s: CubeFaces): OllTemplate -> bool
  {
    (p: OllTemplate) => OllMatches(p, s)
  }

  /** The notation of the first pattern of a catalogue that the cube matches. */
  function FirstOllNotation(catalogue: seq<OllTemplate>, s: CubeFaces): Option<string>
  {
    var k := FirstMatchFrom(catalogue, OllMatcher(s), 0);
    if k.Some? then Some(catalogue[k.value].notation) else None
  }

  /** Any pattern of a catalogue that matches has its ones where the pattern found has them. */
  lemma FirstOllMeaning(catalogue: seq<OllTemplate>, s: CubeFaces, i: nat)
    requires i < |catalogue| && OllMatches(catalogue[i], s)
    ensures FirstMatchFrom(catalogue, OllMatcher(s), 0).Some? && FirstMatchFrom(catalogue, OllMatcher(s), 0).value <= i
    ensures var p := catalogue[FirstMatchFrom(catalogue, OllMatcher(s), 0).value];
      FirstOllNotation(catalogue, s) == Some(p.notation) &&
      SameOnes(p.top, catalogue[i].top) && SameOnes(p.front, catalogue[i].front) &&
      SameOnes(p.right, catalogue[i].right) && SameOnes(p.back, catalogue[i].back) &&
      SameOnes(p.left, catalogue[i].left)
  {
    assert OllMatcher(s)(catalogue[i]);
    OllMatchUnique(catalogue[FirstMatchFrom(catalogue, OllMatcher(s), 0).value], catalogue[i], s);
  }

  /**
   * One scan of the catalogue in FindAndExecuteCorrectOLL: the first pattern
   * the cube matches has its algorithm pushed.
   */
  method PerformFirstMatchingOll(catalogue: seq<OllTemplate>, ml: CubeMoveList) returns (found: bool)
    requires ml.Valid()
    modifies ml, ml.mCube.mCube
    ensures var r := FirstOllNotation(catalogue, old(ml.Snapshot()).faces);
      found == r.Some? &&
      ml.Snapshot() == if found then Pushed(ml.mCube.engine, old(ml.Snapshot()), ml.mCube.engine.parseMoveNotation(r.value))
                       else old(ml.Snapshot())
  {
    for i := 0 to |catalogue|
      invariant ml.Snapshot() == old(ml.Snapshot())
      invariant FirstMatchFrom(catalogue, OllMatcher(old(ml.Snapshot()).faces), i) == FirstMatchFrom(catalogue, OllMatcher(old(ml.Snapshot()).faces), 0)
    {
      found := PerformAlgIfMatches(catalogue[i], ml);
      if found {
        return;
      }
    }
    return false;
  }
}

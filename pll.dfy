// The PLL (permutation of the last layer) patterns of src/CfopSolver.cpp:
// tPLLPattern, which names the colour of each sticker in the top rows of
// the side faces by a letter and matches when every letter stands for one
// colour throughout, and the catalogue of 21 patterns that
// FindAndExecuteCorrectPLL scans.

module Pll {
  import opened CubeDefs
  import opened CubeState
  import opened MoveLists
  import opened Catalogues

  /**
   * A tPLLPattern: for the top row of the front, right, back and left faces
   * a three-letter template, and the notation of the algorithm that solves
   * the case. A letter names the face whose colour the sticker should have
   * once the algorithm is done; its actual colour is fixed by the first
   * sticker that carries the letter.
   */
  datatype PllPattern = PllPattern(front: string, right: string, back: string, left: string, notation: string)

  predicate IsSymbol(c: char)
  {
    c == 'F' || c == 'R' || c == 'B' || c == 'L'
  }

  /** Three letters, each one of F, R, B and L. */
  predicate IsLetters(t: string)
  {
    |t| == 3 && IsSymbol(t[0]) && IsSymbol(t[1]) && IsSymbol(t[2])
  }

  lemma LetterAt(t: string, i: nat)
    requires IsLetters(t) && i < 3
    ensures IsSymbol(t[i])
  {
  }

  /** The patterns CheckSquareMatch can read. */
  predicate ValidPattern(p: PllPattern)
  {
    IsLetters(p.front) && IsLetters(p.right) && IsLetters(p.back) && IsLetters(p.left)
  }

  type PllTemplate = p: PllPattern | ValidPattern(p)
    witness PllPattern("FFF", "RRR", "BBB", "LLL", "")

  /** The side faces in the order CheckMatch visits them within a column. */
  const SideOrder: seq<Face> := [Face.Front, Face.Right, Face.Back, Face.Left]

  /** The template of the j-th face of SideOrder. */
  function Template(p: PllTemplate, j: nat): (t: string)
    requires j < 4
    ensures IsLetters(t)
  {
    if j == 0 then p.front else if j == 1 then p.right else if j == 2 then p.back else p.left
  }

  /**
   * The twelve letters in the order CheckMatch visits their stickers:
   * column by column, and front, right, back and left within a column.
   */
  function Letters(p: PllTemplate): (r: seq<char>)
    ensures |r| == 12
  {
    [p.front[0], p.right[0], p.back[0], p.left[0],
     p.front[1], p.right[1], p.back[1], p.left[1],
     p.front[2], p.right[2], p.back[2], p.left[2]]
  }

  /** The colours of the side faces' top rows, in the same order. */
  function SideColors(s: CubeFaces): (r: seq<Color>)
    ensures |r| == 12
  {
    [Cell(s, Face.Front, 0, 0), Cell(s, Face.Right, 0, 0), Cell(s, Face.Back, 0, 0), Cell(s, Face.Left, 0, 0),
     Cell(s, Face.Front, 1, 0), Cell(s, Face.Right, 1, 0), Cell(s, Face.Back, 1, 0), Cell(s, Face.Left, 1, 0),
     Cell(s, Face.Front, 2, 0), Cell(s, Face.Right, 2, 0), Cell(s, Face.Back, 2, 0), Cell(s, Face.Left, 2, 0)]
  }

  /** The letter of the k-th sticker visited. */
  function Sym(p: PllTemplate, k: nat): (c: char)
    requires k < 12
    ensures IsSymbol(c)
  {
    Letters(p)[k]
  }

  /** The colour of the k-th sticker visited. */
  function SideCell(s: CubeFaces, k: nat): Color
    requires k < 12
  {
    SideColors(s)[k]
  }

  /** The sticker visited at step 4 * i + j is column i of face SideOrder[j]. */
  lemma VisitAt(p: PllTemplate, s: CubeFaces, i: nat, j: nat)
    requires i < 3 && j < 4
    ensures Sym(p, 4 * i + j) == Template(p, j)[i]
    ensures SideCell(s, 4 * i + j) == Cell(s, SideOrder[j], i, 0)
  {
    var k := 4 * i + j;
    if i == 0 {
      assert k == j;
    } else if i == 1 {
      assert k == 4 + j;
    } else {
      assert k == 8 + j;
    }
  }

  /** The stickers among the first n visited that carry the same letter have the same colour. */
  predicate Consistent(p: PllTemplate, s: CubeFaces, n: nat)
    requires n <= 12
  {
    forall k, l :: 0 <= k < n && 0 <= l < n && Sym(p, k) == Sym(p, l) ==> SideCell(s, k) == SideCell(s, l)
  }

  /**
   * The case a pattern describes: the stickers of the side faces' top rows
   * that carry the same letter have the same colour. Different letters may
   * have the same colour.
   */
  predicate PllMatches(p: PllTemplate, s: CubeFaces)
  {
    Consistent(p, s, 12)
  }

  // ---------------------------------------------------------------------
  // The colours bound to the letters while matching

  /** The four colours CheckMatch binds; None is eCubeColor::NumColors, not bound yet. */
  datatype Bindings = Bindings(front: Option<Color>, right: Option<Color>, back: Option<Color>, left: Option<Color>)

  function Bound(b: Bindings, sym: char): Option<Color>
    requires IsSymbol(sym)
  {
    if sym == 'F' then b.front else if sym == 'R' then b.right else if sym == 'B' then b.back else b.left
  }

  function Bind(b: Bindings, sym: char, c: Color): (b': Bindings)
    requires IsSymbol(sym)
    ensures Bound(b', sym) == Some(c)
    ensures forall t :: IsSymbol(t) && t != sym ==> Bound(b', t) == Bound(b, t)
  {
    if sym == 'F' then b.(front := Some(c)) else if sym == 'R' then b.(right := Some(c))
    else if sym == 'B' then b.(back := Some(c)) else b.(left := Some(c))
  }

  /**
   * A sticker of colour c carrying letter sym, against bindings b: whether
   * it fits, and the bindings after it. An unbound letter fits and is bound
   * to c; a bound letter fits when it is bound to c.
   */
  function Fit(b: Bindings, sym: char, c: Color): (bool, Bindings)
    requires IsSymbol(sym)
  {
    if Bound(b, sym).None? then (true, Bind(b, sym, c)) else (Bound(b, sym) == Some(c), b)
  }

  /** The first of the first n visited stickers that carries the letter. */
  function FirstWith(p: PllTemplate, sym: char, n: nat): (r: Option<nat>)
    requires n <= 12
    ensures r.Some? ==> r.value < n && Sym(p, r.value) == sym && forall k :: 0 <= k < r.value ==> Sym(p, k) != sym
    ensures r.None? ==> forall k :: 0 <= k < n ==> Sym(p, k) != sym
  {
    if n == 0 then None
    else
      var r := FirstWith(p, sym, n - 1);
      if r.Some? then r else if Sym(p, n - 1) == sym then Some(n - 1) else None
  }

  /** After n stickers, each letter is bound to the colour of its first sticker, or unbound when none carried it. */
  predicate Agrees(p: PllTemplate, s: CubeFaces, n: nat, b: Bindings)
    requires n <= 12
  {
    forall sym :: IsSymbol(sym) ==>
      Bound(b, sym) == (var f := FirstWith(p, sym, n); if f.Some? then Some(SideCell(s, f.value)) else None)
  }

  /**
   * Visiting the next sticker: it keeps the stickers consistent exactly when
   * its letter is unbound or bound to its colour; binding an unbound letter
   * to its colour keeps the bindings in step.
   */
  lemma Step(p: PllTemplate, s: CubeFaces, n: nat, b: Bindings)
    requires n < 12 && Consistent(p, s, n) && Agrees(p, s, n, b)
    ensures var r := Fit(b, Sym(p, n), SideCell(s, n));
      (Consistent(p, s, n + 1) <==> r.0) && Agrees(p, s, n + 1, r.1)
  {
    StepConsistent(p, s, n, b);
    StepAgrees(p, s, n, b);
  }

  lemma StepConsistent(p: PllTemplate, s: CubeFaces, n: nat, b: Bindings)
    requires n < 12 && Consistent(p, s, n) && Agrees(p, s, n, b)
    ensures Consistent(p, s, n + 1) <==> Fit(b, Sym(p, n), SideCell(s, n)).0
  {
    var sym, c := Sym(p, n), SideCell(s, n);
    var f := FirstWith(p, sym, n);
    if f.Some? {
      if Consistent(p, s, n + 1) {
        assert SideCell(s, f.value) == c;
      }
      if Bound(b, sym) == Some(c) {
        forall k, l | 0 <= k < n + 1 && 0 <= l < n + 1 && Sym(p, k) == Sym(p, l)
          ensures SideCell(s, k) == SideCell(s, l)
        {
          if k == n || l == n {
            assert SideCell(s, k) == SideCell(s, f.value) && SideCell(s, l) == SideCell(s, f.value);
          }
        }
      }
    }
  }

  lemma StepAgrees(p: PllTemplate, s: CubeFaces, n: nat, b: Bindings)
    requires n < 12 && Agrees(p, s, n, b)
    ensures Agrees(p, s, n + 1, Fit(b, Sym(p, n), SideCell(s, n)).1)
  {
    var sym, c := Sym(p, n), SideCell(s, n);
    var b' := if Bound(b, sym).None? then Bind(b, sym, c) else b;
    forall t | IsSymbol(t)
      ensures Bound(b', t) == (var g := FirstWith(p, t, n + 1); if g.Some? then Some(SideCell(s, g.value)) else None)
    {
    }
  }

  // ---------------------------------------------------------------------
  // Matching

  /**
   * One sticker against its letter: an unbound letter is bound to the
   * sticker's colour and matches; a bound letter matches when its colour is
   * the sticker's.
   */
  method CheckSquareMatch(cube: Cube, x: int, y: int, face: Face, b: Bindings, pattern: string)
    returns (matched: bool, b': Bindings)
    requires cube.Valid() && 0 <= x < CubeSize && 0 <= y < CubeSize
    requires CubeDimsToIdx(x, y) < |pattern| && IsSymbol(pattern[CubeDimsToIdx(x, y)])
    ensures (matched, b') == Fit(b, pattern[CubeDimsToIdx(x, y)], Cell(cube.State(), face, x, y))
  {
    var patternValue := pattern[CubeDimsToIdx(x, y)];
    var expectedColor := Bound(b, patternValue);
    if expectedColor.None? {
      b' := Bind(b, patternValue, cube.GetState(face, x, y));
      return true, b';
    }
    return expectedColor.value == cube.GetState(face, x, y), b;
  }

  /**
   * The run of CheckMatch from the sticker of column i of face SideOrder[j]
   * on, with bindings b: true when every remaining sticker fits its letter,
   * binding letters as they first appear.
   */
  function MatchRun(p: PllTemplate, s: CubeFaces, i: nat, j: nat, b: Bindings): bool
    requires (i < 3 && j < 4) || (i == 3 && j == 0)
    decreases 12 - (4 * i + j)
  {
    if i == 3 then true
    else
      LetterAt(Template(p, j), i);
      var r := Fit(b, Template(p, j)[i], Cell(s, SideOrder[j], i, 0));
      r.0 && MatchRun(p, s, if j == 3 then i + 1 else i, if j == 3 then 0 else j + 1, r.1)
  }

  /** Consistency of a longer prefix implies that of a shorter one. */
  lemma ConsistentPrefix(p: PllTemplate, s: CubeFaces, n: nat, m: nat)
    requires n <= m <= 12 && Consistent(p, s, m)
    ensures Consistent(p, s, n)
  {
  }

  /** The first step of the run, in terms of the visiting order. */
  lemma RunAt(p: PllTemplate, s: CubeFaces, i: nat, j: nat, b: Bindings)
    requires i < 3 && j < 4
    ensures var r := Fit(b, Sym(p, 4 * i + j), SideCell(s, 4 * i + j));
      MatchRun(p, s, i, j, b) == (r.0 && MatchRun(p, s, if j == 3 then i + 1 else i, if j == 3 then 0 else j + 1, r.1))
  {
    VisitAt(p, s, i, j);
  }

  /**
   * From bindings that agree with the stickers visited so far, which are
   * consistent, the run succeeds exactly when all twelve stickers are
   * consistent.
   */
  lemma {:induction false} MatchRunMeaning(p: PllTemplate, s: CubeFaces, i: nat, j: nat, n: nat, b: Bindings)
    requires ((i < 3 && j < 4) || (i == 3 && j == 0)) && n == 4 * i + j
    requires Consistent(p, s, n) && Agrees(p, s, n, b)
    ensures MatchRun(p, s, i, j, b) == PllMatches(p, s)
    decreases 12 - n
  {
    if i < 3 {
      var r := Fit(b, Sym(p, n), SideCell(s, n));
      RunAt(p, s, i, j, b);
      Step(p, s, n, b);
      if !r.0 {
        if PllMatches(p, s) {
          ConsistentPrefix(p, s, n + 1, 12);
        }
      } else {
        MatchRunMeaning(p, s, if j == 3 then i + 1 else i, if j == 3 then 0 else j + 1, n + 1, r.1);
      }
    }
  }

  /** The four stickers of column i, with the run's bindings so far. */
  method CheckColumn(p: PllTemplate, cube: Cube, i: nat, b: Bindings) returns (ok: bool, b': Bindings)
    requires cube.Valid() && i < 3
    ensures ok ==> MatchRun(p, cube.State(), i, 0, b) == MatchRun(p, cube.State(), i + 1, 0, b')
    ensures !ok ==> !MatchRun(p, cube.State(), i, 0, b)
  {
    ghost var s := cube.State();
    assert CubeDimsToIdx(i, 0) == i;
    LetterAt(p.front, i);
    LetterAt(p.right, i);
    LetterAt(p.back, i);
    LetterAt(p.left, i);
    ok, b' := CheckSquareMatch(cube, i, 0, Face.Front, b, p.front);
    if !ok {
      return;
    }
    ghost var b1 := b';
    ok, b' := CheckSquareMatch(cube, i, 0, Face.Right, b', p.right);
    if !ok {
      assert !MatchRun(p, s, i, 1, b1);
      return;
    }
    ghost var b2 := b';
    ok, b' := CheckSquareMatch(cube, i, 0, Face.Back, b', p.back);
    if !ok {
      assert !MatchRun(p, s, i, 2, b2);
      assert !MatchRun(p, s, i, 1, b1);
      return;
    }
    ghost var b3 := b';
    ok, b' := CheckSquareMatch(cube, i, 0, Face.Left, b', p.left);
    assert MatchRun(p, s, i, 3, b3) == (ok && MatchRun(p, s, i + 1, 0, b'));
    assert MatchRun(p, s, i, 2, b2) == MatchRun(p, s, i, 3, b3);
    assert MatchRun(p, s, i, 1, b1) == MatchRun(p, s, i, 2, b2);
  }

  /** Visits the top rows column by column, front, right, back and left in each, stopping at the first sticker that does not fit. */
  method CheckMatch(p: PllTemplate, cube: Cube) returns (matched: bool)
    requires cube.Valid()
    ensures matched == PllMatches(p, cube.State())
  {
    ghost var s := cube.State();
    var b := Bindings(None, None, None, None);
    MatchRunMeaning(p, s, 0, 0, 0, b);
    for i := 0 to 3
      invariant MatchRun(p, s, i, 0, b) == PllMatches(p, s)
    {
      var ok;
      ok, b := CheckColumn(p, cube, i, b);
      if !ok {
        return false;
      }
    }
    return true;
  }

  /** Pushes the pattern's algorithm when the cube matches it. */
  method PerformAlgIfMatches(p: PllTemplate, ml: CubeMoveList) returns (matched: bool)
    requires ml.Valid()
    modifies ml, ml.mCube.mCube
    ensures matched == PllMatches(p, old(ml.Snapshot()).faces)
    ensures ml.Snapshot() == if matched then Pushed(ml.mCube.engine, old(ml.Snapshot()), ml.mCube.engine.parseMoveNotation(p.notation))
                             else old(ml.Snapshot())
  {
    matched := CheckMatch(p, ml.mCube);
    if matched {
      ml.PushMoves(ml.mCube.engine.parseMoveNotation(p.notation));
    }
  }

  // ---------------------------------------------------------------------
  // The catalogue, in the order FindAndExecuteCorrectPLL tries it

  /**
   * CreatePLLPattern. Its templates must consist of the letters F, R, B and
   * L, which CheckSquareMatch demands of every letter it reads.
   */
  function CreatePllPattern(front: string, right: string, back: string, left: string, moves: string): (p: PllTemplate)
    requires IsLetters(front) && IsLetters(right) && IsLetters(back) && IsLetters(left)
    ensures p.front == front && p.right == right && p.back == back && p.left == left && p.notation == moves
  {
    PllPattern(front, right, back, left, moves)
  }

  const PllAa: PllTemplate := CreatePllPattern("LFF", "RRL", "FBR", "BLB", "x L2 D2 L' U' L D2 L' U L'")
  const PllAb: PllTemplate := CreatePllPattern("RFB", "LRR", "BBL", "FLF", "x' L2 D2 L U L' D2 L U' L")
  const PllF: PllTemplate := CreatePllPattern("FBR", "BRF", "RFB", "LLL", "R' U' F' R U R' U' R' F R2 U' R' U' R U R' U R")
  const PllGa: PllTemplate := CreatePllPattern("FRR", "BLF", "RFB", "LBL", "R2 U R' U R' U' R U' R2 U' D R' U R D'")
  const PllGb: PllTemplate := CreatePllPattern("FBR", "BFF", "RLB", "LRL", "R' U' R U D' R2 U R' U R U' R U' R2 D")
  const PllGc: PllTemplate := CreatePllPattern("FBR", "BLF", "RRB", "LFL", "R2 U' R U' R U R' U R2 U D' R U' R' D")
  const PllGd: PllTemplate := CreatePllPattern("FLR", "BBF", "RFB", "LRL", "R U R' U' D R2 U' R U' R' U R' U R2 D'")
  const PllJa: PllTemplate := CreatePllPattern("FFR", "BBF", "RRB", "LLL", "x R2 F R F' R U2 r' U r U2")
  const PllJb: PllTemplate := CreatePllPattern("LFF", "RLL", "FRR", "BBB", "R U R' F' R U R' U' R' F R2 U' R'")
  const PllRa: PllTemplate := CreatePllPattern("LLF", "RFL", "FBR", "BRB", "R U' R' U' R U R D R' U' R D' R' U2 R'")
  const PllRb: PllTemplate := CreatePllPattern("RFB", "LBR", "BLL", "FRF", "R2 F R U R U' R' F' R U2 R' U2 R")
  const PllT: PllTemplate := CreatePllPattern("FFR", "BLF", "RBB", "LRL", "R U R' U' R' F R2 U' R' U' R U R' F'")
  const PllE: PllTemplate := CreatePllPattern("LFR", "BRF", "RBL", "FLB", "x' L' U L D' L' U' L D L' U' L D' L' U L D")
  const PllNa: PllTemplate := CreatePllPattern("BFF", "RLL", "FBB", "LRR", "R U R' U R U R' F' R U R' U' R' F R2 U' R' U2 R U' R'")
  const PllNb: PllTemplate := CreatePllPattern("FFB", "LLR", "BBF", "RRL", "R' U R U' R' F' U' F R U R' F R' F' R U' R")
  const PllV: PllTemplate := CreatePllPattern("FFB", "LBR", "BRF", "RLL", "R' U R' U' y R' F' R2 U' R' U R' F R F")
  const PllY: PllTemplate := CreatePllPattern("FFB", "LRR", "BLF", "RBL", "F R U' R' U' R U R' F' R U R' U' R' F R F'")
  const PllH: PllTemplate := CreatePllPattern("FBF", "RLR", "BFB", "LRL", "M2 U M2 U2 M2 U M2")
  const PllUa: PllTemplate := CreatePllPattern("FRF", "RLR", "BBB", "LFL", "M2 U M U2 M' U M2")
  const PllUb: PllTemplate := CreatePllPattern("FLF", "RFR", "BBB", "LRL", "M2 U' M U2 M' U' M2")
  const PllZ: PllTemplate := CreatePllPattern("LBL", "FRF", "RFR", "BLB", "M' U M2 U M2 U M' U2 M2")

  const PllCatalogue: seq<PllTemplate> := [
    PllAa, PllAb, PllF, PllGa, PllGb, PllGc, PllGd,
    PllJa, PllJb, PllRa, PllRb, PllT, PllE, PllNa,
    PllNb, PllV, PllY, PllH, PllUa, PllUb, PllZ
  ]

  /** The matching test of a pattern against the cube as it is. */
  function PllMatcher(s: CubeFaces): PllTemplate -> bool
  {
    (p: PllTemplate) => PllMatches(p, s)
  }

  /** The notation of the first pattern of a catalogue that the cube matches. */
  function FirstPllNotation(catalogue: seq<PllTemplate>, s: CubeFaces): Option<string>
  {
    var k := FirstMatchFrom(catalogue, PllMatcher(s), 0);
    if k.Some? then Some(catalogue[k.value].notation) else None
  }

  /**
   * One scan of the catalogue in FindAndExecuteCorrectPLL: the first pattern
   * the cube matches has its algorithm pushed.
   */
  method PerformFirstMatchingPll(catalogue: seq<PllTemplate>, ml: CubeMoveList) returns (found: bool)
    requires ml.Valid()
    modifies ml, ml.mCube.mCube
    ensures var r := FirstPllNotation(catalogue, old(ml.Snapshot()).faces);
      found == r.Some? &&
      ml.Snapshot() == if found then Pushed(ml.mCube.engine, old(ml.Snapshot()), ml.mCube.engine.parseMoveNotation(r.value))
                       else old(ml.Snapshot())
  {
    for i := 0 to |catalogue|
      invariant ml.Snapshot() == old(ml.Snapshot())
      invariant FirstMatchFrom(catalogue, PllMatcher(old(ml.Snapshot()).faces), i) == FirstMatchFrom(catalogue, PllMatcher(old(ml.Snapshot()).faces), 0)
    {
      found := PerformAlgIfMatches(catalogue[i], ml);
      if found {
        return;
      }
    }
    return false;
  }
}

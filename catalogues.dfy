// The scans of FindAndExecuteCorrectOLL and FindAndExecuteCorrectPLL in
// src/CfopSolver.cpp, which try the patterns of a catalogue in order and stop
// at the first that matches.

module Catalogues {
  import opened CubeDefs

  /** The index of the first entry from i on that matches, if any. */
  function FirstMatchFrom<T>(catalogue: seq<T>, matches: T -> bool, i: nat): (r: Option<nat>)
    requires i <= |catalogue|
    ensures r.Some? ==> i <= r.value < |catalogue| && matches(catalogue[r.value]) &&
                        forall j :: i <= j < r.value ==> !matches(catalogue[j])
    ensures r.None? ==> forall j :: i <= j < |catalogue| ==> !matches(catalogue[j])
    decreases |catalogue| - i
  {
    if i == |catalogue| then None
    else if matches(catalogue[i]) then Some(i)
    else FirstMatchFrom(catalogue, matches, i + 1)
  }
}

/**
 * Python's `max(iterable, key=f)`: it scans left to right and replaces its candidate
 * only by a strictly greater key, so among equal maxima the first one wins.
 */
module ArgMax {

  /** `i` holds a greatest value of `vals` and every earlier value is strictly smaller. */
  ghost predicate IsFirstMax(vals: seq<real>, i: int) {
    && 0 <= i < |vals|
    && (forall j :: 0 <= j < |vals| ==> vals[j] <= vals[i])
    && (forall j :: 0 <= j < i ==> vals[j] < vals[i])
  }

  /** The index `max` settles on, computed as the scan does it: the last value challenges the winner of the prefix. */
  function FirstMax(vals: seq<real>): (i: nat)
    requires |vals| > 0
    ensures IsFirstMax(vals, i)
  {
    if |vals| == 1 then 0
    else
      var k := FirstMax(vals[..|vals| - 1]);
      if vals[|vals| - 1] > vals[k] then |vals| - 1 else k
  }

  /** The first maximum is unique, so `IsFirstMax` characterises `FirstMax` completely. */
  lemma FirstMaxUnique(vals: seq<real>, i: int, j: int)
    requires IsFirstMax(vals, i) && IsFirstMax(vals, j)
    ensures i == j
  {
    // both are maxima, so they hold equal values, and neither can be strictly before the other
    assert vals[i] == vals[j];
  }

  lemma FirstMaxCharacterised(vals: seq<real>, i: int)
    requires |vals| > 0
    ensures IsFirstMax(vals, i) <==> i == FirstMax(vals)
  {
    if IsFirstMax(vals, i) {
      FirstMaxUnique(vals, i, FirstMax(vals));
    }
  }
}

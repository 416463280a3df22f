/** Sequence searches in the shape the handlers use them: JavaScript's
    `Array.prototype.some` and `Array.prototype.find`, which scan from the
    front and stop at the first element that satisfies the callback. */
module Search {

  /** The conventional optional value; stands for a JSON field that may be
      absent or `null`. */
  datatype Option<+T> = None | Some(value: T)

  /** `s.some(p)`: whether some element satisfies `p`. */
  function Any<T>(s: seq<T>, p: T -> bool): (r: bool)
    ensures r <==> exists i :: 0 <= i < |s| && p(s[i])
    decreases |s|
  {
    if |s| == 0 then false
    else if p(s[0]) then true
    else
      var rest := Any(s[1..], p);
      assert forall i :: 0 < i < |s| ==> s[i] == s[1..][i - 1];
      rest
  }

  /** The position `s.find(p)` returns the element of: the first element
      satisfying `p`, or None when there is none. */
  function FindIndex<T>(s: seq<T>, p: T -> bool): (r: Option<nat>)
    ensures r.Some? ==> r.value < |s| && p(s[r.value])
    ensures r.Some? ==> forall j :: 0 <= j < r.value ==> !p(s[j])
    ensures r.None? <==> forall j :: 0 <= j < |s| ==> !p(s[j])
    decreases |s|
  {
    if |s| == 0 then None
    else if p(s[0]) then Some(0)
    else
      match FindIndex(s[1..], p)
      case None =>
        assert forall j :: 0 < j < |s| ==> s[j] == s[1..][j - 1];
        None
      case Some(i) =>
        assert forall j :: 0 < j <= i + 1 ==> s[j] == s[1..][j - 1];
        Some(i + 1)
  }

  /** `part` occurs in `whole` starting at position `i`. */
  predicate OccursAt<T(==)>(part: seq<T>, whole: seq<T>, i: nat)
  {
    i + |part| <= |whole| && whole[i..i + |part|] == part
  }

  /** `part` occurs contiguously inside `whole`. */
  predicate IsInfix<T(==)>(part: seq<T>, whole: seq<T>)
  {
    exists i: nat :: i <= |whole| && OccursAt(part, whole, i)
  }
}

/** The two array searches the session store relies on: `Array.prototype.find` and `Array.prototype.some`. */
module Arrays {
  import opened Wrappers

  /** Index of the first element satisfying `p`, scanning from the front, as `find` does. */
  function FindIndex<T>(s: seq<T>, p: T -> bool): (r: Option<nat>)
    ensures r.Some? ==> r.value < |s| && p(s[r.value])
    ensures r.Some? ==> forall j :: 0 <= j < r.value ==> !p(s[j])
    ensures r.None? <==> forall j :: 0 <= j < |s| ==> !p(s[j])
  {
    if |s| == 0 then None
    else if p(s[0]) then Some(0)
    else
      match FindIndex(s[1..], p)
      case None => None
      case Some(k) => Some(k + 1)
  }

  /** Whether some element satisfies `p`, as `some` does. */
  function Any<T>(s: seq<T>, p: T -> bool): (r: bool)
    ensures r <==> exists j :: 0 <= j < |s| && p(s[j])
  {
    if |s| == 0 then false
    else p(s[0]) || Any(s[1..], p)
  }
}

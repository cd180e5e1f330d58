/**
 * Substring search, the `str::contains` test the token-refresh retry
 * policy applies to a provider's error description.
 */
module Text {
  import opened Wrappers

  /** `needle` occurs in `hay` starting at index `i`. */
  predicate OccursAt(hay: string, needle: string, i: int) {
    0 <= i && i + |needle| <= |hay| && hay[i..i + |needle|] == needle
  }

  /** Specification of `hay.contains(needle)`: some index where `needle` occurs. */
  ghost predicate Contains(hay: string, needle: string) {
    exists i :: OccursAt(hay, needle, i)
  }

  /** The first index at or after `from` where `needle` occurs in `hay`, if any. */
  function Search(hay: string, needle: string, from: nat): (r: Option<nat>)
    ensures r.Some? ==> from <= r.value && OccursAt(hay, needle, r.value)
    ensures r.Some? ==> forall j :: from <= j < r.value ==> !OccursAt(hay, needle, j)
    ensures r.None? ==> forall j :: from <= j ==> !OccursAt(hay, needle, j)
    decreases |hay| - from
  {
    if |hay| < from + |needle| then None
    else if hay[from..from + |needle|] == needle then Some(from)
    else Search(hay, needle, from + 1)
  }

  /** `hay.contains(needle)` on `&str`. */
  function ContainsStr(hay: string, needle: string): (r: bool)
    ensures r <==> Contains(hay, needle)
  {
    var found := Search(hay, needle, 0);
    assert found.Some? ==> OccursAt(hay, needle, found.value);
    found.Some?
  }
}

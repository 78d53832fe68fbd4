/**
 * The JavaScript array built-ins the screens rely on, over sequences:
 * `find` (first match), `filter((_, i) => i !== index)` and `splice(index, 1)`.
 */
module JsArray {
  import opened Options

  /** Position of the first element satisfying `p`, the element `find` returns. */
  function FirstIndex<T>(s: seq<T>, p: T -> bool): (r: Option<nat>)
    ensures r.Some? ==> r.value < |s| && p(s[r.value])
    ensures r.Some? ==> forall j :: 0 <= j < r.value ==> !p(s[j])
    ensures r.None? <==> forall j :: 0 <= j < |s| ==> !p(s[j])
    decreases |s|
  {
    if s == [] then None
    else if p(s[0]) then Some(0)
    else match FirstIndex(s[1..], p)
      case None => None
      case Some(k) => Some(k + 1)
  }

  /** `s.filter((_, i) => i !== index)`: keeps every element whose position is not `index`. */
  function FilterOutIndex<T>(s: seq<T>, index: int): (r: seq<T>)
    decreases |s|
  {
    if s == [] then []
    else FilterOutIndex(s[..|s| - 1], index) + (if |s| - 1 == index then [] else [s[|s| - 1]])
  }

  /** The filter drops exactly the element at `index` and keeps the rest in order;
      an index outside the list drops nothing. */
  lemma {:induction false} FilterOutIndexIsRemoval<T>(s: seq<T>, index: int)
    ensures FilterOutIndex(s, index) == if 0 <= index < |s| then s[..index] + s[index + 1..] else s
    decreases |s|
  {
    if s != [] {
      var n := |s| - 1;
      FilterOutIndexIsRemoval(s[..n], index);
      if 0 <= index < n {
        assert s[..n][..index] == s[..index];
        assert s[..n][index + 1..] + [s[n]] == s[index + 1..];
      } else if index == n {
        assert s[..n] == s[..index];
      } else {
        assert s[..n] + [s[n]] == s;
      }
    }
  }

  /** Where `splice(index, 1)` starts deleting in a list of length `len`:
      a negative index counts from the end, and the result is clamped to `0..len`. */
  function SpliceStart(len: nat, index: int): (k: nat)
    ensures k <= len
    ensures 0 <= index ==> k == if index < len then index else len
    ensures index < 0 && -index <= len ==> k == len + index
    ensures -index > len ==> k == 0
  {
    if index < 0 then (if len + index < 0 then 0 else len + index)
    else if index < len then index
    else len
  }

  /** The array left behind by `a.splice(index, 1)`. */
  function SpliceOne<T>(s: seq<T>, index: int): (r: seq<T>)
  {
    var k := SpliceStart(|s|, index);
    if k < |s| then s[..k] + s[k + 1..] else s
  }

  /** With an index inside the list, the splice shortens it by one and removes exactly that element. */
  lemma SpliceOneInRange<T>(s: seq<T>, index: int)
    requires 0 <= index < |s|
    ensures |SpliceOne(s, index)| == |s| - 1
    ensures forall j :: 0 <= j < |s| - 1 ==> SpliceOne(s, index)[j] == if j < index then s[j] else s[j + 1]
  {
  }

  /** For a non-negative index the splice and the position filter agree. */
  lemma SpliceMatchesFilter<T>(s: seq<T>, index: int)
    requires 0 <= index
    ensures SpliceOne(s, index) == FilterOutIndex(s, index)
  {
    FilterOutIndexIsRemoval(s, index);
  }

  /** For a negative index they differ: the splice removes the element counted from the end,
      the filter removes nothing. */
  lemma SpliceNegativeCountsFromEnd<T>(s: seq<T>, index: int)
    requires -|s| <= index < 0
    ensures SpliceOne(s, index) == FilterOutIndex(s, |s| + index)
    ensures FilterOutIndex(s, index) == s
  {
    FilterOutIndexIsRemoval(s, |s| + index);
    FilterOutIndexIsRemoval(s, index);
  }
}

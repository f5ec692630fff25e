/** Sequence operations the form editor uses on its entry lists. */
module Sequences {

  /** `s.filter((_, i) => i !== index)` on the part of a list that starts at
      position `from`: the walk compares each position with `index`. */
  function FilterIndex<T>(s: seq<T>, index: int, from: int): (r: seq<T>)
    ensures from <= index < from + |s| ==> r == s[..index - from] + s[index - from + 1..]
    ensures !(from <= index < from + |s|) ==> r == s
    decreases |s|
  {
    if s == [] then []
    else
      assert s == [s[0]] + s[1..];
      (if from == index then [] else [s[0]]) + FilterIndex(s[1..], index, from + 1)
  }

  /** The list without position `index`; an index outside the list (negative
      or too large) removes nothing. */
  function WithoutIndex<T>(s: seq<T>, index: int): (r: seq<T>)
    ensures 0 <= index < |s| ==> |r| == |s| - 1
    ensures 0 <= index < |s| ==> forall j :: 0 <= j < index ==> r[j] == s[j]
    ensures 0 <= index < |s| ==> forall j :: index <= j < |r| ==> r[j] == s[j + 1]
    ensures !(0 <= index < |s|) ==> r == s
  {
    FilterIndex(s, index, 0)
  }
}

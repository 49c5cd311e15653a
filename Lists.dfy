/** The list updates the product forms make on their React state arrays. */
module Lists {

  /** `s.filter((_, i) => i !== index)` on the part of an array that starts at position
      `from`: walks the elements front to back and drops the one whose position is
      `index`. */
  function DropPosition<T>(s: seq<T>, index: int, from: int): seq<T>
    decreases |s|
  {
    if s == [] then []
    else (if from == index then [] else [s[0]]) + DropPosition(s[1..], index, from + 1)
  }

  lemma {:induction false} DropPositionSplices<T>(s: seq<T>, index: int, from: int)
    ensures from <= index < from + |s| ==>
              DropPosition(s, index, from) == s[..index - from] + s[index - from + 1..]
    ensures !(from <= index < from + |s|) ==> DropPosition(s, index, from) == s
  {
    if s != [] {
      DropPositionSplices(s[1..], index, from + 1);
      if from == index {
        assert DropPosition(s[1..], index, from + 1) == s[1..];
      } else if from < index < from + |s| {
        assert s[..index - from] == [s[0]] + s[1..][..index - from - 1];
        assert s[index - from + 1..] == s[1..][index - from..];
      } else {
        assert s == [s[0]] + s[1..];
      }
    }
  }

  /** `list.filter((_, i) => i !== index)`: the list without the element at `index`; a
      position outside the list removes nothing. */
  function RemoveAt<T>(s: seq<T>, index: int): (r: seq<T>)
    ensures 0 <= index < |s| ==> |r| == |s| - 1
    ensures 0 <= index < |s| ==> forall k :: 0 <= k < index ==> r[k] == s[k]
    ensures 0 <= index < |s| ==> forall k :: index <= k < |r| ==> r[k] == s[k + 1]
    ensures !(0 <= index < |s|) ==> r == s
  {
    DropPositionSplices(s, index, 0);
    DropPosition(s, index, 0)
  }

  /** `const updated = [...list]; updated[index] = x`: a copy of the list with one slot
      replaced. */
  function ReplaceAt<T>(s: seq<T>, index: nat, x: T): (r: seq<T>)
    requires index < |s|
    ensures |r| == |s| && r[index] == x
    ensures forall k :: 0 <= k < |s| && k != index ==> r[k] == s[k]
  {
    s[index := x]
  }
}

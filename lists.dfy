/**
 * The two list updates the React state setters use on whole lists:
 * `prev.filter((_, j) => j !== i)` and `prev.map((x, j) => j === i ? y : x)`.
 */
module Lists {

  /** `s.filter((_, j) => j !== i)`: index `i` is dropped, the rest keep their order. */
  function RemoveAt<T>(s: seq<T>, i: int): (r: seq<T>)
    ensures 0 <= i < |s| ==> |r| == |s| - 1
    ensures !(0 <= i < |s|) ==> r == s
    ensures 0 <= i < |s| ==> forall k :: 0 <= k < i ==> r[k] == s[k]
    ensures 0 <= i < |s| ==> forall k :: i <= k < |r| ==> r[k] == s[k + 1]
  {
    if 0 <= i < |s| then s[..i] + s[i + 1..] else s
  }

  /** `s.map((x, j) => j === i ? y : x)`: only index `i` is replaced. */
  function ReplaceAt<T>(s: seq<T>, i: int, y: T): (r: seq<T>)
    ensures |r| == |s|
    ensures forall k :: 0 <= k < |s| ==> r[k] == if k == i then y else s[k]
  {
    if 0 <= i < |s| then s[i := y] else s
  }

  /** Removing an index keeps exactly the other elements: as multisets, one occurrence of `s[i]` goes. */
  lemma {:induction false} RemoveAtMultiset<T>(s: seq<T>, i: int)
    requires 0 <= i < |s|
    ensures multiset(RemoveAt(s, i)) == multiset(s) - multiset{s[i]}
  {
    assert s == s[..i] + [s[i]] + s[i + 1..];
    assert RemoveAt(s, i) == s[..i] + s[i + 1..];
  }
}

/** The usual optional value, used where the Go code returns nil. */
module Wrappers {

  datatype Option<+T> = None | Some(value: T)

  /** Removes position `i` from a sequence. */
  function RemoveAt<T>(s: seq<T>, i: nat): (r: seq<T>)
    requires i < |s|
    ensures |r| == |s| - 1
    ensures forall k :: 0 <= k < i ==> r[k] == s[k]
    ensures forall k :: i <= k < |r| ==> r[k] == s[k + 1]
  {
    s[..i] + s[i + 1..]
  }

  function Max(a: int, b: int): int {
    if a < b then b else a
  }

  function Least(a: nat, b: nat): nat {
    if a < b then a else b
  }
}

/** Options for absent rows, failed reads and lookups without a hit, and two notions on sequences. */
module Wrappers {
  datatype Option<+T> = None | Some(value: T)

  function Somes<T>(s: seq<T>): (r: seq<Option<T>>)
    ensures |r| == |s|
  {
    seq(|s|, i requires 0 <= i < |s| => Some(s[i]))
  }

  ghost predicate Distinct<T>(s: seq<T>) {
    forall i, j :: 0 <= i < j < |s| ==> s[i] != s[j]
  }
}

/** Values shared by every module: an optional value, and counting in sequences. */
module Basics {
  datatype Option<+T> = None | Some(value: T) {
    function GetOr(default_: T): T {
      match this
      case Some(v) => v
      case None => default_
    }
  }

  /** Counts the positions of a sequence whose element is in `wanted`. */
  function Count<T(==)>(s: seq<T>, wanted: set<T>): nat {
    if s == [] then 0
    else Count(s[..|s| - 1], wanted) + (if s[|s| - 1] in wanted then 1 else 0)
  }

  function One(b: bool): nat {
    if b then 1 else 0
  }

  lemma {:induction false} CountUpdate<T>(s: seq<T>, n: nat, x: T, wanted: set<T>)
    requires n < |s|
    ensures Count(s[n := x], wanted) + One(s[n] in wanted) == Count(s, wanted) + One(x in wanted)
  {
    var t := s[n := x];
    if n == |s| - 1 {
      assert t[..|s| - 1] == s[..|s| - 1];
    } else {
      assert t[..|s| - 1] == s[..|s| - 1][n := x];
      CountUpdate(s[..|s| - 1], n, x, wanted);
    }
  }

  lemma CountAppend<T>(s: seq<T>, x: T, wanted: set<T>)
    ensures Count(s + [x], wanted) == Count(s, wanted) + One(x in wanted)
  {
    assert (s + [x])[..|s|] == s;
  }

  lemma {:induction false} CountPositive<T>(s: seq<T>, n: nat, wanted: set<T>)
    requires n < |s| && s[n] in wanted
    ensures Count(s, wanted) >= 1
  {
    if n < |s| - 1 {
      CountPositive(s[..|s| - 1], n, wanted);
    }
  }
}

// Optional values, for the fields and results that Python leaves as None, and sequences.
module Wrappers {

  datatype Option<+T> = None | Some(value: T) {

    // `this or default` for a field whose only falsy value is None.
    function GetOr(default: T): T {
      if Some? then value else default
    }

    // `this or other`, keeping the result optional.
    function OrElse(other: Option<T>): Option<T> {
      if Some? then this else other
    }
  }

  function One(b: bool): nat {
    if b then 1 else 0
  }

  lemma HeadOrRest<T>(s: seq<T>)
    requires s != []
    ensures forall x :: x in s <==> x == s[0] || x in s[1..]
  {
    assert s == [s[0]] + s[1..];
  }

  // Some occurrence of x stands before one of y.
  ghost predicate Precedes<T>(s: seq<T>, x: T, y: T) {
    exists i, j :: 0 <= i < j < |s| && s[i] == x && s[j] == y
  }

  lemma PrecedesWithin<T>(s: seq<T>, t: seq<T>, x: T, y: T)
    requires Precedes(s, x, y) || Precedes(t, x, y) || (x in s && y in t)
    ensures Precedes(s + t, x, y)
  {
    if Precedes(s, x, y) {
      var i, j :| 0 <= i < j < |s| && s[i] == x && s[j] == y;
      assert (s + t)[i] == x && (s + t)[j] == y;
    } else if Precedes(t, x, y) {
      var i, j :| 0 <= i < j < |t| && t[i] == x && t[j] == y;
      assert (s + t)[|s| + i] == x && (s + t)[|s| + j] == y;
    } else {
      var i :| 0 <= i < |s| && s[i] == x;
      var j :| 0 <= j < |t| && t[j] == y;
      assert (s + t)[i] == x && (s + t)[|s| + j] == y;
    }
  }

  // No element occurs twice.
  ghost predicate Distinct<T>(s: seq<T>) {
    forall i, j :: 0 <= i < j < |s| ==> s[i] != s[j]
  }
}

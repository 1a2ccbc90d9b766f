// The code-point order on strings that Python's sorted() uses.
module TextOrder {

  predicate StrLe(a: string, b: string) {
    a == "" || (b != "" && (a[0] < b[0] || (a[0] == b[0] && StrLe(a[1..], b[1..]))))
  }

  predicate StrLt(a: string, b: string) {
    a != b && StrLe(a, b)
  }

  lemma {:induction false} StrLeReflexive(a: string)
    ensures StrLe(a, a)
  {
    if a != "" { StrLeReflexive(a[1..]); }
  }

  lemma {:induction false} StrLeTotal(a: string, b: string)
    ensures StrLe(a, b) || StrLe(b, a)
  {
    if a != "" && b != "" && a[0] == b[0] { StrLeTotal(a[1..], b[1..]); }
  }

  lemma {:induction false} StrLeAntisymmetric(a: string, b: string)
    requires StrLe(a, b) && StrLe(b, a)
    ensures a == b
  {
    if a != "" && b != "" {
      StrLeAntisymmetric(a[1..], b[1..]);
      assert a == [a[0]] + a[1..] && b == [b[0]] + b[1..];
    }
  }

  lemma {:induction false} StrLeTransitive(a: string, b: string, c: string)
    requires StrLe(a, b) && StrLe(b, c)
    ensures StrLe(a, c)
  {
    if a != "" && a[0] == b[0] && b[0] == c[0] { StrLeTransitive(a[1..], b[1..], c[1..]); }
  }

  // The first character that differs decides, and a text comes before its extensions.
  lemma {:induction false} FirstDifferenceDecides(p: string, c: char, a: string, d: char, b: string)
    requires c < d
    ensures StrLt(p + [c] + a, p + [d] + b) && StrLt(p, p + [c] + a)
  {
    if p == "" {
      assert (p + [c] + a)[0] == c && (p + [d] + b)[0] == d;
    } else {
      FirstDifferenceDecides(p[1..], c, a, d, b);
      var s, t := p + [c] + a, p + [d] + b;
      assert s[0] == t[0] == p[0] && s[1..] == p[1..] + [c] + a && t[1..] == p[1..] + [d] + b;
      assert s[|p|] != t[|p|];
    }
  }

  // Strictly increasing lists: what sorted(set(...)) returns.
  ghost predicate StrictlySorted(s: seq<string>) {
    forall i, j :: 0 <= i < j < |s| ==> StrLt(s[i], s[j])
  }

  lemma HasMember(t: seq<string>)
    requires t != []
    ensures exists x :: x in t
  {
    assert t[0] in t;
  }

  // sorted(set) is unique: two strictly increasing lists with the same elements are equal.
  lemma {:induction false} StrictlySortedUnique(s: seq<string>, t: seq<string>)
    requires StrictlySorted(s) && StrictlySorted(t)
    requires forall x :: x in s <==> x in t
    ensures s == t
  {
    if s == [] {
      if t != [] { HasMember(t); }
    } else {
      assert s[0] in t;
      assert t[0] in s;
      if s[0] != t[0] {
        assert StrLt(t[0], s[0]);
        assert StrLt(s[0], t[0]);
        StrLeAntisymmetric(s[0], t[0]);
      }
      var s', t' := s[1..], t[1..];
      forall x ensures x in s' <==> x in t' {
        if x in s' {
          var i :| 1 <= i < |s| && s[i] == x;
          assert x in t;
        }
        if x in t' {
          var j :| 1 <= j < |t| && t[j] == x;
          assert x in s;
        }
      }
      StrictlySortedUnique(s', t');
      assert s == [s[0]] + s' && t == [t[0]] + t';
    }
  }

  // The least element of a non-empty set, for loops that visit keys in sorted order.
  lemma {:induction false} LeastExists(s: set<string>)
    requires s != {}
    ensures exists x :: x in s && forall y :: y in s ==> StrLe(x, y)
    decreases |s|
  {
    var x :| x in s;
    StrLeReflexive(x);
    if s != {x} {
      var rest := s - {x};
      assert |rest| < |s|;
      assert rest != {};
      LeastExists(rest);
      var m :| m in rest && forall y :: y in rest ==> StrLe(m, y);
      StrLeTotal(x, m);
      if StrLe(x, m) {
        forall y | y in s ensures StrLe(x, y) {
          if y != x { StrLeTransitive(x, m, y); }
        }
      } else {
        assert forall y :: y in s ==> StrLe(m, y);
      }
    }
  }
}

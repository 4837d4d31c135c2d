/** Python's ordering of `str` values and `sorted(d.keys())` over string keys. */
module Sorting {

  /** Python's `a <= b` on `str`: lexicographic by code point, a proper prefix first. */
  predicate NotAbove(a: string, b: string)
    decreases |a|
  {
    a == [] || (b != [] && (a[0] < b[0] || (a[0] == b[0] && NotAbove(a[1..], b[1..]))))
  }

  lemma {:induction false} NotAboveReflexive(a: string)
    ensures NotAbove(a, a)
    decreases |a|
  {
    if a != [] {
      NotAboveReflexive(a[1..]);
    }
  }

  lemma {:induction false} NotAboveAntisymmetric(a: string, b: string)
    requires NotAbove(a, b) && NotAbove(b, a)
    ensures a == b
    decreases |a|
  {
    if a != [] {
      NotAboveAntisymmetric(a[1..], b[1..]);
      assert a == [a[0]] + a[1..] && b == [b[0]] + b[1..];
    }
  }

  lemma {:induction false} NotAboveTransitive(a: string, b: string, c: string)
    requires NotAbove(a, b) && NotAbove(b, c)
    ensures NotAbove(a, c)
    decreases |a|
  {
    if a != [] && a[0] == b[0] && b[0] == c[0] {
      NotAboveTransitive(a[1..], b[1..], c[1..]);
    }
  }

  lemma {:induction false} NotAboveTotal(a: string, b: string)
    ensures NotAbove(a, b) || NotAbove(b, a)
    decreases |a|
  {
    if a != [] && b != [] && a[0] == b[0] {
      NotAboveTotal(a[1..], b[1..]);
    }
  }

  predicate Sorted(s: seq<string>) {
    forall i, j :: 0 <= i < j < |s| ==> NotAbove(s[i], s[j])
  }

  predicate IsLeast(m: string, s: set<string>) {
    m in s && forall x :: x in s ==> NotAbove(m, x)
  }

  /** Every non-empty finite set of strings has a least element. */
  lemma {:induction false} LeastExists(s: set<string>)
    requires s != {}
    ensures exists m :: IsLeast(m, s)
    decreases |s|
  {
    var y :| y in s;
    if s == {y} {
      NotAboveReflexive(y);
      assert IsLeast(y, s);
    } else {
      LeastExists(s - {y});
      var m :| IsLeast(m, s - {y});
      NotAboveTotal(m, y);
      if NotAbove(m, y) {
        assert IsLeast(m, s);
      } else {
        forall x | x in s ensures NotAbove(y, x) {
          if x == y {
            NotAboveReflexive(y);
          } else {
            NotAboveTransitive(y, m, x);
          }
        }
        assert IsLeast(y, s);
      }
    }
  }

  /** The elements of `s` in ascending order, each once: `sorted(s)`. */
  ghost function SortedKeys(s: set<string>): seq<string>
    decreases |s|
  {
    if s == {} then []
    else
      LeastExists(s);
      var m :| IsLeast(m, s);
      [m] + SortedKeys(s - {m})
  }

  /** `sorted(s)` lists every element of `s` exactly once, in ascending order. */
  lemma {:induction false} SortedKeysCorrect(s: set<string>)
    ensures |SortedKeys(s)| == |s|
    ensures forall x :: x in SortedKeys(s) <==> x in s
    ensures Sorted(SortedKeys(s))
    decreases |s|
  {
    if s != {} {
      var r := SortedKeys(s);
      var m := r[0];
      assert IsLeast(m, s);
      assert r == [m] + SortedKeys(s - {m});
      SortedKeysCorrect(s - {m});
    }
  }

  /** `sorted(s)` holds the elements of `s` and nothing else. */
  lemma SortedKeysMembers(s: set<string>)
    ensures forall x :: x in SortedKeys(s) <==> x in s
  {
    SortedKeysCorrect(s);
  }

  /** The least element always comes first. */
  lemma SortedKeysUnfold(s: set<string>, m: string)
    requires IsLeast(m, s)
    ensures SortedKeys(s) == [m] + SortedKeys(s - {m})
  {
    var r := SortedKeys(s);
    assert IsLeast(r[0], s) && r == [r[0]] + SortedKeys(s - {r[0]});
    NotAboveAntisymmetric(m, r[0]);
  }

  /** Python's `sorted(keys)`. */
  method Sort(keys: set<string>) returns (r: seq<string>)
    ensures r == SortedKeys(keys)
  {
    r := [];
    var rest := keys;
    while rest != {}
      invariant SortedKeys(keys) == r + SortedKeys(rest)
      decreases |rest|
    {
      LeastExists(rest);
      var m :| IsLeast(m, rest);
      SortedKeysUnfold(rest, m);
      assert SortedKeys(keys) == (r + [m]) + SortedKeys(rest - {m});
      r := r + [m];
      rest := rest - {m};
    }
  }
}

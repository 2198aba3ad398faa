/** The string operations the library relies on from Python: `str.rstrip("/")`,
    the ordering `sorted` uses on `str`, and a reading of the `a:b:c` form that
    rendered devices take. */
module Strings {

  /** `s.rstrip("/")`: `s` without its run of trailing slashes. */
  function StripTrailingSlashes(s: string): (r: string)
    ensures r <= s
    ensures r == [] || r[|r| - 1] != '/'
    ensures forall i :: |r| <= i < |s| ==> s[i] == '/'
  {
    if s != [] && s[|s| - 1] == '/' then StripTrailingSlashes(s[..|s| - 1]) else s
  }

  /** Stripping is idempotent: a stripped path is left as it is. */
  lemma StripIdempotent(s: string)
    ensures StripTrailingSlashes(StripTrailingSlashes(s)) == StripTrailingSlashes(s)
  {
  }

  /** A trailing slash makes no difference after stripping. */
  lemma {:induction false} StripIgnoresSlash(s: string)
    ensures StripTrailingSlashes(s + "/") == StripTrailingSlashes(s)
  {
    assert (s + "/")[..|s|] == s;
  }

  /** Python's order on `str`: code point by code point, a proper prefix first. */
  predicate LexLeq(a: string, b: string) {
    a == [] || (b != [] && (a[0] < b[0] || (a[0] == b[0] && LexLeq(a[1..], b[1..]))))
  }

  lemma {:induction false} LexLeqReflexive(a: string)
    ensures LexLeq(a, a)
  {
    if a != [] {
      LexLeqReflexive(a[1..]);
    }
  }

  lemma {:induction false} LexLeqTotal(a: string, b: string)
    ensures LexLeq(a, b) || LexLeq(b, a)
  {
    if a != [] && b != [] && a[0] == b[0] {
      LexLeqTotal(a[1..], b[1..]);
    }
  }

  lemma {:induction false} LexLeqAntisymmetric(a: string, b: string)
    requires LexLeq(a, b) && LexLeq(b, a)
    ensures a == b
  {
    if a != [] {
      LexLeqAntisymmetric(a[1..], b[1..]);
      assert a == [a[0]] + a[1..] && b == [b[0]] + b[1..];
    }
  }

  lemma {:induction false} LexLeqTransitive(a: string, b: string, c: string)
    requires LexLeq(a, b) && LexLeq(b, c)
    ensures LexLeq(a, c)
  {
    if a != [] && b != [] && c != [] && a[0] == b[0] && b[0] == c[0] {
      LexLeqTransitive(a[1..], b[1..], c[1..]);
    }
  }

  /** Every element is at most every later one. */
  predicate Sorted(s: seq<string>) {
    forall i, j :: 0 <= i < j < |s| ==> LexLeq(s[i], s[j])
  }

  /** Putting in front an element that is at most all of a sorted sequence keeps it sorted. */
  lemma PrependLeast(x: string, s: seq<string>)
    requires Sorted(s)
    requires forall y :: y in s ==> LexLeq(x, y)
    ensures Sorted([x] + s)
  {
    var t := [x] + s;
    forall i, j | 0 <= i < j < |t| ensures LexLeq(t[i], t[j]) {
      if i == 0 {
        assert t[j] == s[j - 1];
      } else {
        assert t[i] == s[i - 1] && t[j] == s[j - 1];
      }
    }
  }

  /** One step of insertion sort: `x` placed into sorted `s`. */
  function Insert(s: seq<string>, x: string): (r: seq<string>)
    requires Sorted(s)
    ensures Sorted(r)
    ensures multiset(r) == multiset(s) + multiset{x}
  {
    if s == [] then
      [x]
    else if LexLeq(x, s[0]) then
      assert forall y :: y in s ==> LexLeq(x, y) by {
        forall y | y in s ensures LexLeq(x, y) {
          if y != s[0] {
            LexLeqTransitive(x, s[0], y);
          }
        }
      }
      PrependLeast(x, s);
      [x] + s
    else
      var rest := Insert(s[1..], x);
      assert s == [s[0]] + s[1..];
      assert forall y :: y in rest ==> LexLeq(s[0], y) by {
        forall y | y in rest ensures LexLeq(s[0], y) {
          assert y in multiset(rest);
          if y == x {
            LexLeqTotal(x, s[0]);
          } else {
            assert y in multiset(s[1..]);
            assert y in s[1..];
          }
        }
      }
      PrependLeast(s[0], rest);
      [s[0]] + rest
  }

  /** A sorted sequence is determined by its elements: sorting gives the same
      result whatever order the elements came in. */
  lemma {:induction false} SortedUnique(a: seq<string>, b: seq<string>)
    requires Sorted(a) && Sorted(b)
    requires multiset(a) == multiset(b)
    ensures a == b
  {
    if a == [] {
      assert |b| == |multiset(b)| == 0;
    } else {
      assert |b| == |multiset(b)| == |multiset(a)| == |a|;
      assert a[0] in multiset(b) && b[0] in multiset(a);
      assert a[0] in b && b[0] in a;
      if a[0] != b[0] {
        assert LexLeq(b[0], a[0]);
        assert LexLeq(a[0], b[0]);
        LexLeqAntisymmetric(a[0], b[0]);
      }
      assert a == [a[0]] + a[1..] && b == [b[0]] + b[1..];
      assert a[0] == b[0];
      assert multiset(a[1..]) == multiset(a) - multiset{a[0]};
      assert multiset(b[1..]) == multiset(b) - multiset{b[0]};
      SortedUnique(a[1..], b[1..]);
    }
  }

  /** `s.split(":")`: the fields of `s` between colons. */
  function SplitOnColon(s: string): (r: seq<string>)
    ensures |r| >= 1
  {
    if s == [] then
      [""]
    else
      var rest := SplitOnColon(s[1..]);
      if s[0] == ':' then [""] + rest else [[s[0]] + rest[0]] + rest[1..]
  }

  /** A string without a colon is a single field. */
  lemma {:induction false} SplitNoColon(a: string)
    requires ':' !in a
    ensures SplitOnColon(a) == [a]
  {
    if a != [] {
      assert a[0] != ':' && a == [a[0]] + a[1..];
      SplitNoColon(a[1..]);
    }
  }

  /** A colon-free field followed by a colon splits off as the first field. */
  lemma {:induction false} SplitField(a: string, b: string)
    requires ':' !in a
    ensures SplitOnColon(a + ":" + b) == [a] + SplitOnColon(b)
  {
    var s := a + ":" + b;
    if a == [] {
      assert s[0] == ':' && s[1..] == b;
    } else {
      assert s[0] == a[0] && a[0] != ':';
      assert s[1..] == a[1..] + ":" + b;
      SplitField(a[1..], b);
      assert a == [a[0]] + a[1..];
    }
  }
}

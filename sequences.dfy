/** Applying a function to every element of a sequence, and the fact that the
    result's elements depend only on the input's elements. */
module Sequences {

  /** `[f(x) for x in s]`. */
  function Apply<T, U>(f: T -> U, s: seq<T>): (r: seq<U>)
    ensures |r| == |s|
    ensures forall i :: 0 <= i < |s| ==> r[i] == f(s[i])
  {
    if s == [] then [] else Apply(f, s[..|s| - 1]) + [f(s[|s| - 1])]
  }

  /** Taking out the element at `k` takes it out of the multiset. */
  lemma RemoveAt<T>(s: seq<T>, k: nat)
    requires k < |s|
    ensures s == s[..k] + [s[k]] + s[k + 1..]
    ensures multiset(s[..k] + s[k + 1..]) == multiset(s) - multiset{s[k]}
  {
    assert s == s[..k] + [s[k]] + s[k + 1..];
    assert multiset(s) == multiset(s[..k] + s[k + 1..]) + multiset{s[k]};
  }

  /** Applying to a concatenation concatenates the results. */
  lemma ApplyConcat<T, U>(f: T -> U, a: seq<T>, b: seq<T>)
    ensures Apply(f, a + b) == Apply(f, a) + Apply(f, b)
  {
    var l, r := Apply(f, a + b), Apply(f, a) + Apply(f, b);
    forall i | 0 <= i < |l| ensures l[i] == r[i] {
      if i < |a| {
        assert (a + b)[i] == a[i];
      } else {
        assert (a + b)[i] == b[i - |a|];
      }
    }
  }

  lemma ApplySplit<T, U>(f: T -> U, xs: seq<T>, x: T, ys: seq<T>)
    ensures multiset(Apply(f, xs + [x] + ys)) == multiset(Apply(f, xs + ys)) + multiset{f(x)}
  {
    ApplyConcat(f, xs + [x], ys);
    ApplyConcat(f, xs, [x]);
    ApplyConcat(f, xs, ys);
    assert Apply(f, [x]) == [f(x)];
  }

  /** Inputs with the same elements give outputs with the same elements. */
  lemma {:induction false} ApplyRespectsMultiset<T, U>(f: T -> U, s: seq<T>, t: seq<T>)
    requires multiset(s) == multiset(t)
    ensures multiset(Apply(f, s)) == multiset(Apply(f, t))
  {
    if s == [] {
      assert |t| == |multiset(t)| == 0;
    } else {
      var init, x := s[..|s| - 1], s[|s| - 1];
      assert x in multiset(t);
      var k :| 0 <= k < |t| && t[k] == x;
      RemoveAt(s, |s| - 1);
      RemoveAt(t, k);
      assert s[..|s| - 1] + s[|s|..] == init;
      ApplyRespectsMultiset(f, init, t[..k] + t[k + 1..]);
      ApplySplit(f, init, x, []);
      ApplySplit(f, t[..k], x, t[k + 1..]);
      assert init + [x] + [] == s;
    }
  }
}

/** Substring facts used by the properties of the assembled texts. */
module Strings {

  /** `t` occurs in `s` starting at index `i`. */
  predicate OccursAt(s: string, t: string, i: nat) {
    i + |t| <= |s| && s[i..i + |t|] == t
  }

  /** `t` is a substring of `s` (Python's `t in s`). */
  predicate Contains(s: string, t: string) {
    exists i: nat :: i <= |s| && OccursAt(s, t, i)
  }

  lemma OccursAfter(a: string, t: string, b: string)
    ensures OccursAt(a + t + b, t, |a|)
  {
    assert (a + t + b)[|a|..|a| + |t|] == t;
  }

  /** An occurrence inside a substring is an occurrence in the whole string. */
  lemma OccursWithin(s: string, u: string, i: nat, t: string, j: nat)
    requires OccursAt(s, u, i) && OccursAt(u, t, j)
    ensures OccursAt(s, t, i + j)
  {
    forall k | 0 <= k < |t| ensures s[i + j..i + j + |t|][k] == t[k] {
      assert t[k] == u[j..j + |t|][k] == u[j + k];
      assert u[j + k] == s[i..i + |u|][j + k] == s[i + j + k];
    }
  }

  /** The strings of `xs` one after another. */
  function Concat(xs: seq<string>): string {
    if xs == [] then [] else Concat(xs[..|xs| - 1]) + xs[|xs| - 1]
  }

  lemma OccursExtend(s: string, t: string, i: nat, y: string)
    requires OccursAt(s, t, i)
    ensures OccursAt(s + y, t, i)
  {
    assert (s + y)[i..i + |t|] == s[i..i + |t|];
  }

  /** Every piece appears verbatim in the concatenation. */
  lemma {:induction false} ConcatEmbeds(xs: seq<string>, k: nat)
    requires k < |xs|
    ensures OccursAt(Concat(xs), xs[k], |Concat(xs[..k])|)
  {
    var init := xs[..|xs| - 1];
    if k == |xs| - 1 {
      OccursAfter(Concat(init), xs[k], []);
      assert Concat(init) + xs[k] + [] == Concat(xs);
    } else {
      assert init[k] == xs[k] && init[..k] == xs[..k];
      ConcatEmbeds(init, k);
      OccursExtend(Concat(init), xs[k], |Concat(xs[..k])|, xs[|xs| - 1]);
    }
  }
}

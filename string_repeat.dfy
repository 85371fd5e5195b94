/**
 * The one string primitive the prefix renderer needs beyond concatenation:
 * `"    ".repeat(groupDepth)`, i.e. `String.prototype.repeat` with a
 * non-negative integer count.
 */
module StringRepeat {

  /** `n` copies of `s`, one after another. */
  function Repeat(s: string, n: nat): (r: string)
    ensures |r| == |s| * n
  {
    if n == 0 then "" else s + Repeat(s, n - 1)
  }

  /** Position `i` of the `j`-th copy inside `Repeat(s, n)` holds `s[i]`. */
  lemma {:induction false} RepeatAt(s: string, n: nat, j: nat, i: nat)
    requires j < n && i < |s|
    ensures j * |s| + i < |Repeat(s, n)|
    ensures Repeat(s, n)[j * |s| + i] == s[i]
  {
    if j > 0 {
      RepeatAt(s, n - 1, j - 1, i);
      assert j * |s| + i == |s| + ((j - 1) * |s| + i);
    }
  }

  /** Appending one more copy at the end is the same as repeating once more. */
  lemma {:induction false} RepeatSnoc(s: string, n: nat)
    ensures Repeat(s, n + 1) == Repeat(s, n) + s
  {
    if n == 0 {
      assert Repeat(s, 1) == s + "";
    } else {
      RepeatSnoc(s, n - 1);
      assert Repeat(s, n + 1) == s + (Repeat(s, n - 1) + s);
    }
  }

  /** Repeating a string made only of one character yields only that character. */
  lemma {:induction false} RepeatUniform(s: string, c: char, n: nat)
    requires forall i :: 0 <= i < |s| ==> s[i] == c
    ensures forall k :: 0 <= k < |Repeat(s, n)| ==> Repeat(s, n)[k] == c
  {
    forall k | 0 <= k < |Repeat(s, n)|
      ensures Repeat(s, n)[k] == c
    {
      var j, i := k / |s|, k % |s|;
      assert k == j * |s| + i;
      RepeatAt(s, n, j, i);
    }
  }
}

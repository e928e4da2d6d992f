/**
 * Sums and means of colour samples.  The jobs add samples one after the
 * other (`col += ...`) and divide by the count at the end; the combine jobs
 * keep a running mean.  Over the reals the order of addition does not
 * matter, which is what lets the running mean be exact.
 */
module Samples {
  import opened Mathematics

  /** `s[0] + s[1] + ... `, added left to right from zero as `col += s[k]` does. */
  function SumOf(s: seq<Float3>): Float3 {
    if |s| == 0 then Zero else Add(SumOf(s[..|s| - 1]), s[|s| - 1])
  }

  /** `sum * (1f / n)`: the sum scaled by the reciprocal of the count (0 for no samples). */
  function Average(sum: Float3, n: nat): Float3 {
    Scale(Quot(1.0, n as real), sum)
  }

  /** The mean of a non-empty list of samples; scaling it back by the count gives the sum. */
  function Mean(s: seq<Float3>): (m: Float3)
    ensures |s| > 0 ==> Scale(|s| as real, m) == SumOf(s)
  {
    Average(SumOf(s), |s|)
  }

  /** The sum of a concatenation is the sum of the sums. */
  lemma {:induction false} SumOfAppend(a: seq<Float3>, b: seq<Float3>)
    ensures SumOf(a + b) == Add(SumOf(a), SumOf(b))
    decreases |b|
  {
    if |b| == 0 {
      assert a + b == a;
    } else {
      var last := b[|b| - 1];
      assert (a + b)[..|a + b| - 1] == a + b[..|b| - 1];
      SumOfAppend(a, b[..|b| - 1]);
    }
  }

  /** The mean of the same value taken `n` times is that value. */
  lemma {:induction false} SumOfConstant(c: Float3, n: nat)
    ensures SumOf(seq(n, _ => c)) == Scale(n as real, c)
  {
    if n > 0 {
      assert seq(n, _ => c)[..n - 1] == seq(n - 1, _ => c);
      SumOfConstant(c, n - 1);
    }
  }
}

/** The shared noise table: an immutable buffer of noise values from which
    every perturbation is read as a contiguous window. */
module NoiseTable {
  import opened Wrappers
  import Slicing

  /** `SharedNoiseTable.get`: the window `noise[i : i + dim]`, with Python's
      slicing semantics (an out-of-range window is truncated, not refused). */
  function Get(noise: seq<real>, i: int, dim: int): (w: seq<real>)
    ensures |w| <= |noise|
    ensures 0 <= i && 0 <= dim && i + dim <= |noise| ==> |w| == dim && w == noise[i..i + dim]
  {
    Slicing.Slice(noise, i, i + dim)
  }

  /** `SharedNoiseTable.sample_index`: a random start in `[0, |noise| - dim]`.
      The random number generator's output is the parameter `draw`; the
      generator refuses an empty range, which happens exactly when the window
      is longer than the table. */
  function SampleIndex(noise: seq<real>, dim: nat, draw: nat): (r: Option<nat>)
    ensures r.Some? <==> dim <= |noise|
    ensures r.Some? ==> r.value + dim <= |noise|
  {
    if dim > |noise| then None else Some(draw % (|noise| - dim + 1))
  }

  /** Every admissible start can be drawn: the sampler's range is exactly
      `[0, |noise| - dim]`. */
  lemma SampleIndexReachesEvery(noise: seq<real>, dim: nat, i: nat)
    requires i + dim <= |noise|
    ensures exists draw: nat :: SampleIndex(noise, dim, draw) == Some(i)
  {
    assert SampleIndex(noise, dim, i) == Some(i);
  }

  /** A sampled start always yields a full window of `dim` values. */
  lemma SampledWindowIsFull(noise: seq<real>, dim: nat, draw: nat)
    requires dim <= |noise|
    ensures var i := SampleIndex(noise, dim, draw).value;
            |Get(noise, i, dim)| == dim && Get(noise, i, dim) == noise[i..i + dim]
  {
  }

  /** A window that runs past the end of the table comes back short: the
      slice stops at the end of the table instead of raising an error. */
  lemma GetTruncatesPastEnd(noise: seq<real>, i: nat, dim: nat)
    requires i <= |noise| < i + dim
    ensures Get(noise, i, dim) == noise[i..]
    ensures |Get(noise, i, dim)| < dim
  {
    assert Slicing.Bound(i + dim, |noise|) == |noise|;
  }
}

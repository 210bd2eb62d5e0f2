/**
 * Supervised look-back windows of a scaled series: every stride-1 slice of length
 * `timeSteps`, each paired with the value that immediately follows it.
 */
module SupervisedWindows {

  /** How many windows a series of length n yields: one per index in [timeSteps, n). */
  function WindowCount(n: nat, timeSteps: nat): nat
  {
    if n > timeSteps then n - timeSteps else 0
  }

  /** The windows, defined by sliding one step at a time: the first window, then the
      windows of the series without its first element. */
  function Windows<T>(s: seq<T>, timeSteps: nat): (w: seq<seq<T>>)
    ensures |w| == WindowCount(|s|, timeSteps)
    ensures forall k :: 0 <= k < |w| ==> k + timeSteps < |s| && w[k] == s[k..k + timeSteps]
  {
    if |s| <= timeSteps then []
    else
      var rest := Windows(s[1..], timeSteps);
      assert forall k :: 0 <= k < |rest| ==> rest[k] == s[k + 1..k + 1 + timeSteps];
      [s[..timeSteps]] + rest
  }

  /** The labels, defined the same way: the value after the first window, then the labels
      of the series without its first element. */
  function Labels<T>(s: seq<T>, timeSteps: nat): (y: seq<T>)
    ensures |y| == WindowCount(|s|, timeSteps)
    ensures forall k :: 0 <= k < |y| ==> y[k] == s[k + timeSteps]
  {
    if |s| <= timeSteps then []
    else [s[timeSteps]] + Labels(s[1..], timeSteps)
  }

  /** Every window has length `timeSteps`, and its label is the element right after it. */
  lemma LabelFollowsWindow<T>(s: seq<T>, timeSteps: nat, k: nat)
    requires k < WindowCount(|s|, timeSteps)
    ensures |Windows(s, timeSteps)[k]| == timeSteps
    ensures Windows(s, timeSteps)[k] + [Labels(s, timeSteps)[k]] == s[k..k + timeSteps + 1]
  {
    var w := Windows(s, timeSteps)[k];
    var y := Labels(s, timeSteps)[k];
    assert w == s[k..k + timeSteps];
    assert y == s[k + timeSteps];
    assert s[k..k + timeSteps + 1] == s[k..k + timeSteps] + [s[k + timeSteps]];
  }

  /** Stride-1 overlap: the next window is this window shifted left by one with this
      window's label appended. */
  lemma StrideOneOverlap<T>(s: seq<T>, timeSteps: nat, k: nat)
    requires timeSteps > 0
    requires k + 1 < WindowCount(|s|, timeSteps)
    ensures Windows(s, timeSteps)[k + 1]
         == Windows(s, timeSteps)[k][1..] + [Labels(s, timeSteps)[k]]
  {
    var w := Windows(s, timeSteps);
    var y := Labels(s, timeSteps);
    var shared := s[k + 1..k + timeSteps];
    assert w[k][1..] == shared by {
      assert w[k] == s[k..k + timeSteps];
    }
    assert w[k + 1] == shared + [y[k]] by {
      assert w[k + 1] == s[k + 1..k + 1 + timeSteps];
      assert y[k] == s[k + timeSteps];
    }
  }

  /**
   * The loop of `to_numpy` that walks i over [timeSteps, |s|), appending the slice
   * s[i - timeSteps .. i) to the inputs and s[i] to the labels.
   */
  method SlidingWindows<T>(s: seq<T>, timeSteps: nat) returns (x: seq<seq<T>>, y: seq<T>)
    ensures x == Windows(s, timeSteps)
    ensures y == Labels(s, timeSteps)
  {
    x, y := [], [];
    var i := timeSteps;
    while i < |s|
      invariant timeSteps <= i
      invariant i == timeSteps || i <= |s|
      invariant |x| == |y| == i - timeSteps
      invariant forall k :: 0 <= k < |x| ==> k + timeSteps < |s| && x[k] == s[k..k + timeSteps]
      invariant forall k :: 0 <= k < |y| ==> k + timeSteps < |s| && y[k] == s[k + timeSteps]
    {
      x := x + [s[i - timeSteps..i]];
      y := y + [s[i]];
      i := i + 1;
    }
    assert |x| == WindowCount(|s|, timeSteps);
  }
}

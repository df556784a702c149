/**
 The dirty-data stress test: spurious tracklets whose total displacement
 over the baseline is drawn uniformly, independently of any distance, are
 run through the shell-window veto, and the pass fraction and rejection
 rate are reported. The drawn displacements are an input here.
 */
module StressTest {
  import opened ShellVeto

  /** What one stress-test run computes. */
  datatype StressResult = StressResult(
    window: Window,
    passed: seq<bool>,
    nPassed: nat,
    passFraction: real,
    rejectionRate: real)

  /** The fraction of `n` tracklets that passed. */
  function PassFraction(nPassed: nat, n: nat): (f: real)
    requires n > 0
    ensures f * n as real == nPassed as real
    ensures 0.0 <= f
    ensures f <= 1.0 <==> nPassed <= n
    ensures f == 0.0 <==> nPassed == 0
    ensures f == 1.0 <==> nPassed == n
  {
    nPassed as real / n as real
  }

  /** More tracklets passing means a larger pass fraction. */
  lemma PassFractionMonotone(fewer: nat, more: nat, n: nat)
    requires n > 0 && fewer <= more
    ensures PassFraction(fewer, n) <= PassFraction(more, n)
  {
    var d := PassFraction(more, n) - PassFraction(fewer, n);
    assert d * n as real == (more - fewer) as real;
  }

  /** The percentage of tracklets rejected, from the fraction that passed. */
  function RejectionRate(passFraction: real): (rate: real)
    ensures 0.0 <= rate <= 100.0 <==> 0.0 <= passFraction <= 1.0
    ensures rate == 100.0 <==> passFraction == 0.0
    ensures rate == 0.0 <==> passFraction == 1.0
  {
    (1.0 - passFraction) * 100.0
  }

  /**
   One run over the drawn displacements `spurious` (so `n_artifacts` is
   their number). The script divides by `n_artifacts` and by both shell
   edges, which fails when any of them is zero.
   */
  function RunStressTest(spurious: seq<real>, targetDist: real, shellWidth: real,
                         baselineDays: real, marginArcsec: real): (r: StressResult)
    requires |spurious| > 0
    requires targetDist + shellWidth != 0.0 && targetDist - shellWidth != 0.0
    ensures r.window == ShellWindow(targetDist, shellWidth, baselineDays, marginArcsec)
    ensures |r.passed| == |spurious|
    ensures forall i :: 0 <= i < |spurious| ==> (r.passed[i] <==> InWindow(spurious[i], r.window))
    ensures r.nPassed == |PassedIndices(spurious, r.window)| <= |spurious|
    ensures 0.0 <= r.passFraction <= 1.0
    ensures r.passFraction == PassFraction(r.nPassed, |spurious|)
    ensures r.rejectionRate == RejectionRate(r.passFraction)
    ensures 0.0 <= r.rejectionRate <= 100.0
    ensures r.rejectionRate == 100.0 <==> (forall i :: 0 <= i < |spurious| ==> !InWindow(spurious[i], r.window))
    ensures r.rejectionRate == 0.0 <==> (forall i :: 0 <= i < |spurious| ==> InWindow(spurious[i], r.window))
  {
    var window := ShellWindow(targetDist, shellWidth, baselineDays, marginArcsec);
    var passed := ApplyFilter(spurious, window);
    var nPassed := CountPassed(passed);
    CountFilteredIsPassedIndices(spurious, window);
    var passFraction := PassFraction(nPassed, |spurious|);
    StressResult(window, passed, nPassed, passFraction, RejectionRate(passFraction))
  }

  /** Raising the margin, all else fixed, never lets fewer tracklets through nor rejects more. */
  lemma MarginMonotone(spurious: seq<real>, targetDist: real, shellWidth: real,
                       baselineDays: real, m1: real, m2: real)
    requires |spurious| > 0
    requires targetDist + shellWidth != 0.0 && targetDist - shellWidth != 0.0
    requires m1 <= m2
    ensures RunStressTest(spurious, targetDist, shellWidth, baselineDays, m1).nPassed
            <= RunStressTest(spurious, targetDist, shellWidth, baselineDays, m2).nPassed
    ensures RunStressTest(spurious, targetDist, shellWidth, baselineDays, m2).rejectionRate
            <= RunStressTest(spurious, targetDist, shellWidth, baselineDays, m1).rejectionRate
  {
    WindowWidensWithMargin(targetDist, shellWidth, baselineDays, m1, m2);
    CountMonotoneInWindow(spurious, ShellWindow(targetDist, shellWidth, baselineDays, m1),
                          ShellWindow(targetDist, shellWidth, baselineDays, m2));
    var r1 := RunStressTest(spurious, targetDist, shellWidth, baselineDays, m1);
    var r2 := RunStressTest(spurious, targetDist, shellWidth, baselineDays, m2);
    PassFractionMonotone(r1.nPassed, r2.nPassed, |spurious|);
  }
}

/**
 The reference population simulation: main-belt and ordinary
 trans-Neptunian clutter and a signal population drawn inside the shell
 are turned into parallax motions, filtered through the shell-window veto
 with a fixed 0.1 arcsec margin, and summarised as a recovery rate for the
 signal and a pooled rejection rate for the clutter. The drawn distances
 and the drawn observational noise are inputs here.
 */
module Simulation {
  import opened ShellVeto

  /** The margin the simulation adds to both ends of the window (arcsec). */
  const FixedMargin: real := 0.1

  /** One population's draws: a distance (AU) and an observational noise value (arcsec) per body. */
  datatype Draws = Draws(distances: seq<real>, noise: seq<real>)

  /** One noise value per distance, and no body at zero distance. */
  predicate WellFormed(p: Draws)
  {
    |p.noise| == |p.distances| && forall i :: 0 <= i < |p.distances| ==> p.distances[i] != 0.0
  }

  /** Every distance of `p` lies in [lo, hi]. */
  predicate DistancesWithin(p: Draws, lo: real, hi: real)
  {
    forall i :: 0 <= i < |p.distances| ==> lo <= p.distances[i] <= hi
  }

  /** Every noise value of `p` lies in [-bound, bound]. */
  predicate NoiseWithin(p: Draws, bound: real)
  {
    forall i :: 0 <= i < |p.noise| ==> -bound <= p.noise[i] <= bound
  }

  /** The observed motion of each body: its parallax displacement over the baseline plus its noise. */
  function ParallaxMotion(distances: seq<real>, baselineDays: real, noise: seq<real>): (motions: seq<real>)
    requires |noise| == |distances|
    requires forall i :: 0 <= i < |distances| ==> distances[i] != 0.0
    ensures |motions| == |distances|
    ensures forall i :: 0 <= i < |distances| ==> motions[i] - noise[i] == Displacement(distances[i], baselineDays)
  {
    seq(|distances|, i requires 0 <= i < |distances| => ArcsecPerDayAtOneAU / distances[i] * baselineDays + noise[i])
  }

  /** Without noise, of two bodies at positive distances the farther one moves strictly less. */
  lemma MotionDecreasesWithDistance(distances: seq<real>, baselineDays: real, i: int, j: int)
    requires baselineDays > 0.0
    requires forall k :: 0 <= k < |distances| ==> distances[k] > 0.0
    requires 0 <= i < |distances| && 0 <= j < |distances| && distances[i] < distances[j]
    ensures ParallaxMotion(distances, baselineDays, seq(|distances|, _ => 0.0))[j]
            < ParallaxMotion(distances, baselineDays, seq(|distances|, _ => 0.0))[i]
  {
    DisplacementAntitone(distances[i], distances[j], baselineDays);
  }

  /** `part` as a percentage of a non-empty `whole`. */
  function Percent(part: nat, whole: nat): (p: real)
    requires 0 < whole && part <= whole
    ensures 0.0 <= p <= 100.0
    ensures p * whole as real == part as real * 100.0
    ensures p == 100.0 <==> part == whole
    ensures p == 0.0 <==> part == 0
  {
    var f := part as real / whole as real;
    assert f * whole as real == part as real;
    assert (1.0 - f) * whole as real == (whole - part) as real;
    f * 100.0
  }

  /** The percentage of signal draws that passed. */
  function Recovery(passedSig: seq<bool>): (r: real)
    requires |passedSig| > 0
    ensures 0.0 <= r <= 100.0
    ensures r * |passedSig| as real == CountPassed(passedSig) as real * 100.0
    ensures r == 100.0 <==> (forall i :: 0 <= i < |passedSig| ==> passedSig[i])
    ensures r == 0.0 <==> (forall i :: 0 <= i < |passedSig| ==> !passedSig[i])
  {
    Percent(CountPassed(passedSig), |passedSig|)
  }

  /** The percentage of the two clutter populations, pooled, that was rejected. */
  function Rejection(passedMba: seq<bool>, passedTno: seq<bool>): (r: real)
    requires |passedMba| + |passedTno| > 0
    ensures r == Percent((|passedMba| - CountPassed(passedMba)) + (|passedTno| - CountPassed(passedTno)),
                         |passedMba| + |passedTno|)
    ensures 0.0 <= r <= 100.0
    ensures r == 100.0 <==> (forall i :: 0 <= i < |passedMba| ==> !passedMba[i])
                            && (forall i :: 0 <= i < |passedTno| ==> !passedTno[i])
    ensures r == 0.0 <==> (forall i :: 0 <= i < |passedMba| ==> passedMba[i])
                          && (forall i :: 0 <= i < |passedTno| ==> passedTno[i])
  {
    var totalNoise := |passedMba| + |passedTno|;
    var totalNoisePassed := CountPassed(passedMba) + CountPassed(passedTno);
    Percent(totalNoise - totalNoisePassed, totalNoise)
  }

  /** What one simulation run computes. */
  datatype SimulationResult = SimulationResult(
    window: Window,
    motionMba: seq<real>,
    motionTno: seq<real>,
    motionSig: seq<real>,
    passedMba: seq<bool>,
    passedTno: seq<bool>,
    passedSig: seq<bool>,
    recovery: real,
    rejection: real)

  /**
   One run over the main-belt, trans-Neptunian and signal draws. The
   script divides by both shell edges, by the signal count and by the
   pooled clutter count without checking any of them.
   */
  function RunSimulation(targetDist: real, shellWidth: real, baselineDays: real,
                         mba: Draws, tno: Draws, sig: Draws): (r: SimulationResult)
    requires targetDist + shellWidth != 0.0 && targetDist - shellWidth != 0.0
    requires WellFormed(mba) && WellFormed(tno) && WellFormed(sig)
    requires |sig.distances| > 0 && |mba.distances| + |tno.distances| > 0
    ensures r.window == ShellWindow(targetDist, shellWidth, baselineDays, FixedMargin)
    ensures r.motionMba == ParallaxMotion(mba.distances, baselineDays, mba.noise)
    ensures r.motionTno == ParallaxMotion(tno.distances, baselineDays, tno.noise)
    ensures r.motionSig == ParallaxMotion(sig.distances, baselineDays, sig.noise)
    ensures r.passedMba == ApplyFilter(r.motionMba, r.window)
    ensures r.passedTno == ApplyFilter(r.motionTno, r.window)
    ensures r.passedSig == ApplyFilter(r.motionSig, r.window)
    ensures r.recovery == Recovery(r.passedSig)
    ensures r.rejection == Rejection(r.passedMba, r.passedTno)
    ensures 0.0 <= r.recovery <= 100.0 && 0.0 <= r.rejection <= 100.0
    ensures r.recovery == 100.0 <==> (forall i :: 0 <= i < |sig.distances| ==> InWindow(r.motionSig[i], r.window))
    ensures r.rejection == 100.0 <==> (forall i :: 0 <= i < |mba.distances| ==> !InWindow(r.motionMba[i], r.window))
                                      && (forall i :: 0 <= i < |tno.distances| ==> !InWindow(r.motionTno[i], r.window))
  {
    var motionMba := ParallaxMotion(mba.distances, baselineDays, mba.noise);
    var motionTno := ParallaxMotion(tno.distances, baselineDays, tno.noise);
    var motionSig := ParallaxMotion(sig.distances, baselineDays, sig.noise);
    var window := ShellWindow(targetDist, shellWidth, baselineDays, FixedMargin);
    var passedMba := ApplyFilter(motionMba, window);
    var passedTno := ApplyFilter(motionTno, window);
    var passedSig := ApplyFilter(motionSig, window);
    SimulationResult(window, motionMba, motionTno, motionSig, passedMba, passedTno, passedSig,
                     Recovery(passedSig), Rejection(passedMba, passedTno))
  }

  /**
   Signal drawn inside a valid shell, observed with noise no larger than
   the fixed margin, is always recovered in full.
   */
  lemma SignalFullyRecovered(targetDist: real, shellWidth: real, baselineDays: real,
                             mba: Draws, tno: Draws, sig: Draws)
    requires targetDist > shellWidth >= 0.0 && baselineDays > 0.0
    requires WellFormed(mba) && WellFormed(tno) && WellFormed(sig)
    requires |sig.distances| > 0 && |mba.distances| + |tno.distances| > 0
    requires DistancesWithin(sig, targetDist - shellWidth, targetDist + shellWidth)
    requires NoiseWithin(sig, FixedMargin)
    ensures RunSimulation(targetDist, shellWidth, baselineDays, mba, tno, sig).recovery == 100.0
  {
    var r := RunSimulation(targetDist, shellWidth, baselineDays, mba, tno, sig);
    forall i | 0 <= i < |sig.distances|
      ensures InWindow(r.motionSig[i], r.window)
    {
      ShellMemberInWindow(targetDist, shellWidth, baselineDays, FixedMargin, sig.distances[i], sig.noise[i]);
    }
  }

  /** Every body at distance (0, 100] AU, with noise of magnitude at most 1 arcsec, moves faster than the reference window's upper bound. */
  lemma NearBodiesAboveReferenceWindow(motions: seq<real>, p: Draws)
    requires WellFormed(p) && DistancesWithin(p, 0.0, 100.0) && NoiseWithin(p, 1.0)
    requires forall i :: 0 <= i < |p.distances| ==> p.distances[i] > 0.0
    requires motions == ParallaxMotion(p.distances, 2.0, p.noise)
    ensures forall i :: 0 <= i < |motions| ==> motions[i] > ShellWindow(600.0, 20.0, 2.0, FixedMargin).hi
  {
    DefaultWindow();
    forall i | 0 <= i < |motions|
      ensures motions[i] > ShellWindow(600.0, 20.0, 2.0, FixedMargin).hi
    {
      DisplacementAntitone(p.distances[i], 100.0, 2.0);
    }
  }

  /**
   With the reference shell (600 +/- 20 AU) and a 2-day baseline, main-belt
   draws in [2, 3.5] AU and trans-Neptunian draws in [30, 100] AU, each
   with noise of at most 1 arcsec, all move too fast to pass: rejection is
   100%.
   */
  lemma ReferenceClutterFullyRejected(mba: Draws, tno: Draws, sig: Draws)
    requires WellFormed(mba) && WellFormed(tno) && WellFormed(sig)
    requires |sig.distances| > 0 && |mba.distances| + |tno.distances| > 0
    requires DistancesWithin(mba, 2.0, 3.5) && DistancesWithin(tno, 30.0, 100.0)
    requires NoiseWithin(mba, 1.0) && NoiseWithin(tno, 1.0)
    ensures RunSimulation(600.0, 20.0, 2.0, mba, tno, sig).rejection == 100.0
  {
    var r := RunSimulation(600.0, 20.0, 2.0, mba, tno, sig);
    NearBodiesAboveReferenceWindow(r.motionMba, mba);
    NearBodiesAboveReferenceWindow(r.motionTno, tno);
  }
}

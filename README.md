# Shell-window parallax veto, in Dafny

This project models the shell-window veto of the parallax veto filter. The
filter looks for a hypothesised distant population that sits in a distance
shell (centre `d0`, half-width `dw`, in AU). A body at distance `d`
shows a sky-plane displacement of `3600 / d * baseline` arcsec over a
baseline of `baseline` days, because parallax shrinks with distance. So
the shell admits one displacement window, `[3600/(d0+dw)*baseline - margin,
3600/(d0-dw)*baseline + margin]`. A tracklet passes the veto exactly when
its displacement lies in that closed interval.

Two scripts use the veto:

- the **population simulation** (`parallax-veto-filter/simulation.py`). It
  draws main-belt clutter, trans-Neptunian clutter and signal drawn inside
  the shell. It turns each population into noisy motions and filters them
  with a fixed 0.1 arcsec margin. It reports the signal recovery rate and
  the pooled clutter rejection rate;
- the **dirty-data stress test** (`parallax-veto-filter-release-v1/stress_test.py`).
  It draws displacements uniformly, with no link to any distance. It
  filters them with a configurable margin and reports the number passed,
  the pass fraction and the rejection rate.

The project has three modules:

- `ShellVeto` (`shell_veto.dfy`): the shared core. It holds the
  displacement of a body, the shell window, the inclusive classifier
  `ApplyFilter` and the recursive pass count `CountPassed`. Beside them sit
  the lemmas about the window (non-empty, widened by the margin, admits
  every shell member) and about the count (it equals the number of
  positions inside the window, and it grows with the window).
- `StressTest` (`stress_test.dfy`): one stress-test run. It also proves
  that a larger margin never passes fewer tracklets.
- `Simulation` (`simulation.dfy`): the motion model, the recovery and
  rejection rates and one simulation run. It proves that signal drawn
  inside the shell is always fully recovered. It also proves that, in the
  reference configuration, all main-belt and trans-Neptunian clutter is
  rejected.

All arithmetic is exact `real` arithmetic. Random draws are inputs: the
drawn distances, the drawn displacements and the drawn observational
noise are sequences the caller supplies.

Neither script validates its inputs. They divide by `d0 + dw`, by
`d0 - dw`, by the number of spurious tracklets, by the signal count and by
the pooled clutter count, and check none of them. The model therefore
states these as preconditions rather than as error results:

- the window functions require only that both shell edges are non-zero,
  since Python raises on a zero float divisor;
- the lemmas that need a physical shell assume `d0 > dw >= 0` and
  `baseline > 0`.

For the reference configuration (600 ± 20 AU, 2 days, margin 0.1), the
window is exactly `[3569/310, 3629/290]`, about `[11.513, 12.514]` arcsec
(`ShellVeto.DefaultWindow`).

Two helpers carry no contract of their own and so have no row below:
`ShellVeto.Displacement` is the per-body formula `3600 / d * baseline`
(parallax-veto-filter/simulation.py:17,19), and `ShellVeto.InWindow` is
the inclusive comparison `limit_min <= x <= limit_max`
(parallax-veto-filter/simulation.py:22, parallax-veto-filter-release-v1/stress_test.py:45).
Their meaning is stated by the lemmas and functions that use them.

## Model

| member | source | states |
|---|---|---|
| `ShellVeto.DisplacementAntitone` | parallax-veto-filter/simulation.py:17-19 | For positive distances and a positive baseline, a farther body never moves more than a nearer one, and strictly less when it is strictly farther |
| `ShellVeto.ShellWindow` | parallax-veto-filter-release-v1/stress_test.py:42-43 | The lower bound is the displacement of the shell's far edge minus the margin; the upper bound is the displacement of its near edge plus the margin |
| `ShellVeto.WindowNonEmpty` | parallax-veto-filter-release-v1/stress_test.py:42-43 | For `d0 > dw >= 0`, `baseline > 0` and `margin >= 0`, `limit_min <= limit_max`, and the inequality is strict exactly when `dw > 0` or `margin > 0` |
| `ShellVeto.WindowWidensWithMargin` | parallax-veto-filter-release-v1/stress_test.py:42-43 | A larger margin gives a window containing the one a smaller margin gives |
| `ShellVeto.DefaultWindow` | parallax-veto-filter/simulation.py:53-54 | With the 600 ± 20 AU shell, a 2-day baseline and the 0.1 margin, the window is exactly `[3569/310, 3629/290]` |
| `ShellVeto.ShellMemberInWindow` | parallax-veto-filter/simulation.py:50-54 | Any distance in `[d0-dw, d0+dw]`, observed with noise of magnitude at most the margin, gives a motion inside the window |
| `ShellVeto.ApplyFilter` | parallax-veto-filter/simulation.py:21-22 | The mask has one entry per motion, and entry i is true iff `limit_min <= motions[i] <= limit_max` |
| `ShellVeto.FilterInclusive` | parallax-veto-filter-release-v1/stress_test.py:45 | Both bounds of a non-empty window pass, and values beyond either bound fail |
| `ShellVeto.CountPassed` | parallax-veto-filter-release-v1/stress_test.py:46 | `0 <= n_passed <= len(mask)`; the count equals the length iff every entry is true, and is zero iff none is |
| `ShellVeto.CountPassedIsSetPositions` | parallax-veto-filter-release-v1/stress_test.py:46 | The recursive count equals the number of positions whose flag is set, which is what summing the mask gives |
| `ShellVeto.CountFilteredIsPassedIndices` | parallax-veto-filter-release-v1/stress_test.py:45-46 | The count of a filtered population equals the number of displacements inside the window |
| `ShellVeto.CountPointwiseMonotone` | parallax-veto-filter-release-v1/stress_test.py:46 | A mask that sets every flag another sets counts at least as many |
| `ShellVeto.CountMonotoneInWindow` | parallax-veto-filter-release-v1/stress_test.py:45-46 | A window containing another never passes fewer displacements |
| `StressTest.PassFraction` | parallax-veto-filter-release-v1/stress_test.py:47 | The fraction times the population size is `n_passed`; it is non-negative, at most 1 iff `n_passed <= n`, 0 iff nothing passed and 1 iff everything passed |
| `StressTest.PassFractionMonotone` | parallax-veto-filter-release-v1/stress_test.py:47 | More tracklets passing gives a pass fraction at least as large |
| `StressTest.RejectionRate` | parallax-veto-filter-release-v1/stress_test.py:48 | The rate lies in [0,100] iff the fraction lies in [0,1]; it is 100 iff the fraction is 0, and 0 iff the fraction is 1 |
| `StressTest.RunStressTest` | parallax-veto-filter-release-v1/stress_test.py:39-48 | One flag per spurious tracklet, set iff the tracklet's displacement is in the shell window. `n_passed` is the number of tracklets inside the window, at most `n_artifacts`. The pass fraction is in [0,1] and the rejection rate in [0,100]. Rejection is 100 iff no tracklet is inside the window, and 0 iff all are |
| `StressTest.MarginMonotone` | parallax-veto-filter-release-v1/stress_test.py:42-48 | Raising the margin, all else fixed, never decreases `n_passed` and never increases the rejection rate |
| `Simulation.ParallaxMotion` | parallax-veto-filter/simulation.py:16-19 | One motion per distance; each motion minus its noise is that distance's parallax displacement over the baseline |
| `Simulation.MotionDecreasesWithDistance` | parallax-veto-filter/simulation.py:16-19 | With zero noise and positive distances, the farther of two bodies has strictly the smaller motion |
| `Simulation.Percent` | parallax-veto-filter/simulation.py:60-63 | A part of a non-empty whole, as a percentage: in [0,100], times the whole equals the part times 100, 100 iff the part is the whole, 0 iff the part is empty |
| `Simulation.Recovery` | parallax-veto-filter/simulation.py:60 | Recovery lies in [0,100], times `n_signal` equals 100 times the passed count, and is 100 iff every signal draw passed, 0 iff none did |
| `Simulation.Rejection` | parallax-veto-filter/simulation.py:61-63 | Rejection is the percentage of failed draws over both clutter populations pooled. It lies in [0,100], and it is 100 iff no draw of either population passed and 0 iff all passed |
| `Simulation.RunSimulation` | parallax-veto-filter/simulation.py:44-63 | The window is the shell window with margin 0.1. Each population's motions and pass mask are those of the motion model and the classifier. Recovery is `Recovery` of the signal mask (passed count over `n_signal`, times 100) and rejection is `Rejection` of the two clutter masks (pooled failures over pooled total, times 100); both lie in [0,100]. Recovery is 100 iff every signal motion is inside the window; rejection is 100 iff no clutter motion is |
| `Simulation.SignalFullyRecovered` | parallax-veto-filter/simulation.py:50-60 | For `d0 > dw >= 0` and `baseline > 0`, signal distances in `[d0-dw, d0+dw]` with noise of magnitude at most 0.1 give a recovery of exactly 100 |
| `Simulation.NearBodiesAboveReferenceWindow` | parallax-veto-filter/simulation.py:44-57 | With the 600 ± 20 AU shell and a 2-day baseline, every body at a distance in (0, 100] AU with noise of magnitude at most 1 arcsec gives a motion strictly above `limit_max` |
| `Simulation.ReferenceClutterFullyRejected` | parallax-veto-filter/simulation.py:44-63 | With the reference shell and baseline, main-belt draws in [2, 3.5] AU and trans-Neptunian draws in [30, 100] AU, with noise of magnitude at most 1 arcsec, give a rejection of exactly 100 |

## Left out

- Argument parsing (`argparse`, parallax-veto-filter-release-v1/stress_test.py:83-108 and parallax-veto-filter/simulation.py:25-36). It is configuration plumbing; its values are parameters of the model's functions.
- Console output and the matplotlib figures (parallax-veto-filter-release-v1/stress_test.py:50-80 and parallax-veto-filter/simulation.py:65-90). They are presentation and file I/O. The output file name and DPI are not modelled.
- Random draws (`default_rng(seed)`, `rng.uniform`, `rng.normal`). numpy's generator is foreign code. The drawn distances, displacements and noise values are input sequences instead. So the seed, the noise `sigma` and the distance and displacement ranges are not parameters of the run functions, and seed reproducibility is not modelled. The distance ranges reappear only as hypotheses of `Simulation.SignalFullyRecovered` and `Simulation.ReferenceClutterFullyRejected`. `rng.uniform` draws from a half-open interval; the lemmas assume closed ranges, which cover it.
- IEEE double rounding. All arithmetic is over `real`. The statistical outcome of the stress test (a pass fraction near 0.46% for 5000 uniform draws) is a property of random sampling, not of the code, and is not stated.
- Zero divisors. numpy turns a zero distance into an infinite motion, and a zero signal or clutter count into NaN; Python raises on a zero shell edge or a zero `n_artifacts`. `real` has no infinity or NaN, so the model requires non-zero distances, non-zero shell edges and non-empty populations.
- Input validation. Neither script rejects a shell with `dw >= d0`, a non-positive baseline or an empty population, so the model adds no error path for them. A shell with a zero edge (`dw == d0` or `dw == -d0`) makes Python raise on the division, and the model excludes it by `requires`. Any other shell, including `dw > d0`, gets whatever window the formula gives, exactly as the code computes it; for `0 < d0 < dw` and a small margin that window is inverted (`limit_min > limit_max`) and passes nothing.
- `Simulation.SignalFullyRecovered`: Gaussian noise is unbounded, so full recovery is proved only for draws whose noise stays within the 0.1 arcsec margin.
- `Simulation.ReferenceClutterFullyRejected`: as above, this is proved only for noise of magnitude at most 1 arcsec, which is twenty times the default `sigma` of 0.05.

/**
 * The explore-then-exploit schedule of RMOBO: the first
 * floor(n_iter * phase1_ratio) iterations use acquisition 1 (EI), the rest
 * acquisition 2 (PI).
 */
module PhaseSchedule {

  /** The two acquisition functions RMOBO builds: `get_acquisition('ei')` and `get_acquisition('pi')`. */
  datatype Acquisition = Ei | Pi
  {
    /** The registry name the acquisition is built from. */
    function Name(): string
    {
      match this
      case Ei => "ei"
      case Pi => "pi"
    }
  }

  /** A non-negative phase ratio num/den, standing for the float `phase1_ratio`. */
  datatype Ratio = Ratio(num: nat, den: nat)
  type PhaseRatio = r: Ratio | r.den > 0 witness Ratio(1, 1)

  /** The ratio `RMOBO.__init__` sets: 1.0. */
  const DefaultRatio: PhaseRatio := Ratio(1, 1)

  /** `int(n_iter * phase1_ratio)`: truncation, which is the floor for a non-negative product. */
  function Phase1Iterations(nIter: nat, ratio: PhaseRatio): nat
  {
    nIter * ratio.num / ratio.den
  }

  /** The phase-1 length is the floor of n_iter * num / den. */
  lemma Phase1IsFloor(nIter: nat, ratio: PhaseRatio)
    ensures var n := Phase1Iterations(nIter, ratio);
            n * ratio.den <= nIter * ratio.num < (n + 1) * ratio.den
  {
    var a, d := nIter * ratio.num, ratio.den;
    assert a == (a / d) * d + a % d;
  }

  /** `n_iter - n_phase1_iter`; negative exactly when the phase-1 length exceeds n_iter. */
  function Phase2Iterations(nIter: nat, ratio: PhaseRatio): int
  {
    nIter - Phase1Iterations(nIter, ratio)
  }

  /** The acquisition of iteration i when phase 1 ends at `boundary`. */
  function Acquire(i: nat, boundary: nat): Acquisition
  {
    if i < boundary then Ei else Pi
  }

  /** The acquisition `solve` makes active at iteration i. */
  function ActiveAcquisition(i: nat, nIter: nat, ratio: PhaseRatio): Acquisition
  {
    Acquire(i, Phase1Iterations(nIter, ratio))
  }

  /** The number of iterations among the first n that use acquisition a. */
  function CountUsing(a: Acquisition, n: nat, boundary: nat): nat
  {
    if n == 0 then 0
    else CountUsing(a, n - 1, boundary) + (if Acquire(n - 1, boundary) == a then 1 else 0)
  }

  function Min(a: nat, b: nat): nat
  {
    if a <= b then a else b
  }

  /** The two phase counts add up to n_iter, and for a ratio in [0, 1] both lie in [0, n_iter]. */
  lemma PhaseCounts(nIter: nat, ratio: PhaseRatio)
    ensures Phase1Iterations(nIter, ratio) + Phase2Iterations(nIter, ratio) == nIter
    ensures ratio.num <= ratio.den ==>
              0 <= Phase1Iterations(nIter, ratio) <= nIter && 0 <= Phase2Iterations(nIter, ratio) <= nIter
  {
    var n := Phase1Iterations(nIter, ratio);
    Phase1IsFloor(nIter, ratio);
    if ratio.num <= ratio.den {
      ScaleMonotone(ratio.num, ratio.den, nIter);
      ScaleCancel(n, nIter, ratio.den);
    }
  }

  /** Iteration i uses acquisition 1 exactly when it is before the phase boundary. */
  lemma ScheduleRule(i: nat, nIter: nat, ratio: PhaseRatio)
    ensures ActiveAcquisition(i, nIter, ratio) == Ei <==> (i + 1) * ratio.den <= nIter * ratio.num
  {
    var n := Phase1Iterations(nIter, ratio);
    Phase1IsFloor(nIter, ratio);
    if i < n {
      ScaleMonotone(i + 1, n, ratio.den);
    } else {
      ScaleMonotone(n + 1, i + 1, ratio.den);
    }
  }

  /** A common positive factor can be cancelled from both sides of an inequality. */
  lemma {:induction false} ScaleCancel(a: nat, b: nat, d: nat)
    requires d > 0 && a * d <= b * d
    ensures a <= b
  {
    if b < a {
      ScaleMonotone(b + 1, a, d);
      assert false;
    }
  }

  /** Multiplying by a natural number keeps the order. */
  lemma ScaleMonotone(a: nat, b: nat, d: nat)
    requires a <= b
    ensures a * d <= b * d
  {
  }

  /** With the default ratio 1.0 every iteration uses acquisition 1 and phase 2 is empty. */
  lemma DefaultRatioIsAllPhase1(i: nat, nIter: nat)
    requires i < nIter
    ensures ActiveAcquisition(i, nIter, DefaultRatio) == Ei
    ensures Phase2Iterations(nIter, DefaultRatio) == 0
  {
  }

  /** Once the schedule has switched to acquisition 2 it never returns to acquisition 1. */
  lemma NoReturnToPhase1(i: nat, j: nat, nIter: nat, ratio: PhaseRatio)
    requires i <= j && ActiveAcquisition(i, nIter, ratio) == Pi
    ensures ActiveAcquisition(j, nIter, ratio) == Pi
  {
  }

  /** Among the first n iterations, Min(n, boundary) use acquisition 1 and the others acquisition 2. */
  lemma {:induction false} CountUsingSplit(n: nat, boundary: nat)
    ensures CountUsing(Ei, n, boundary) == Min(n, boundary)
    ensures CountUsing(Pi, n, boundary) == n - Min(n, boundary)
  {
    if n > 0 {
      CountUsingSplit(n - 1, boundary);
    }
  }

  /** The counts `__str__` reports are the numbers of iterations `solve` runs with each acquisition. */
  lemma ReportedCountsMatchSchedule(nIter: nat, ratio: PhaseRatio)
    requires ratio.num <= ratio.den
    ensures CountUsing(Ei, nIter, Phase1Iterations(nIter, ratio)) == Phase1Iterations(nIter, ratio)
    ensures CountUsing(Pi, nIter, Phase1Iterations(nIter, ratio)) == Phase2Iterations(nIter, ratio)
  {
    PhaseCounts(nIter, ratio);
    CountUsingSplit(nIter, Phase1Iterations(nIter, ratio));
  }

  /**
   * A ratio above 1 is not rejected: at 1.5 with three iterations the counts
   * are 4 and -1, while at 1.01 with ten iterations they are 10 and 0.
   */
  lemma RatioAboveOneCounts()
    ensures Phase1Iterations(3, Ratio(3, 2)) == 4 && Phase2Iterations(3, Ratio(3, 2)) == -1
    ensures Phase1Iterations(10, Ratio(101, 100)) == 10 && Phase2Iterations(10, Ratio(101, 100)) == 0
  {
  }

  /** Three iterations at ratio 0.34: the boundary is 1, so iteration 0 explores and 1 and 2 exploit. */
  lemma ThreeIterationsAtRatio034()
    ensures Phase1Iterations(3, Ratio(34, 100)) == 1
    ensures ActiveAcquisition(0, 3, Ratio(34, 100)) == Ei
    ensures ActiveAcquisition(1, 3, Ratio(34, 100)) == Pi
    ensures ActiveAcquisition(2, 3, Ratio(34, 100)) == Pi
  {
  }
}

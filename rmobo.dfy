/**
 * RMOBO's optimisation loop (`RMOBO.solve`): a phase-switching MOBO run that,
 * once per iteration, normalises the archive, fits the surrogate and the
 * active acquisition, solves the surrogate problem, selects a batch,
 * evaluates it on the real problem, records it and hands it out.
 *
 * The collaborators (transformation, surrogate model, acquisition functions,
 * solver, selection, real problem) are oracles: each call is a method of the
 * optimiser that logs the call in the ghost `trace` and returns a value the
 * model leaves unconstrained, apart from the shape the real problem's
 * `evaluate` promises.
 */
module RmoboSolver {
  import opened Wrappers
  import opened Matrices
  import opened PhaseSchedule
  import MoboConfig

  /** RMOBO's class-level `config`. */
  const Config: MoboConfig.Config := MoboConfig.Config("gp", "ei", "nsga2", "uncertainty")

  /**
   * What the real problem's `evaluate` returns: the objective matrix alone,
   * or, for a problem with constraints, a pair whose first component is the
   * objective matrix and whose second is the constraint violation.
   */
  datatype Evaluation = Unconstrained(value: Matrix) | Constrained(objectives: Matrix, violation: Matrix)

  /** The problem interface: a pair exactly when the problem has constraints. */
  predicate Conforms(e: Evaluation, nConstr: nat)
  {
    e.Constrained? <==> nConstr > 0
  }

  /** `Y_next`: the first component of the result when there are constraints, the result itself otherwise. */
  function KeptObjectives(e: Evaluation, nConstr: nat): (y: Matrix)
    requires Conforms(e, nConstr)
    ensures nConstr > 0 ==> e == Constrained(y, e.violation)
    ensures nConstr == 0 ==> e == Unconstrained(y)
  {
    if nConstr > 0 then e.objectives else e.value
  }

  /** One element of the sequence `solve` yields. */
  datatype Batch = Batch(x: Matrix, y: Matrix)

  /** A call `solve` makes to a collaborator or to `_update_status`, or the yield of a batch. */
  datatype Event =
    | SelectionSetRefPoint(point: Row)
    | StatusUpdate(x: Matrix, y: Matrix)
    | TransformationFit(x: Matrix, y: Matrix)
    | TransformationDo(x: Matrix, y: Matrix, nx: Matrix, ny: Matrix)
    | SurrogateFit(x: Matrix, y: Matrix)
    | AcquisitionFit(acquisition: Acquisition, x: Matrix, y: Matrix)
    | SolverSolve(acquisition: Acquisition, x: Matrix, y: Matrix, solution: Matrix)
    | SelectionFit(x: Matrix, y: Matrix)
    | SelectionSelect(solution: Matrix, x: Matrix, info: Matrix)
    | ProblemEvaluate(x: Matrix, result: Evaluation)
    | Yield(x: Matrix, y: Matrix)

  /**
   * The values one pass of the loop body passes between its stages: the
   * archive it starts from, the active acquisition, the normalised archive,
   * the solver's candidates, the selected batch with the selection's info,
   * the evaluation result and the objectives kept from it.
   */
  datatype Iteration = Iteration(x: Matrix, y: Matrix, acquisition: Acquisition, nx: Matrix, ny: Matrix,
                                 solution: Matrix, xNext: Matrix, info: Matrix, result: Evaluation, yNext: Matrix)

  /**
   * The calls of one iteration in the order the loop body makes them: the
   * transformation is fitted and applied to the archive; the surrogate,
   * the acquisition, the solver and the selection all work on the
   * normalised pair; the selection picks from the solver's candidates; the
   * selected batch is evaluated, recorded into status and yielded.
   */
  function Events(it: Iteration): seq<Event>
  {
    [ TransformationFit(it.x, it.y),
      TransformationDo(it.x, it.y, it.nx, it.ny),
      SurrogateFit(it.nx, it.ny),
      AcquisitionFit(it.acquisition, it.nx, it.ny),
      SolverSolve(it.acquisition, it.nx, it.ny, it.solution),
      SelectionFit(it.nx, it.ny),
      SelectionSelect(it.solution, it.xNext, it.info),
      ProblemEvaluate(it.xNext, it.result),
      StatusUpdate(it.xNext, it.yNext),
      Yield(it.xNext, it.yNext) ]
  }

  /**
   * it is an iteration that starts from archive (x, y), runs with
   * acquisition a, and produces batch b: the selected points with the
   * objectives kept from their evaluation.
   */
  ghost predicate IsIteration(it: Iteration, x: Matrix, y: Matrix, a: Acquisition, nConstr: nat, b: Batch)
  {
    it.x == x && it.y == y && it.acquisition == a &&
    Conforms(it.result, nConstr) && it.yNext == KeptObjectives(it.result, nConstr) &&
    b == Batch(it.xNext, it.yNext)
  }

  /** The decision rows of x0 followed by those of every batch, in order. */
  function GrownX(x0: Matrix, bs: seq<Batch>): Matrix
  {
    if bs == [] then x0 else GrownX(x0, bs[..|bs| - 1]) + bs[|bs| - 1].x
  }

  /** The objective rows of y0 followed by those of every batch, in order. */
  function GrownY(y0: Matrix, bs: seq<Batch>): Matrix
  {
    if bs == [] then y0 else GrownY(y0, bs[..|bs| - 1]) + bs[|bs| - 1].y
  }

  /** The calls of a sequence of iterations, one iteration after the other. */
  function Flatten(its: seq<Iteration>): seq<Event>
  {
    if its == [] then [] else Flatten(its[..|its| - 1]) + Events(its[|its| - 1])
  }

  /**
   * The decision rows of the archive once the iterations its have produced
   * the batches bs from x0: x0 if none ran, else the archive the last
   * iteration started from, grown by its batch.
   */
  function ArchiveX(its: seq<Iteration>, x0: Matrix, bs: seq<Batch>): Matrix
    requires |its| == |bs|
  {
    if bs == [] then x0 else its[|its| - 1].x + bs[|bs| - 1].x
  }

  /** The objective half of `ArchiveX`. */
  function ArchiveY(its: seq<Iteration>, y0: Matrix, bs: seq<Batch>): Matrix
    requires |its| == |bs|
  {
    if bs == [] then y0 else its[|its| - 1].y + bs[|bs| - 1].y
  }

  /**
   * its are iterations 0 .. |bs|-1 of a run started from archive (x0, y0)
   * with phase boundary `boundary`: the iterations before the last form a
   * run, and the last one runs on the archive those left, with the
   * acquisition the schedule gives its index, and produces the last batch.
   * `RunAt` states what this means for every index.
   */
  ghost predicate Run(its: seq<Iteration>, x0: Matrix, y0: Matrix, bs: seq<Batch>, nConstr: nat, boundary: nat)
    decreases |bs|
  {
    |its| == |bs| &&
    (bs != [] ==>
       var n := |bs| - 1;
       Run(its[..n], x0, y0, bs[..n], nConstr, boundary) &&
       IsIteration(its[n], ArchiveX(its[..n], x0, bs[..n]), ArchiveY(its[..n], y0, bs[..n]), Acquire(n, boundary),
                   nConstr, bs[n]))
  }

  /**
   * The acquisition and the selection info a `solve` object holds after the
   * iterations its: those of the last of them, or acquisition0 and info0
   * when none has run.
   */
  ghost predicate LastPass(its: seq<Iteration>, acquisition: Option<Acquisition>, info: Option<Matrix>,
                           acquisition0: Option<Acquisition>, info0: Option<Matrix>)
  {
    if its == [] then acquisition == acquisition0 && info == info0
    else acquisition == Some(its[|its| - 1].acquisition) && info == Some(its[|its| - 1].info)
  }

  /** The number of iterations among its that use acquisition a. */
  function CountIn(its: seq<Iteration>, a: Acquisition): nat
  {
    if its == [] then 0 else CountIn(its[..|its| - 1], a) + (if its[|its| - 1].acquisition == a then 1 else 0)
  }

  /** The batch a status update records. */
  function Recorded(e: Event): seq<Batch>
  {
    if e.StatusUpdate? then [Batch(e.x, e.y)] else []
  }

  /** The batch a yield hands out. */
  function Emitted(e: Event): seq<Batch>
  {
    if e.Yield? then [Batch(e.x, e.y)] else []
  }

  /** The batches f picks out of a log, in log order. */
  function Collect(ev: seq<Event>, f: Event -> seq<Batch>): seq<Batch>
  {
    if ev == [] then [] else Collect(ev[..|ev| - 1], f) + f(ev[|ev| - 1])
  }

  lemma {:induction false} CollectAppend(a: seq<Event>, b: seq<Event>, f: Event -> seq<Batch>)
    ensures Collect(a + b, f) == Collect(a, f) + Collect(b, f)
    decreases |b|
  {
    if b != [] {
      var b' := b[..|b| - 1];
      assert (a + b)[..|a + b| - 1] == a + b';
      assert (a + b)[|a + b| - 1] == b[|b| - 1];
      CollectAppend(a, b', f);
    } else {
      assert a + b == a;
    }
  }

  /** A log with no status update and no yield records and emits nothing. */
  lemma {:induction false} CollectNone(ev: seq<Event>)
    requires forall k :: 0 <= k < |ev| ==> !ev[k].StatusUpdate? && !ev[k].Yield?
    ensures Collect(ev, Recorded) == [] && Collect(ev, Emitted) == []
    decreases |ev|
  {
    if ev != [] {
      CollectNone(ev[..|ev| - 1]);
    }
  }

  /** One iteration records its batch into status once and yields it once. */
  lemma IterationRecordsAndEmits(it: Iteration)
    ensures Collect(Events(it), Recorded) == [Batch(it.xNext, it.yNext)]
    ensures Collect(Events(it), Emitted) == [Batch(it.xNext, it.yNext)]
  {
    var ev := Events(it);
    var pre := ev[..8];
    assert ev == pre + [ev[8]] + [ev[9]];
    CollectAppend(pre + [ev[8]], [ev[9]], Recorded);
    CollectAppend(pre + [ev[8]], [ev[9]], Emitted);
    CollectAppend(pre, [ev[8]], Recorded);
    CollectAppend(pre, [ev[8]], Emitted);
    CollectNone(pre);
  }

  /** Appending one more iteration to a run gives the run one batch longer, and grows the archive by that batch. */
  lemma RunExtend(its: seq<Iteration>, x0: Matrix, y0: Matrix, bs: seq<Batch>, nConstr: nat, boundary: nat,
                  it: Iteration, b: Batch)
    requires Run(its, x0, y0, bs, nConstr, boundary)
    requires IsIteration(it, ArchiveX(its, x0, bs), ArchiveY(its, y0, bs), Acquire(|bs|, boundary), nConstr, b)
    ensures Run(its + [it], x0, y0, bs + [b], nConstr, boundary)
    ensures ArchiveX(its + [it], x0, bs + [b]) == ArchiveX(its, x0, bs) + b.x
    ensures ArchiveY(its + [it], y0, bs + [b]) == ArchiveY(its, y0, bs) + b.y
    ensures Flatten(its + [it]) == Flatten(its) + Events(it)
  {
    assert (its + [it])[..|its|] == its && (bs + [b])[..|bs|] == bs;
  }

  /** The archive after a run is the initial archive followed by every batch, in order. */
  lemma {:induction false} RunArchive(its: seq<Iteration>, x0: Matrix, y0: Matrix, bs: seq<Batch>, nConstr: nat,
                                      boundary: nat)
    requires Run(its, x0, y0, bs, nConstr, boundary)
    ensures ArchiveX(its, x0, bs) == GrownX(x0, bs)
    ensures ArchiveY(its, y0, bs) == GrownY(y0, bs)
    decreases |bs|
  {
    if bs != [] {
      var n := |bs| - 1;
      RunArchive(its[..n], x0, y0, bs[..n], nConstr, boundary);
      assert its[n].x == ArchiveX(its[..n], x0, bs[..n]) && its[n].y == ArchiveY(its[..n], y0, bs[..n]);
    }
  }

  /**
   * In a run, iteration k starts from the initial archive grown by batches
   * 0 .. k-1, uses the acquisition the schedule gives k, and produces batch k.
   */
  lemma {:induction false} RunAt(its: seq<Iteration>, x0: Matrix, y0: Matrix, bs: seq<Batch>, nConstr: nat,
                                 boundary: nat, k: nat)
    requires Run(its, x0, y0, bs, nConstr, boundary) && k < |bs|
    ensures IsIteration(its[k], GrownX(x0, bs[..k]), GrownY(y0, bs[..k]), Acquire(k, boundary), nConstr, bs[k])
    decreases |bs|
  {
    var n := |bs| - 1;
    if k < n {
      RunAt(its[..n], x0, y0, bs[..n], nConstr, boundary, k);
      assert its[..n][k] == its[k] && bs[..n][k] == bs[k] && bs[..n][..k] == bs[..k];
    } else {
      RunArchive(its[..n], x0, y0, bs[..n], nConstr, boundary);
    }
  }

  /** A run uses each acquisition on exactly as many iterations as the schedule assigns it. */
  lemma RunCounts(its: seq<Iteration>, x0: Matrix, y0: Matrix, bs: seq<Batch>, nConstr: nat, boundary: nat,
                  a: Acquisition)
    requires Run(its, x0, y0, bs, nConstr, boundary)
    ensures CountIn(its, a) == CountUsing(a, |its|, boundary)
  {
    forall k | 0 <= k < |its|
      ensures its[k].acquisition == Acquire(k, boundary)
    {
      RunAt(its, x0, y0, bs, nConstr, boundary, k);
    }
    CountScheduled(its, boundary, a);
  }

  /** Iterations whose acquisitions follow the schedule use each acquisition as often as the schedule does. */
  lemma {:induction false} CountScheduled(its: seq<Iteration>, boundary: nat, a: Acquisition)
    requires forall k :: 0 <= k < |its| ==> its[k].acquisition == Acquire(k, boundary)
    ensures CountIn(its, a) == CountUsing(a, |its|, boundary)
    decreases |its|
  {
    if its != [] {
      var n := |its| - 1;
      assert forall k :: 0 <= k < n ==> its[..n][k] == its[k];
      CountScheduled(its[..n], boundary, a);
    }
  }

  /** The calls of n iterations are ten per iteration. */
  lemma {:induction false} FlattenLength(its: seq<Iteration>)
    ensures |Flatten(its)| == 10 * |its|
    decreases |its|
  {
    if its != [] {
      FlattenLength(its[..|its| - 1]);
    }
  }

  /** The calls of iteration k sit at positions 10k .. 10k+9 of the flattened log. */
  lemma {:induction false} FlattenAt(its: seq<Iteration>, k: nat)
    requires k < |its|
    ensures 10 * k + 10 <= |Flatten(its)|
    ensures Flatten(its)[10 * k..10 * k + 10] == Events(its[k])
    decreases |its|
  {
    var n := |its| - 1;
    FlattenLength(its);
    FlattenLength(its[..n]);
    var front := Flatten(its[..n]);
    assert Flatten(its) == front + Events(its[n]);
    if k < n {
      FlattenAt(its[..n], k);
      assert its[..n][k] == its[k];
      assert (front + Events(its[n]))[10 * k..10 * k + 10] == front[10 * k..10 * k + 10];
    } else {
      assert (front + Events(its[n]))[|front|..] == Events(its[n]);
    }
  }

  /** Every batch of a run is recorded into status and yielded, once each and in order. */
  lemma {:induction false} RunRecordsAndEmits(its: seq<Iteration>, x0: Matrix, y0: Matrix, bs: seq<Batch>,
                                              nConstr: nat, boundary: nat)
    requires Run(its, x0, y0, bs, nConstr, boundary)
    ensures Collect(Flatten(its), Recorded) == bs
    ensures Collect(Flatten(its), Emitted) == bs
    decreases |bs|
  {
    if bs != [] {
      var n := |bs| - 1;
      RunRecordsAndEmits(its[..n], x0, y0, bs[..n], nConstr, boundary);
      CollectAppend(Flatten(its[..n]), Events(its[n]), Recorded);
      CollectAppend(Flatten(its[..n]), Events(its[n]), Emitted);
      IterationRecordsAndEmits(its[n]);
      SplitLast(bs);
    }
  }

  /**
   * A whole trace: two calls before the loop, the second of which records
   * (x, y), then a run. Besides those two it has nine calls and a yield per
   * batch; it records (x, y) and then every batch, and yields every batch,
   * in order.
   */
  lemma RunTrace(head: seq<Event>, its: seq<Iteration>, x0: Matrix, y0: Matrix, bs: seq<Batch>, nConstr: nat,
                 boundary: nat, x: Matrix, y: Matrix)
    requires Run(its, x0, y0, bs, nConstr, boundary)
    requires |head| == 2 && head[0].SelectionSetRefPoint? && head[1] == StatusUpdate(x, y)
    ensures |head + Flatten(its)| == 2 + 10 * |bs|
    ensures Collect(head + Flatten(its), Recorded) == [Batch(x, y)] + bs
    ensures Collect(head + Flatten(its), Emitted) == bs
  {
    FlattenLength(its);
    RunRecordsAndEmits(its, x0, y0, bs, nConstr, boundary);
    CollectAppend(head, Flatten(its), Recorded);
    CollectAppend(head, Flatten(its), Emitted);
    CollectPrelude(head, x, y);
  }

  /** The two calls before the loop record (x, y) and yield nothing. */
  lemma CollectPrelude(head: seq<Event>, x: Matrix, y: Matrix)
    requires |head| == 2 && head[0].SelectionSetRefPoint? && head[1] == StatusUpdate(x, y)
    ensures Collect(head, Recorded) == [Batch(x, y)]
    ensures Collect(head, Emitted) == []
  {
    var front := head[..1];
    assert front[..0] == [] && front[0] == head[0];
    assert Collect(front, Recorded) == [] && Collect(front, Emitted) == [];
  }

  /** A non-empty sequence is its front followed by its last element. */
  lemma SplitLast<T>(s: seq<T>)
    requires s != []
    ensures s == s[..|s| - 1] + [s[|s| - 1]]
  {
  }

  /** Concatenation is associative. */
  lemma AppendAssoc<T>(a: seq<T>, b: seq<T>, c: seq<T>)
    ensures (a + b) + c == a + (b + c)
  {
  }

  /** What `__str__` reports about the two phases. */
  datatype Description = Description(acquisition1: Acquisition, phase1: nat, acquisition2: Acquisition, phase2: int)

  /** The solve error: `np.max` over an empty `Y_init` when no reference point was given. */
  datatype SolveError = EmptyInitialObjectives

  class Rmobo {
    const nIter: nat
    /** `real_problem.n_constr`. */
    const nConstr: nat
    /** The phase-1 and phase-2 acquisition functions. */
    const acquisition1: Acquisition
    const acquisition2: Acquisition
    var phase1Ratio: PhaseRatio
    var refPoint: Option<Row>
    /** `self.acquisition`, the acquisition the current iteration uses. */
    var acquisition: Option<Acquisition>
    /** `self.info`, the selection's diagnostic payload of the last iteration. */
    var info: Option<Matrix>
    /** The archive `_update_status` appends to. */
    var X: Matrix
    var Y: Matrix

    /** State of the running `solve` generator: entered, next iteration, phase-1 length. */
    var started: bool
    var i: nat
    var phase1Iterations: nat
    /** The calls and yields of the running `solve`, in order. */
    ghost var trace: seq<Event>
    /** The iterations the running `solve` has completed. */
    ghost var iterations: seq<Iteration>

    /** What every operation keeps: the acquisition pair, and one objective row per decision row. */
    ghost predicate Ready()
      reads this
    {
      acquisition1 == Ei && acquisition2 == Pi && |X| == |Y|
    }

    /**
     * Ready, and the state of the running `solve`: before it is entered
     * nothing has happened; once entered, the reference point is set and
     * one iteration has completed per iteration counted, at most n_iter.
     */
    ghost predicate Valid()
      reads this
    {
      Ready() &&
      (!started ==> i == 0 && trace == [] && iterations == []) &&
      (started ==> refPoint.Some? && i <= nIter && |iterations| == i)
    }

    /** `RMOBO.__init__`: EI for phase 1, PI for phase 2, phase ratio 1.0, empty archive. */
    constructor (nIter: nat, refPoint: Option<Row>, nConstr: nat)
      ensures Valid() && !started
      ensures this.nIter == nIter && this.refPoint == refPoint && this.nConstr == nConstr
      ensures acquisition1 == Ei && acquisition2 == Pi && phase1Ratio == DefaultRatio
      ensures X == [] && Y == [] && acquisition.None? && info.None?
    {
      this.nIter, this.refPoint, this.nConstr := nIter, refPoint, nConstr;
      acquisition1, acquisition2 := Ei, Pi;
      phase1Ratio := DefaultRatio;
      acquisition, info := None, None;
      X, Y := [], [];
      started, i, phase1Iterations := false, 0, 0;
      trace, iterations := [], [];
    }

    /** `__str__`: the two acquisitions and how many iterations each runs for. */
    function Describe(): (d: Description)
      reads this
      ensures d.acquisition1 == acquisition1 && d.acquisition2 == acquisition2
      ensures d.phase1 + d.phase2 == nIter
      ensures d.phase1 == Phase1Iterations(nIter, phase1Ratio)
      ensures phase1Ratio.num <= phase1Ratio.den ==>
                d.phase1 == CountUsing(Ei, nIter, d.phase1) && d.phase2 == CountUsing(Pi, nIter, d.phase1)
    {
      PhaseCounts(nIter, phase1Ratio);
      var d := Description(acquisition1, Phase1Iterations(nIter, phase1Ratio),
                           acquisition2, Phase2Iterations(nIter, phase1Ratio));
      if phase1Ratio.num <= phase1Ratio.den then ReportedCountsMatchSchedule(nIter, phase1Ratio); d else d
    }

    // ----- collaborator calls -----

    /** `selection.set_ref_point(p)`. */
    method SetSelectionRefPoint(p: Row)
      modifies this`trace
      ensures trace == old(trace) + [SelectionSetRefPoint(p)]
    {
      trace := trace + [SelectionSetRefPoint(p)];
    }

    /** `_update_status(x, y)`: appends the pair to the archive (status metrics are not modelled). */
    method UpdateStatus(x: Matrix, y: Matrix)
      modifies this`X, this`Y, this`trace
      ensures X == old(X) + x && Y == old(Y) + y
      ensures trace == old(trace) + [StatusUpdate(x, y)]
    {
      X, Y := X + x, Y + y;
      trace := trace + [StatusUpdate(x, y)];
    }

    /** `transformation.fit(x, y)`. */
    method FitTransformation(x: Matrix, y: Matrix)
      modifies this`trace
      ensures trace == old(trace) + [TransformationFit(x, y)]
    {
      trace := trace + [TransformationFit(x, y)];
    }

    /** `transformation.do(x, y)`: the normalised pair. */
    method Normalize(x: Matrix, y: Matrix) returns (nx: Matrix, ny: Matrix)
      modifies this`trace
      ensures trace == old(trace) + [TransformationDo(x, y, nx, ny)]
    {
      nx, ny := *, *;
      trace := trace + [TransformationDo(x, y, nx, ny)];
    }

    /** `surrogate_model.fit(x, y)`. */
    method FitSurrogate(x: Matrix, y: Matrix)
      modifies this`trace
      ensures trace == old(trace) + [SurrogateFit(x, y)]
    {
      trace := trace + [SurrogateFit(x, y)];
    }

    /** `acquisition.fit(x, y)` on the acquisition a. */
    method FitAcquisition(a: Acquisition, x: Matrix, y: Matrix)
      modifies this`trace
      ensures trace == old(trace) + [AcquisitionFit(a, x, y)]
    {
      trace := trace + [AcquisitionFit(a, x, y)];
    }

    /** `solver.solve(SurrogateProblem(...), x, y)` for a surrogate problem scored with acquisition a. */
    method SolveSurrogateProblem(a: Acquisition, x: Matrix, y: Matrix) returns (solution: Matrix)
      modifies this`trace
      ensures trace == old(trace) + [SolverSolve(a, x, y, solution)]
    {
      solution := *;
      trace := trace + [SolverSolve(a, x, y, solution)];
    }

    /** `selection.fit(x, y)`. */
    method FitSelection(x: Matrix, y: Matrix)
      modifies this`trace
      ensures trace == old(trace) + [SelectionFit(x, y)]
    {
      trace := trace + [SelectionFit(x, y)];
    }

    /** `selection.select(solution, ...)`: the next batch and a diagnostic payload. */
    method SelectBatch(solution: Matrix) returns (xNext: Matrix, payload: Matrix)
      modifies this`trace
      ensures trace == old(trace) + [SelectionSelect(solution, xNext, payload)]
    {
      xNext, payload := *, *;
      trace := trace + [SelectionSelect(solution, xNext, payload)];
    }

    /** `real_problem.evaluate(x)`: shaped as the problem interface promises, one objective row per input row. */
    method EvaluateBatch(x: Matrix) returns (e: Evaluation)
      modifies this`trace
      ensures Conforms(e, nConstr) && |KeptObjectives(e, nConstr)| == |x|
      ensures trace == old(trace) + [ProblemEvaluate(x, e)]
    {
      var rows: Matrix := seq(|x|, _ => []);
      e := if nConstr > 0 then Constrained(rows, rows) else Unconstrained(rows);
      assert Conforms(e, nConstr) && |KeptObjectives(e, nConstr)| == |x|;
      e :| Conforms(e, nConstr) && |KeptObjectives(e, nConstr)| == |x|;
      trace := trace + [ProblemEvaluate(x, e)];
    }

    // ----- the loop -----

    /**
     * Entering `solve(X_init, Y_init)`, up to the loop: derive the reference
     * point when none was given, hand it to the selection, record the
     * initial data and fix the phase boundary.
     */
    method Start(xInit: Matrix, yInit: Matrix) returns (r: Result<(), SolveError>)
      requires Ready()
      requires |xInit| == |yInit| && Rectangular(yInit)
      modifies this`refPoint, this`X, this`Y, this`started, this`i, this`phase1Iterations, this`trace
      modifies this`iterations
      ensures r.Failure? <==> old(refPoint).None? && yInit == []
      ensures r.Failure? ==> unchanged(this)
      ensures r.Success? ==>
                Valid() && started && i == 0 && iterations == [] &&
                refPoint == Some(if old(refPoint).Some? then old(refPoint).value else ColumnMax(yInit)) &&
                trace == [SelectionSetRefPoint(refPoint.value), StatusUpdate(xInit, yInit)] &&
                X == old(X) + xInit && Y == old(Y) + yInit &&
                phase1Iterations == Phase1Iterations(nIter, phase1Ratio) &&
                acquisition == old(acquisition) && info == old(info)
    {
      if refPoint.None? {
        if yInit == [] {
          return Failure(EmptyInitialObjectives);
        }
        refPoint := Some(ColumnMax(yInit));
      }
      trace := [];
      SetSelectionRefPoint(refPoint.value);
      UpdateStatus(xInit, yInit);
      started, i, phase1Iterations, iterations := true, 0, Phase1Iterations(nIter, phase1Ratio), [];
      r := Success(());
    }

    /**
     * The stages of one loop pass with acquisition a, in source order:
     * normalise the archive, fit the surrogate, the acquisition and the
     * selection on the normalised pair, solve the surrogate problem, select
     * and evaluate a batch, record it into status and yield it.
     */
    method RunStages(a: Acquisition) returns (b: Batch, ghost it: Iteration)
      modifies this`trace, this`X, this`Y, this`info
      ensures IsIteration(it, old(X), old(Y), a, nConstr, b) && |b.y| == |b.x|
      ensures trace == old(trace) + Events(it)
      ensures X == old(X) + b.x && Y == old(Y) + b.y && info == Some(it.info)
    {
      var x, y := X, Y;
      FitTransformation(x, y);
      var nx, ny := Normalize(x, y);
      FitSurrogate(nx, ny);
      FitAcquisition(a, nx, ny);
      var solution := SolveSurrogateProblem(a, nx, ny);
      FitSelection(nx, ny);
      var xNext, payload := SelectBatch(solution);
      info := Some(payload);
      var e := EvaluateBatch(xNext);
      var yNext := KeptObjectives(e, nConstr);
      UpdateStatus(xNext, yNext);
      trace := trace + [Yield(xNext, yNext)];
      b := Batch(xNext, yNext);
      it := Iteration(x, y, a, nx, ny, solution, xNext, payload, e, yNext);
    }

    /**
     * One pass of the loop body: pick the acquisition the schedule gives
     * iteration i, run the stages on the current archive, and return the
     * new batch; once n_iter batches have been produced the generator is
     * exhausted and nothing changes.
     */
    method Step() returns (batch: Option<Batch>)
      requires Valid() && started
      modifies this`acquisition, this`info, this`X, this`Y, this`i, this`trace, this`iterations
      ensures Valid()
      ensures batch.None? <==> old(i) == nIter
      ensures batch.None? ==> unchanged(this)
      ensures batch.Some? ==>
                i == old(i) + 1 &&
                acquisition == Some(Acquire(old(i), phase1Iterations)) &&
                info == Some(iterations[old(i)].info) &&
                X == old(X) + batch.value.x && Y == old(Y) + batch.value.y &&
                iterations == old(iterations) + [iterations[old(i)]] &&
                trace == old(trace) + Events(iterations[old(i)]) &&
                IsIteration(iterations[old(i)], old(X), old(Y), Acquire(old(i), phase1Iterations), nConstr,
                            batch.value)
    {
      if i == nIter {
        return None;
      }
      var a := if i < phase1Iterations then acquisition1 else acquisition2;
      var b, it := RunStages(a);
      acquisition, iterations, i := Some(a), iterations + [it], i + 1;
      batch := Some(b);
    }

    /**
     * `solve(X_init, Y_init)` drained: n_iter batches; the trace is the two
     * calls before the loop and then the calls of each iteration, the
     * iterations form a run from the archive holding the initial data, the
     * archive ends with every batch, and status records the initial data and
     * then each batch it yields.
     */
    method Solve(xInit: Matrix, yInit: Matrix) returns (r: Result<seq<Batch>, SolveError>)
      requires Ready()
      requires |xInit| == |yInit| && Rectangular(yInit)
      modifies this`refPoint, this`X, this`Y, this`started, this`i, this`phase1Iterations, this`acquisition
      modifies this`info, this`trace, this`iterations
      ensures r.Failure? <==> old(refPoint).None? && yInit == []
      ensures r.Failure? ==> unchanged(this)
      ensures r.Success? ==>
                Valid() && |r.value| == nIter && i == nIter &&
                refPoint == Some(if old(refPoint).Some? then old(refPoint).value else ColumnMax(yInit)) &&
                phase1Iterations == Phase1Iterations(nIter, phase1Ratio) &&
                X == GrownX(old(X) + xInit, r.value) && Y == GrownY(old(Y) + yInit, r.value) &&
                trace == [SelectionSetRefPoint(refPoint.value), StatusUpdate(xInit, yInit)] + Flatten(iterations) &&
                |trace| == 2 + 10 * nIter &&
                Run(iterations, old(X) + xInit, old(Y) + yInit, r.value, nConstr, phase1Iterations) &&
                Collect(trace, Recorded) == [Batch(xInit, yInit)] + r.value &&
                Collect(trace, Emitted) == r.value &&
                LastPass(iterations, acquisition, info, old(acquisition), old(info))
    {
      var entered := Start(xInit, yInit);
      if entered.Failure? {
        return Failure(entered.error);
      }
      ghost var head, x0, y0 := trace, X, Y;
      var batches := Drain();
      RunTrace(head, iterations, x0, y0, batches, nConstr, phase1Iterations, xInit, yInit);
      r := Success(batches);
    }

    /**
     * The loop of `solve`, entered with no iteration done: n_iter passes,
     * which form a run from the archive as it was on entry, leave the archive
     * that run produces, and append the calls of each pass to the trace.
     */
    method Drain() returns (batches: seq<Batch>)
      requires Valid() && started && i == 0 && iterations == []
      modifies this`acquisition, this`info, this`X, this`Y, this`i, this`trace, this`iterations
      ensures Valid() && i == nIter && |batches| == nIter
      ensures Run(iterations, old(X), old(Y), batches, nConstr, phase1Iterations)
      ensures X == GrownX(old(X), batches) && Y == GrownY(old(Y), batches)
      ensures trace == old(trace) + Flatten(iterations)
      ensures LastPass(iterations, acquisition, info, old(acquisition), old(info))
    {
      batches := [];
      while i < nIter
        invariant Valid() && started && |batches| == i
        invariant Run(iterations, old(X), old(Y), batches, nConstr, phase1Iterations)
        invariant X == ArchiveX(iterations, old(X), batches) && Y == ArchiveY(iterations, old(Y), batches)
        invariant trace == old(trace) + Flatten(iterations)
        invariant LastPass(iterations, acquisition, info, old(acquisition), old(info))
        decreases nIter - i
      {
        ghost var its0 := iterations;
        var b := Step();
        RunExtend(its0, old(X), old(Y), batches, nConstr, phase1Iterations, iterations[|its0|], b.value);
        AppendAssoc(old(trace), Flatten(its0), Events(iterations[|its0|]));
        batches := batches + [b.value];
      }
      RunArchive(iterations, old(X), old(Y), batches, nConstr, phase1Iterations);
    }
  }
}

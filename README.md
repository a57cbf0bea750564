# RMOBO and the algorithm registry, in Dafny

This project models two parts of a multi-objective Bayesian optimisation
framework.

- **RMOBO's optimisation loop** (`mobo/rmobo.py`). `solve(X_init, Y_init)`:
  - derives the reference point from the initial objectives when none was
    configured;
  - hands the reference point to the selection and records the initial data;
  - then runs `n_iter` iterations. Each iteration picks the acquisition for
    its phase (EI for the first `int(n_iter * phase1_ratio)` iterations, PI
    afterwards) and grows the archive by one batch.
  - Within an iteration, the stages run in a fixed order: normalise the
    archive, fit the surrogate, fit the acquisition, solve the surrogate
    problem, fit the selection, select a batch, evaluate it on the real
    problem, record it into status, and yield it.
- **`get_algorithm`** (`mobo/algorithms.py`): the fixed table from
  names to the preset algorithm classes, each with its
  four-component `config`.

## Modules

| file | module | contents |
|---|---|---|
| `wrappers.dfy` | `Wrappers` | `Option`, `Result` |
| `mobo_config.dfy` | `MoboConfig` | the four-component `config` record |
| `matrices.dfy` | `Matrices` | rows and matrices; the column-wise maximum `np.max(Y, axis=0)` |
| `schedule.dfy` | `PhaseSchedule` | the phase ratio, the phase-1 length, the acquisition of each iteration, the phase counts |
| `rmobo.dfy` | `RmoboSolver` | the class `Rmobo`: its collaborators as logged oracle calls, and `Start`, `RunStages`, `Step`, `Drain` and `Solve` |
| `algorithms.dfy` | `Algorithms` | the presets, their configs, the registry and `GetAlgorithm` |

## How the model works

`solve` is a Python generator, so it is modelled as a small state machine.

- `Start` is the code before the loop. It runs when the first batch is
  requested.
- `Step` is one pass of the loop body. It returns `None` once `n_iter`
  batches have been produced.
- `Drain` is the loop.
- `Solve` is `Start` followed by `Drain`: the generator pulled to the end.

The collaborators are methods of the class. These are the transformation,
the surrogate model, the two acquisition functions, the solver, the
selection and the real problem.

- Each one appends an `Event` to the ghost `trace`.
- Each one returns a value the model leaves unconstrained. The one exception
  is the real problem's `evaluate`: it returns a pair exactly when the
  problem has constraints, and one objective row per input row.
- `Iteration` records the values one loop pass hands from stage to stage.
- `Events(it)` lists the pass's eight collaborator calls, its status update
  and its yield, in
  source order.
- `Run` states that a sequence of passes was produced by the loop. Pass `k`:
  - works on the archive grown by the batches before it;
  - uses the acquisition the schedule gives `k`;
  - yields the objectives it kept from the evaluation.

`phase1_ratio` is a float in the source. Here it is a ratio `num / den` of
naturals with `den > 0`, so `int(n_iter * phase1_ratio)` is the exact
floor `n_iter * num / den`.

Nothing in `__init__` or `solve` checks that `phase1_ratio` lies in
[0, 1]. The model accepts any non-negative ratio. The phase-2 count that
`Describe` reports is then negative exactly when `int(n_iter * phase1_ratio)`
exceeds `n_iter`: with `n_iter = 3` at ratio 1.5 the counts are 4 and -1,
while with `n_iter = 10` at 1.01 they are 10 and 0 (`RatioAboveOneCounts`).

`solve` can be called again on the same object. The second run keeps the
reference point and keeps appending to the archive. `Start` allows this
too; the ghost trace restarts with each run.

## Model

| member | source | states |
|---|---|---|
| Matrices.ColumnMax | mobo/rmobo.py:38 | The derived reference point has one entry per objective. Each entry bounds its column of `Y_init` and is attained in that column. |
| Matrices.ColumnMaxUnique | mobo/rmobo.py:38 | Only one row satisfies that characterisation, so the reference point is determined by `Y_init`. |
| PhaseSchedule.Phase1Iterations | mobo/rmobo.py:44 | `int(n_iter * phase1_ratio)` for an exact ratio; characterised by `Phase1IsFloor` as the floor. |
| PhaseSchedule.Phase2Iterations | mobo/rmobo.py:45 | `n_iter - n_phase1_iter`; `PhaseCounts` proves the two add up to `n_iter` and lie in [0, n_iter] for a ratio in [0, 1]. |
| PhaseSchedule.Acquire | mobo/rmobo.py:54-59 | The acquisition of iteration `i` for a given phase-1 length: EI before it, PI from it on; `NoReturnToPhase1` and `CountUsingSplit` state its shape. |
| PhaseSchedule.ActiveAcquisition | mobo/rmobo.py:54-59 | The acquisition `solve` makes active at iteration `i`; characterised by `ScheduleRule` in terms of `i`, `n_iter` and the ratio alone. |
| PhaseSchedule.Phase1IsFloor | mobo/rmobo.py:44 | The phase-1 length `n` satisfies `n*den <= n_iter*num < (n+1)*den`: it is the floor of `n_iter * phase1_ratio`. |
| PhaseSchedule.PhaseCounts | mobo/rmobo.py:44-45 | The phase-1 and phase-2 counts add up to `n_iter`. For a ratio in [0, 1], both lie in [0, n_iter]. |
| PhaseSchedule.ScheduleRule | mobo/rmobo.py:54-59 | Iteration `i` uses EI exactly when `(i+1)*den <= n_iter*num`. The choice depends only on `i`, `n_iter` and the ratio. |
| PhaseSchedule.DefaultRatioIsAllPhase1 | mobo/rmobo.py:30 | At the default ratio 1.0, every iteration uses EI and phase 2 is empty. |
| PhaseSchedule.NoReturnToPhase1 | mobo/rmobo.py:54-59 | Once an iteration uses PI, every later iteration does too. |
| PhaseSchedule.CountUsingSplit | mobo/rmobo.py:49-59 | Among the first `n` iterations, EI is used `min(n, boundary)` times and PI the rest. |
| PhaseSchedule.ReportedCountsMatchSchedule | mobo/rmobo.py:96-97 | For a ratio in [0, 1], the counts `__str__` reports are the numbers of iterations the schedule assigns to EI and to PI. |
| PhaseSchedule.ThreeIterationsAtRatio034 | mobo/rmobo.py:44-59 | With `n_iter = 3` and ratio 0.34, the boundary is 1: iteration 0 uses EI, iterations 1 and 2 use PI. |
| PhaseSchedule.RatioAboveOneCounts | mobo/rmobo.py:44-45 | An unchecked ratio above 1 gives counts 4 and -1 for three iterations at 1.5, and 10 and 0 for ten iterations at 1.01. |
| RmoboSolver.Config | mobo/rmobo.py:15-20 | RMOBO's class-level config, gp / ei / nsga2 / uncertainty; `Algorithms.R2IsRmobo` proves it complete and equal to USeMO-EI's. |
| RmoboSolver.KeptObjectives | mobo/rmobo.py:83-84 | With constraints, `Y_next` is the first component of the evaluation pair. Without constraints, it is the evaluation result itself. |
| RmoboSolver.IterationRecordsAndEmits | mobo/rmobo.py:85-93 | One pass records exactly one pair into status and yields exactly one pair, and the two are the same. |
| RmoboSolver.RunExtend | mobo/rmobo.py:49-93 | A run followed by one more pass on the archive it left, with the next acquisition, is a run one batch longer. The archive grows by that batch, and the trace by that pass's calls. |
| RmoboSolver.RunArchive | mobo/rmobo.py:85 | After a run, the archive is the starting archive followed by every batch, in order. |
| RmoboSolver.RunAt | mobo/rmobo.py:49-93 | Pass `k` of a run works on the starting archive grown by batches `0..k-1`, uses the acquisition the schedule gives `k`, and produces batch `k`. |
| RmoboSolver.RunCounts | mobo/rmobo.py:54-59 | In a run, the number of passes using each acquisition is the count the schedule gives it. |
| RmoboSolver.CountScheduled | mobo/rmobo.py:54-59 | Passes whose acquisitions follow the schedule use each acquisition as often as the schedule assigns it. |
| RmoboSolver.FlattenLength | mobo/rmobo.py:62-93 | Every pass contributes exactly ten events: eight collaborator calls, the status update and the yield. |
| RmoboSolver.FlattenAt | mobo/rmobo.py:62-93 | The calls of pass `k` occupy positions `10k..10k+9` of the per-pass log `Flatten(its)`, in stage order; in a `solve` trace, after the two calls before the loop, that is `2+10k..2+10k+9`. |
| RmoboSolver.RunRecordsAndEmits | mobo/rmobo.py:85-93 | Over a run, status records every batch and the generator yields every batch: each once, in the same order. |
| RmoboSolver.CollectPrelude | mobo/rmobo.py:39-41 | The two calls before the loop record the initial data and yield nothing. |
| RmoboSolver.RunTrace | mobo/rmobo.py:39-93 | A whole trace has two calls, then eight collaborator calls, a status update and a yield per batch. Status records the initial data and then each batch. The generator yields exactly the batches. |
| RmoboSolver.Rmobo.constructor | mobo/rmobo.py:22-30 | The acquisitions are EI for phase 1 and PI for phase 2. The phase ratio is 1.0. The given `n_iter`, reference point and constraint count are kept. |
| RmoboSolver.Rmobo.Describe | mobo/rmobo.py:95-105 | `__str__` names the two acquisitions. It reports phase-1 and phase-2 counts that add up to `n_iter` and equal what `solve` computes. For a ratio in [0, 1], they equal the number of iterations each acquisition runs. |
| RmoboSolver.Rmobo.SetSelectionRefPoint | mobo/rmobo.py:39 | A call `selection.set_ref_point(p)` is logged with its argument. |
| RmoboSolver.Rmobo.UpdateStatus | mobo/rmobo.py:41 | `_update_status(x, y)` appends `x` and `y` to the archive and logs the pair. |
| RmoboSolver.Rmobo.FitTransformation | mobo/rmobo.py:62 | A call `transformation.fit` on the raw archive is logged. |
| RmoboSolver.Rmobo.Normalize | mobo/rmobo.py:63 | A call `transformation.do` is logged with its inputs and the normalised pair it returns. |
| RmoboSolver.Rmobo.FitSurrogate | mobo/rmobo.py:66 | A call `surrogate_model.fit` is logged with its inputs. |
| RmoboSolver.Rmobo.FitAcquisition | mobo/rmobo.py:70 | A call `acquisition.fit` is logged with the acquisition it was made on and its inputs. |
| RmoboSolver.Rmobo.SolveSurrogateProblem | mobo/rmobo.py:73-74 | A call `solver.solve` on the surrogate problem is logged. The log names the acquisition scoring that problem, the inputs, and the solution returned. |
| RmoboSolver.Rmobo.FitSelection | mobo/rmobo.py:78 | A call `selection.fit` is logged with its inputs. |
| RmoboSolver.Rmobo.SelectBatch | mobo/rmobo.py:79 | A call `selection.select` is logged with the solution it chose from, the batch and the info payload. |
| RmoboSolver.Rmobo.EvaluateBatch | mobo/rmobo.py:83 | `real_problem.evaluate` returns a pair exactly when the problem has constraints, and one objective row per input row. The call is logged. |
| RmoboSolver.Rmobo.Start | mobo/rmobo.py:36-45 | The reference point is `np.max(Y_init, axis=0)` only when none was configured; otherwise it is kept. The call fails exactly when it must be derived from an empty `Y_init`, and then changes nothing. On success, the trace is `set_ref_point(ref)` then the status update of the initial data. The archive gains the initial data, the phase boundary is `int(n_iter * ratio)`, and `acquisition` and `info` are untouched. |
| RmoboSolver.Rmobo.RunStages | mobo/rmobo.py:61-93 | One pass makes exactly the eight collaborator calls, the status update and the yield of `Events`, in order. It works on the current archive with the given acquisition. It yields the selected batch with the objectives kept from its evaluation, and the archive grows by that batch. `info` becomes the selection's payload. |
| RmoboSolver.Rmobo.Step | mobo/rmobo.py:49-93 | When `i == n_iter`, nothing changes and no batch is returned. Otherwise it sets the acquisition the schedule gives `i` and runs one pass on the current archive. It returns that pass's batch and advances `i`; `acquisition` is that pass's acquisition and `info` its selection payload. It does not modify the reference point or the phase boundary. |
| RmoboSolver.Rmobo.Drain | mobo/rmobo.py:49-93 | The loop makes exactly `n_iter` passes. They form a run from the archive on entry, the archive ends with every batch in order, and the trace grows by each pass's events. `acquisition` and `info` end as the last pass set them, or unchanged when `n_iter = 0` (`LastPass`). |
| RmoboSolver.Rmobo.Solve | mobo/rmobo.py:32-93 | `solve` fails exactly when the reference point must be derived from an empty `Y_init`. Otherwise it yields exactly `n_iter` batches, so `n_iter = 0` yields none and makes no stage call. The reference point is set once before the loop and kept. The trace is the two calls before the loop, then eight collaborator calls, a status update and a yield per batch. Status records the initial data and then each yielded batch. The archive ends with every batch, in order. `acquisition` and `info` end as the last pass set them, or unchanged when `n_iter = 0` (`LastPass`). |
| Algorithms.ConfigOf | mobo/algorithms.py:8-88 | `Custom` is the only preset with no config. Every other preset names a surrogate, an acquisition, a solver and a selection. |
| Algorithms.Registry | mobo/algorithms.py:95-104 | The dictionary `get_algorithm` looks names up in; `RegistryIsKeyOf` proves its key set and that `KeyOf` inverts it. |
| Algorithms.GetAlgorithm | mobo/algorithms.py:91-105 | A name resolves only to the algorithm registered under exactly that name. Any other name fails with a key error carrying the name. |
| Algorithms.RegistryIsKeyOf | mobo/algorithms.py:95-104 | The registry's keys are exactly the eight names, and `KeyOf` maps each algorithm back to its key. |
| Algorithms.GetAlgorithmFindsEvery | mobo/algorithms.py:95-105 | Every algorithm is found under its name. |
| Algorithms.GetAlgorithmInjective | mobo/algorithms.py:95-104 | Two names that resolve to the same algorithm are the same name. |
| Algorithms.CaseVariantsFail | mobo/algorithms.py:105 | `r2`, `r1`, `DGEMO`, `usemo_ei` and `unknown-xyz` all fail with a key error naming them. |
| Algorithms.R2IsRmobo | mobo/algorithms.py:103 | `R2` is RMOBO. Its config is gp / ei / nsga2 / uncertainty, the same as USeMO-EI's, and its acquisition is the one RMOBO's phase 1 uses. |
| Algorithms.R1IsRmobo1 | mobo/algorithms.py:79-88 | `R1` is RMOBO1 with gp / pi / nsga2 / uncertainty. Its acquisition is the one RMOBO's phase 2 uses. |
| Algorithms.SharedConfigs | mobo/algorithms.py:32-41 | RMOBO and USeMO-EI are the only two distinct presets with the same config. |

## Left out

- The numerics of every collaborator (Gaussian processes, EI/PI scores, NSGA-II, the selection heuristics) are outside this core. Their results are unconstrained values in the model.
- The status metrics (Pareto front, hypervolume, IGD) are left out. They are computed in the base class, which is not part of this model. `UpdateStatus` models only the archive append.
- The base-class constructor (`mobo/mobo.py`) is not part of this model. The model starts `acquisition` and `info` as `None`, although the base class may already hold an acquisition object built from the config's `'ei'` (`mobo/rmobo.py:17`); `solve` overwrites `acquisition` at `mobo/rmobo.py:56`/`59` before any use. The archive starts empty, and the transformation, surrogate, solver and selection objects are implicit.
- The `framework_args` updates and the factory calls (`mobo/rmobo.py:24-29`) are not modelled. The two acquisition objects appear only as `Ei` and `Pi`.
- Timers and printing (`mobo/rmobo.py:47-52, 67, 75, 80, 86-90`) have no effect on the model.
- Decision and objective values are NumPy floats, modelled as `real`. NaN and infinities are lost, and with them NaN propagation through `np.max(Y_init, axis=0)`.
- `n_iter` is a natural. A negative budget is not modelled: the source accepts it, `range(n_iter)` runs zero iterations, and `__str__` reports counts truncated toward zero (for example -1 and -2 for `n_iter = -3` at ratio 0.5).
- Float arithmetic of `n_iter * phase1_ratio` is not modelled. Rounding, and negative ratios, are outside the model: the ratio is an exact non-negative rational.
- The generator's suspension is modelled as separate `Start`/`Step` calls. Two generators from two `solve` calls, interleaved on the same object, are not modelled.
- The extra arguments `selection.select` receives (surrogate model, status, transformation) are not logged. The surrogate problem built at `mobo/rmobo.py:73` is logged only through the acquisition it scores with.
- `Start` and `Solve` require `len(X_init) == len(Y_init)` and a rectangular `Y_init`. A 2-D NumPy array is rectangular, so the second holds in the source by construction. The first is a caller precondition the source assumes and never checks.
- `Describe`: it reports acquisitions rather than the class names of all components that `__str__` prints.
- Errors the collaborators may raise (a failing fit, solve or evaluation) are not modelled. Each stage call always returns.

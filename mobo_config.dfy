/**
 * The class-level `config` every algorithm class of the framework carries:
 * one component name for each of the four pluggable stages.
 */
module MoboConfig {

  datatype Config = Config(surrogate: string, acquisition: string, solver: string, selection: string)

  /** Every one of the four stages is named. */
  predicate Complete(c: Config)
  {
    c.surrogate != [] && c.acquisition != [] && c.solver != [] && c.selection != []
  }
}

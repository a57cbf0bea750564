/**
 * The preset algorithms of the framework and `get_algorithm`, which maps a
 * name to the algorithm class. Each class is represented by
 * its `config`: the component name for each of the four stages, or none
 * for the preset that takes every component from user arguments.
 */
module Algorithms {
  import opened Wrappers
  import opened MoboConfig
  import RmoboSolver
  import PhaseSchedule

  /** The algorithm classes `get_algorithm` can return. */
  datatype Algorithm = Dgemo | Tsemo | UsemoEi | MoeadEgo | ParEgo | Custom | Rmobo1 | Rmobo

  /** What looking up an unknown name raises: a key error carrying the name. */
  datatype LookupError = KeyError(key: string)

  /** The class-level `config` of each preset; `Custom` has none. */
  function ConfigOf(a: Algorithm): (c: Option<Config>)
    ensures c.None? <==> a == Custom
    ensures c.Some? ==> Complete(c.value)
  {
    match a
    case Dgemo => Some(Config("gp", "identity", "discovery", "dgemo"))
    case Tsemo => Some(Config("ts", "identity", "nsga2", "hvi"))
    case UsemoEi => Some(Config("gp", "ei", "nsga2", "uncertainty"))
    case MoeadEgo => Some(Config("gp", "ei", "moead", "moead"))
    case ParEgo => Some(Config("gp", "ei", "parego", "random"))
    case Custom => None
    case Rmobo1 => Some(Config("gp", "pi", "nsga2", "uncertainty"))
    case Rmobo => Some(RmoboSolver.Config)
  }

  /** The table `get_algorithm` looks names up in. */
  const Registry: map<string, Algorithm> :=
    map[ "dgemo" := Dgemo, "tsemo" := Tsemo, "usemo-ei" := UsemoEi, "moead-ego" := MoeadEgo,
         "parego" := ParEgo, "custom" := Custom, "R1" := Rmobo1, "R2" := Rmobo ]

  /** The name each algorithm is registered under. */
  function KeyOf(a: Algorithm): string
  {
    match a
    case Dgemo => "dgemo"
    case Tsemo => "tsemo"
    case UsemoEi => "usemo-ei"
    case MoeadEgo => "moead-ego"
    case ParEgo => "parego"
    case Custom => "custom"
    case Rmobo1 => "R1"
    case Rmobo => "R2"
  }

  /**
   * `get_algorithm(name)`: the algorithm registered under exactly this name,
   * or a key error naming it when no algorithm is.
   */
  function GetAlgorithm(name: string): (r: Result<Algorithm, LookupError>)
    ensures r.Success? ==> KeyOf(r.value) == name
    ensures r.Failure? ==> r.error == KeyError(name) && forall a: Algorithm :: KeyOf(a) != name
  {
    if name in Registry then Success(Registry[name]) else Failure(KeyError(name))
  }

  /** The registry holds exactly the eight names, each for the algorithm registered under it. */
  lemma RegistryIsKeyOf()
    ensures Registry.Keys == {"dgemo", "tsemo", "usemo-ei", "moead-ego", "parego", "custom", "R1", "R2"}
    ensures forall a: Algorithm :: KeyOf(a) in Registry && Registry[KeyOf(a)] == a
    ensures forall k :: k in Registry ==> KeyOf(Registry[k]) == k
  {
  }

  /** Every algorithm is found under its name. */
  lemma GetAlgorithmFindsEvery(a: Algorithm)
    ensures GetAlgorithm(KeyOf(a)) == Success(a)
  {
    RegistryIsKeyOf();
  }

  /** Distinct names never resolve to the same algorithm. */
  lemma GetAlgorithmInjective(n1: string, n2: string)
    requires GetAlgorithm(n1).Success? && GetAlgorithm(n2).Success?
    requires GetAlgorithm(n1).value == GetAlgorithm(n2).value
    ensures n1 == n2
  {
  }

  /** Lookup is exact: case variants, other spellings and unknown names raise a key error. */
  lemma CaseVariantsFail()
    ensures GetAlgorithm("r2") == Failure(KeyError("r2"))
    ensures GetAlgorithm("r1") == Failure(KeyError("r1"))
    ensures GetAlgorithm("DGEMO") == Failure(KeyError("DGEMO"))
    ensures GetAlgorithm("usemo_ei") == Failure(KeyError("usemo_ei"))
    ensures GetAlgorithm("unknown-xyz") == Failure(KeyError("unknown-xyz"))
  {
  }

  /** 'R2' is RMOBO, configured exactly as USeMO-EI: gp / ei / nsga2 / uncertainty. */
  lemma R2IsRmobo()
    ensures GetAlgorithm("R2") == Success(Rmobo)
    ensures ConfigOf(Rmobo) == ConfigOf(UsemoEi) == Some(Config("gp", "ei", "nsga2", "uncertainty"))
    ensures ConfigOf(Rmobo).value.acquisition == PhaseSchedule.Acquisition.Ei.Name()
  {
  }

  /** 'R1' is RMOBO1: gp / pi / nsga2 / uncertainty, the acquisition RMOBO switches to in phase 2. */
  lemma R1IsRmobo1()
    ensures GetAlgorithm("R1") == Success(Rmobo1)
    ensures ConfigOf(Rmobo1) == Some(Config("gp", "pi", "nsga2", "uncertainty"))
    ensures ConfigOf(Rmobo1).value.acquisition == PhaseSchedule.Acquisition.Pi.Name()
  {
  }

  /** RMOBO and USeMO-EI are the only two presets that share a config. */
  lemma SharedConfigs(a: Algorithm, b: Algorithm)
    requires a != b && ConfigOf(a) == ConfigOf(b)
    ensures {a, b} == {Rmobo, UsemoEi}
  {
  }
}

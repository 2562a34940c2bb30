/**
 The state of the swarmalator engine (`Swarmalator` in
 wasm-swarmalators/src/lib.rs), its validating constructor and its setters.

 The engine keeps one flat array of `f64` per quantity: two entries per agent
 (x then y) for positions and velocities, one entry per agent for phases,
 phase increments and natural frequencies. The constructor and the setters
 either panic or return the new state; a panic is a `Panicked` result.
 */
module Engine {

  datatype Option<T> = None | Some(value: T)

  /** The reasons the engine stops with a panic. */
  datatype Panic =
    | PositionsLength           // `new`: positions is not 2 * agents long
    | PhasesLength              // `new` / `set_phases`: phases is not agents long
    | NaturalFrequenciesLength  // `new` / `set_natural_frequencies`
    | TargetLength              // `set_target`: the target is not a 2-D point
    | ChiralLength              // raised only by the hardened operations of `Sessions`
    | IndexOutOfBounds          // `update` indexes `chiral` or `target` past its end

  datatype Result<T> = Ok(value: T) | Panicked(panic: Panic)

  datatype Swarmalator = Swarmalator(
    agents: nat,
    A: real,
    B: real,
    K: real,
    J: real,
    target: Option<seq<real>>,
    naturalFrequencies: seq<real>,
    chiral: Option<seq<real>>,
    velocities: seq<real>,
    phases: seq<real>,
    deltaPhases: seq<real>,
    positions: seq<real>)

  /** The shape every engine state keeps: the per-agent arrays fit `agents`. */
  predicate Valid(s: Swarmalator)
  {
    && |s.positions| == 2 * s.agents
    && |s.velocities| == 2 * s.agents
    && |s.phases| == s.agents
    && |s.deltaPhases| == s.agents
    && |s.naturalFrequencies| == s.agents
  }

  /** The fields of the engine, for stating which of them an operation touches. */
  datatype Field =
    | Agents | CoefA | CoefB | CoefK | CoefJ | Target | NaturalFrequencies
    | Chiral | Velocities | Phases | DeltaPhases | Positions

  /** Every field outside `changed` holds the same value in `s` and `t`. */
  predicate OnlyChanges(s: Swarmalator, t: Swarmalator, changed: set<Field>)
  {
    && (Agents !in changed ==> s.agents == t.agents)
    && (CoefA !in changed ==> s.A == t.A)
    && (CoefB !in changed ==> s.B == t.B)
    && (CoefK !in changed ==> s.K == t.K)
    && (CoefJ !in changed ==> s.J == t.J)
    && (Target !in changed ==> s.target == t.target)
    && (NaturalFrequencies !in changed ==> s.naturalFrequencies == t.naturalFrequencies)
    && (Chiral !in changed ==> s.chiral == t.chiral)
    && (Velocities !in changed ==> s.velocities == t.velocities)
    && (Phases !in changed ==> s.phases == t.phases)
    && (DeltaPhases !in changed ==> s.deltaPhases == t.deltaPhases)
    && (Positions !in changed ==> s.positions == t.positions)
  }

  /** `vec![0.0; n]`. */
  function Zeros(n: nat): (z: seq<real>)
    ensures |z| == n
    ensures forall k :: 0 <= k < n ==> z[k] == 0.0
  {
    seq(n, _ => 0.0)
  }

  /**
   `Swarmalator::new`: checks the positions, then the phases, then the
   natural frequencies against `agents`, panicking at the first mismatch;
   otherwise starts every agent at rest with `A = B = 1`. The chirality
   values and the target are stored without any check.
   */
  function New(
    agents: nat,
    positions: seq<real>,
    phases: seq<real>,
    naturalFrequencies: seq<real>,
    K: real,
    J: real,
    chiral: Option<seq<real>>,
    target: Option<seq<real>>): (r: Result<Swarmalator>)
    ensures r.Ok? <==>
      |positions| == 2 * agents && |phases| == agents && |naturalFrequencies| == agents
    ensures r == Panicked(PositionsLength) <==> |positions| != 2 * agents
    ensures r == Panicked(PhasesLength) <==>
      |positions| == 2 * agents && |phases| != agents
    ensures r == Panicked(NaturalFrequenciesLength) <==>
      |positions| == 2 * agents && |phases| == agents && |naturalFrequencies| != agents
    ensures r.Ok? ==> Valid(r.value)
    ensures r.Ok? ==>
      var s := r.value;
      && s.agents == agents && s.K == K && s.J == J
      && s.chiral == chiral && s.target == target
      && s.positions == positions && s.phases == phases
      && s.naturalFrequencies == naturalFrequencies
    ensures r.Ok? ==> r.value.A == 1.0 && r.value.B == 1.0
    ensures r.Ok? ==> forall k :: 0 <= k < |r.value.velocities| ==> r.value.velocities[k] == 0.0
    ensures r.Ok? ==> forall k :: 0 <= k < |r.value.deltaPhases| ==> r.value.deltaPhases[k] == 0.0
  {
    if |positions| != agents * 2 then Panicked(PositionsLength)
    else if |phases| != agents then Panicked(PhasesLength)
    else if |naturalFrequencies| != agents then Panicked(NaturalFrequenciesLength)
    else
      Ok(Swarmalator(
        agents, 1.0, 1.0, K, J, target, naturalFrequencies, chiral,
        Zeros(agents * 2), phases, Zeros(agents), positions))
  }

  /** `set_target`: accepts only a 2-D point, and then replaces the target. */
  function SetTarget(s: Swarmalator, target: seq<real>): (r: Result<Swarmalator>)
    ensures r.Ok? <==> |target| == 2
    ensures r.Panicked? ==> r.panic == TargetLength
    ensures r.Ok? ==> r.value.target == Some(target) && OnlyChanges(s, r.value, {Target})
    ensures r.Ok? ==> (Valid(r.value) <==> Valid(s))
  {
    if |target| != 2 then Panicked(TargetLength)
    else Ok(s.(target := Some(target)))
  }

  /** `set_K`: never fails. */
  function SetK(s: Swarmalator, K: real): (r: Swarmalator)
    ensures r.K == K && OnlyChanges(s, r, {CoefK})
    ensures Valid(r) <==> Valid(s)
  {
    s.(K := K)
  }

  /** `set_J`: never fails. */
  function SetJ(s: Swarmalator, J: real): (r: Swarmalator)
    ensures r.J == J && OnlyChanges(s, r, {CoefJ})
    ensures Valid(r) <==> Valid(s)
  {
    s.(J := J)
  }

  /** `set_chiral`: never fails, whatever the length of the new values. */
  function SetChiral(s: Swarmalator, chiral: Option<seq<real>>): (r: Swarmalator)
    ensures r.chiral == chiral && OnlyChanges(s, r, {Chiral})
    ensures Valid(r) <==> Valid(s)
  {
    s.(chiral := chiral)
  }

  /** `set_natural_frequencies`: accepts exactly one frequency per agent. */
  function SetNaturalFrequencies(s: Swarmalator, naturalFrequencies: seq<real>): (r: Result<Swarmalator>)
    ensures r.Ok? <==> |naturalFrequencies| == s.agents
    ensures r.Panicked? ==> r.panic == NaturalFrequenciesLength
    ensures r.Ok? ==>
      r.value.naturalFrequencies == naturalFrequencies
      && OnlyChanges(s, r.value, {NaturalFrequencies})
    ensures r.Ok? && Valid(s) ==> Valid(r.value)
  {
    if |naturalFrequencies| != s.agents then Panicked(NaturalFrequenciesLength)
    else Ok(s.(naturalFrequencies := naturalFrequencies))
  }

  /** `set_phases`: accepts exactly one phase per agent. */
  function SetPhases(s: Swarmalator, phases: seq<real>): (r: Result<Swarmalator>)
    ensures r.Ok? <==> |phases| == s.agents
    ensures r.Panicked? ==> r.panic == PhasesLength
    ensures r.Ok? ==> r.value.phases == phases && OnlyChanges(s, r.value, {Phases})
    ensures r.Ok? && Valid(s) ==> Valid(r.value)
  {
    if |phases| != s.agents then Panicked(PhasesLength)
    else Ok(s.(phases := phases))
  }
}

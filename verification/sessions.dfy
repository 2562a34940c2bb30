/**
 Sequences of calls a host makes on one engine, and the gap they expose.

 `update` reads `chiral[i]` for every agent and `target[0]`, `target[1]`,
 yet neither `new` nor `set_chiral` checks those lengths (only `set_target`
 does). A session of unchecked calls can therefore reach a state on which
 `update` panics. The hardened `NewChecked` and `SetChiralChecked` add the
 missing checks; with them, no session ever reaches that panic.
 */
module Sessions {
  import opened Engine
  import opened FloatModel
  import opened Dynamics

  /** One call a host makes on a live engine. */
  datatype Command =
    | SetTargetTo(target: seq<real>)
    | SetKTo(K: real)
    | SetJTo(J: real)
    | SetChiralTo(chiral: Option<seq<real>>)
    | SetNaturalFrequenciesTo(naturalFrequencies: seq<real>)
    | SetPhasesTo(phases: seq<real>)
    | UpdateBy(dt: real)

  /**
   One call, as the engine performs it. Only `update` can run out of bounds;
   no call changes the number of agents or the coefficients `A` and `B`.
   */
  function Apply(s: Swarmalator, c: Command, num: Numerics): (r: Result<Swarmalator>)
    requires Valid(s)
    ensures r.Ok? ==> Valid(r.value)
    ensures r.Ok? ==> r.value.agents == s.agents && r.value.A == s.A && r.value.B == s.B
    ensures r == Panicked(IndexOutOfBounds) <==> c.UpdateBy? && !InBounds(s)
  {
    match c
    case SetTargetTo(t) => SetTarget(s, t)
    case SetKTo(k) => Ok(SetK(s, k))
    case SetJTo(j) => Ok(SetJ(s, j))
    case SetChiralTo(ch) => Ok(SetChiral(s, ch))
    case SetNaturalFrequenciesTo(nf) => SetNaturalFrequencies(s, nf)
    case SetPhasesTo(p) => SetPhases(s, p)
    case UpdateBy(dt) => Advance(s, dt, num)
  }

  /**
   A whole session, stopping at the first panic. Every state it reaches
   keeps the engine's shape, its agent count and its `A` and `B`.
   */
  function Run(s: Swarmalator, cmds: seq<Command>, num: Numerics): (r: Result<Swarmalator>)
    requires Valid(s)
    ensures r.Ok? ==> Valid(r.value)
    ensures r.Ok? ==> r.value.agents == s.agents && r.value.A == s.A && r.value.B == s.B
    decreases |cmds|
  {
    if |cmds| == 0 then Ok(s)
    else
      match Apply(s, cmds[0], num)
      case Panicked(p) => Panicked(p)
      case Ok(t) => Run(t, cmds[1..], num)
  }

  /**
   As written, `new` stores a target of any length: with one agent or more
   and a target shorter than two, it succeeds, and the first `update` reads
   the target out of bounds.
   */
  lemma NewAcceptsShortTarget(
    agents: nat, positions: seq<real>, phases: seq<real>, naturalFrequencies: seq<real>,
    K: real, J: real, target: seq<real>, dt: real, num: Numerics)
    requires agents > 0 && |target| < 2
    requires |positions| == 2 * agents && |phases| == agents && |naturalFrequencies| == agents
    ensures New(agents, positions, phases, naturalFrequencies, K, J, None, Some(target)).Ok?
    ensures
      var s := New(agents, positions, phases, naturalFrequencies, K, J, None, Some(target)).value;
      Run(s, [UpdateBy(dt)], num) == Panicked(IndexOutOfBounds)
  {
  }

  /**
   As written, `new` stores chirality values of any length: with fewer
   values than agents it succeeds, and the first `update` reads past them.
   */
  lemma NewAcceptsShortChiral(
    agents: nat, positions: seq<real>, phases: seq<real>, naturalFrequencies: seq<real>,
    K: real, J: real, chiral: seq<real>, dt: real, num: Numerics)
    requires |chiral| < agents
    requires |positions| == 2 * agents && |phases| == agents && |naturalFrequencies| == agents
    ensures New(agents, positions, phases, naturalFrequencies, K, J, Some(chiral), None).Ok?
    ensures
      var s := New(agents, positions, phases, naturalFrequencies, K, J, Some(chiral), None).value;
      Run(s, [UpdateBy(dt)], num) == Panicked(IndexOutOfBounds)
  {
  }

  /**
   As written, `set_chiral` accepts values of any length: on any engine with
   more agents than the new values, setting them and then stepping panics,
   however well-formed the engine was before.
   */
  lemma SetChiralAcceptsShortChiral(s: Swarmalator, chiral: seq<real>, dt: real, num: Numerics)
    requires Valid(s) && |chiral| < s.agents
    ensures Run(s, [SetChiralTo(Some(chiral)), UpdateBy(dt)], num) == Panicked(IndexOutOfBounds)
  {
  }

  /** A well-formed engine on which `update` stays in bounds. */
  predicate Ready(s: Swarmalator)
  {
    Valid(s) && InBounds(s)
  }

  /**
   `new` with the checks it lacks: chirality values, when given, are one per
   agent, and a target, when given, is a 2-D point (the length `set_target`
   demands). Otherwise it behaves as `new`, and what it builds is `Ready`.
   Its `ChiralLength` panic is the one this correction adds: the engine as
   written never raises it.
   */
  function NewChecked(
    agents: nat, positions: seq<real>, phases: seq<real>, naturalFrequencies: seq<real>,
    K: real, J: real, chiral: Option<seq<real>>, target: Option<seq<real>>): (r: Result<Swarmalator>)
    ensures r.Ok? <==>
      && New(agents, positions, phases, naturalFrequencies, K, J, chiral, target).Ok?
      && (chiral.Some? ==> |chiral.value| == agents)
      && (target.Some? ==> |target.value| == 2)
    ensures r.Ok? ==> r == New(agents, positions, phases, naturalFrequencies, K, J, chiral, target)
    ensures r.Ok? ==> Ready(r.value)
    ensures New(agents, positions, phases, naturalFrequencies, K, J, chiral, target).Panicked? ==>
      r == New(agents, positions, phases, naturalFrequencies, K, J, chiral, target)
  {
    var r := New(agents, positions, phases, naturalFrequencies, K, J, chiral, target);
    if r.Panicked? then r
    else if chiral.Some? && |chiral.value| != agents then Panicked(ChiralLength)
    else if target.Some? && |target.value| != 2 then Panicked(TargetLength)
    else r
  }

  /**
   `set_chiral` with the missing check: one value per agent, or none at all.
   Like `NewChecked`, it raises the `ChiralLength` panic the source lacks.
   */
  function SetChiralChecked(s: Swarmalator, chiral: Option<seq<real>>): (r: Result<Swarmalator>)
    ensures r.Ok? <==> chiral.None? || |chiral.value| == s.agents
    ensures r.Panicked? ==> r.panic == ChiralLength
    ensures r.Ok? ==> r.value == SetChiral(s, chiral)
    ensures r.Ok? && Ready(s) ==> Ready(r.value)
  {
    if chiral.Some? && |chiral.value| != s.agents then Panicked(ChiralLength)
    else Ok(SetChiral(s, chiral))
  }

  /** One call, with `set_chiral` hardened. On a `Ready` engine it never runs out of bounds. */
  function ApplyChecked(s: Swarmalator, c: Command, num: Numerics): (r: Result<Swarmalator>)
    requires Ready(s)
    ensures r.Ok? ==> Ready(r.value)
    ensures r != Panicked(IndexOutOfBounds)
  {
    match c
    case SetChiralTo(ch) => SetChiralChecked(s, ch)
    case _ => Apply(s, c, num)
  }

  /** A whole session of hardened calls: it stays `Ready` and never runs out of bounds. */
  function RunChecked(s: Swarmalator, cmds: seq<Command>, num: Numerics): (r: Result<Swarmalator>)
    requires Ready(s)
    ensures r.Ok? ==> Ready(r.value)
    ensures r != Panicked(IndexOutOfBounds)
    decreases |cmds|
  {
    if |cmds| == 0 then Ok(s)
    else
      match ApplyChecked(s, cmds[0], num)
      case Panicked(p) => Panicked(p)
      case Ok(t) => RunChecked(t, cmds[1..], num)
  }
}

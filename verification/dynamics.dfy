/**
 One time step of the engine, `Swarmalator::update` in
 wasm-swarmalators/src/lib.rs.

 The step has three phases. If a target is set, each agent's coupling `J`
 becomes its distance to the target, normalised between the nearest and the
 farthest agent. Then each agent's velocity and phase increment are
 accumulated from every other agent. Last, phases and positions advance by
 `dt`.

 `Stepped` states the step as a function. `Update` follows the source's loops
 and is proved to compute the same state, or to panic exactly when the source
 would read `chiral` or `target` past its end.
 */
module Dynamics {
  import opened FloatModel
  import opened Engine

  /** Every agent reads `target[0]` and `target[1]`. */
  predicate TargetFits(s: Swarmalator)
  {
    s.target.Some? && s.agents > 0 ==> |s.target.value| >= 2
  }

  /** Agent `i` reads `chiral[i]`. */
  predicate ChiralFits(s: Swarmalator)
  {
    s.chiral.Some? ==> |s.chiral.value| >= s.agents
  }

  /** `update` reads nothing past the end of `chiral` or `target`. */
  predicate InBounds(s: Swarmalator)
  {
    TargetFits(s) && ChiralFits(s)
  }

  /** Distance from agent `i` to the point `t`. */
  function TargetDistance(s: Swarmalator, t: seq<real>, i: nat, num: Numerics): real
    requires Valid(s) && |t| >= 2 && i < s.agents
  {
    num.sqrt(Sq(s.positions[i * 2] - t[0]) + Sq(s.positions[i * 2 + 1] - t[1]))
  }

  /** `dists_to_target`. */
  function TargetDistances(s: Swarmalator, t: seq<real>, num: Numerics): (ds: seq<real>)
    requires Valid(s) && |t| >= 2
    ensures |ds| == s.agents
  {
    seq(s.agents, i requires 0 <= i < s.agents => TargetDistance(s, t, i, num))
  }

  /** `A * |d - min| / (max - min)`: a distance rescaled between the nearest and farthest one. */
  function Normalised(A: real, d: real, minDist: real, maxDist: real, num: Numerics): real
  {
    Div(num, A * Abs(d - minDist), maxDist - minDist)
  }

  /** Coupling of agent `i` to the target, between the nearest and farthest agent. */
  function TargetCoupling(s: Swarmalator, ds: seq<real>, i: nat, num: Numerics): real
    requires 0 < |ds| && i < |ds|
  {
    Normalised(s.A, ds[i], MinOf(ds), MaxOf(ds), num)
  }

  /** `Js`: the spatial-phase coupling each agent uses in this step. */
  function Couplings(s: Swarmalator, num: Numerics): (js: seq<real>)
    requires Valid(s) && TargetFits(s)
    ensures |js| == s.agents
    ensures s.target.None? ==> forall i :: 0 <= i < |js| ==> js[i] == s.J
  {
    match s.target
    case None => seq(s.agents, _ => s.J)
    case Some(t) =>
      if s.agents == 0 then []
      else
        var ds := TargetDistances(s, t, num);
        seq(s.agents, i requires 0 <= i < s.agents => TargetCoupling(s, ds, i, num))
  }

  /** The velocity and phase increment accumulated for one agent. */
  datatype Motion = Motion(vx: real, vy: real, dphi: real)

  /** Agent `i` has a chirality value to read. */
  predicate ChiralFitsAgent(s: Swarmalator, i: nat)
  {
    s.chiral.Some? ==> i < |s.chiral.value|
  }

  /** What agent `i` starts from: its chiral spin, and its natural frequency. */
  function InitialMotion(s: Swarmalator, i: nat, num: Numerics): Motion
    requires Valid(s) && ChiralFitsAgent(s, i) && i < s.agents
  {
    match s.chiral
    case Some(c) => Spin(c[i], s.phases[i], s.naturalFrequencies[i], num)
    case None => Motion(0.0, 0.0, s.naturalFrequencies[i])
  }

  /** A chiral agent starts moving at right angles to its phase, at speed `chirality`. */
  function Spin(chirality: real, phase: real, frequency: real, num: Numerics): Motion
  {
    Motion(chirality * num.cos(phase + PI / 2.0), chirality * num.sin(phase + PI / 2.0), frequency)
  }

  /** Two contributions to an agent's motion, added component by component. */
  function Plus(m: Motion, p: Motion): Motion
  {
    Motion(m.vx + p.vx, m.vy + p.vy, m.dphi + p.dphi)
  }

  /** What the pairwise interaction reads of one agent. */
  datatype Agent = Agent(x: real, y: real, phase: real, frequency: real)

  function AgentAt(s: Swarmalator, i: nat): Agent
    requires Valid(s) && i < s.agents
  {
    Agent(s.positions[i * 2], s.positions[i * 2 + 1], s.phases[i], s.naturalFrequencies[i])
  }

  /** What agent `j` adds to the velocity and phase increment of agent `i`. */
  function Pull(s: Swarmalator, js: seq<real>, i: nat, j: nat, num: Numerics): Motion
    requires Valid(s) && |js| == s.agents && i < s.agents && j < s.agents
  {
    Interaction(s.A, s.B, s.K, s.agents, s.chiral.Some?, js[i], AgentAt(s, i), AgentAt(s, j), num)
  }

  /**
   The body of the inner loop of `update` for agents `a` (the one updated,
   with coupling `Ji`) and `b`, among `n` agents.
   */
  function Interaction(A: real, B: real, K: real, n: nat, chiral: bool, Ji: real, a: Agent, b: Agent, num: Numerics): Motion
    requires n > 0
  {
    var dist := Distance(a, b, num);
    var freqDiffXy :=
      if chiral then (PI / 2.0) * Abs(Div(num, b.frequency, Abs(b.frequency)) - Div(num, a.frequency, Abs(a.frequency)))
      else 0.0;
    var freqDiffPhase := if chiral then freqDiffXy / 2.0 else 0.0;
    var attraction := A + Ji * num.cos(b.phase - a.phase - freqDiffXy);
    var cx := Div(num, b.x - a.x, dist) * attraction - Div(num, B * (b.x - a.x), Sq(dist));
    var cy := Div(num, b.y - a.y, dist) * attraction - Div(num, B * (b.y - a.y), Sq(dist));
    Motion((1.0 / n as real) * cx, (1.0 / n as real) * cy,
           Div(num, (K / n as real) * num.sin(b.phase - a.phase - freqDiffPhase), dist))
  }

  /** The distance between two agents, the divisor of the pairwise terms. */
  function Distance(a: Agent, b: Agent, num: Numerics): real
  {
    num.sqrt(Sq(a.x - b.x) + Sq(a.y - b.y))
  }

  /**
   No division the new phases depend on (lib.rs:174, 198) is by zero: every
   two distinct agents are apart, and with chirality set no natural frequency
   is zero. When one is, the program divides by zero and the phases it
   computes become NaN or infinite, values that exact reals do not have. The
   coupling division (lib.rs:142) can still be 0/0, when every agent is
   equally far from the target; it feeds only velocities and positions.
   */
  predicate DivisorsNonZero(s: Swarmalator, num: Numerics)
    requires Valid(s)
  {
    && (forall i, j :: 0 <= i < s.agents && 0 <= j < s.agents && i != j ==>
          Distance(AgentAt(s, i), AgentAt(s, j), num) != 0.0)
    && (s.chiral.Some? ==> forall i :: 0 <= i < s.agents ==> s.naturalFrequencies[i] != 0.0)
  }

  /** Agent `i`'s motion after the inner loop has visited agents `0 .. upto`. */
  function Drift(s: Swarmalator, js: seq<real>, i: nat, upto: nat, num: Numerics): Motion
    requires Valid(s) && ChiralFitsAgent(s, i) && |js| == s.agents && i < s.agents && upto <= s.agents
    decreases upto
  {
    if upto == 0 then InitialMotion(s, i, num)
    else
      var m := Drift(s, js, i, upto - 1, num);
      if upto - 1 == i then m
      else
        Plus(m, Pull(s, js, i, upto - 1, num))
  }

  /** The new velocities, x then y per agent. */
  function NewVelocities(s: Swarmalator, js: seq<real>, num: Numerics): (v: seq<real>)
    requires Valid(s) && ChiralFits(s) && |js| == s.agents
    ensures |v| == 2 * s.agents
  {
    seq(2 * s.agents, k requires 0 <= k < 2 * s.agents =>
      var m := Drift(s, js, k / 2, s.agents, num);
      if k % 2 == 0 then m.vx else m.vy)
  }

  /** The new phase increments. */
  function NewDeltaPhases(s: Swarmalator, js: seq<real>, num: Numerics): (d: seq<real>)
    requires Valid(s) && ChiralFits(s) && |js| == s.agents
    ensures |d| == s.agents
  {
    seq(s.agents, i requires 0 <= i < s.agents => Drift(s, js, i, s.agents, num).dphi)
  }

  /**
   The state after one step of length `dt`. Only the four dynamic arrays
   change, and each keeps its length.
   */
  function Stepped(s: Swarmalator, dt: real, num: Numerics): (t: Swarmalator)
    requires Valid(s) && InBounds(s)
    ensures Valid(t) && InBounds(t)
    ensures OnlyChanges(s, t, {Velocities, DeltaPhases, Phases, Positions})
  {
    var js := Couplings(s, num);
    var v := NewVelocities(s, js, num);
    var d := NewDeltaPhases(s, js, num);
    s.(velocities := v, deltaPhases := d, phases := Wrapped(s.phases, d, dt), positions := Moved(s.positions, v, dt))
  }

  /**
   When no division the phases depend on is by zero, every phase a step
   leaves is wrapped into `(-2π, 2π)`. These are the inputs on which the
   program's phases are finite, so the bound holds of the program as well.
   */
  lemma SteppedPhasesWrapped(s: Swarmalator, dt: real, num: Numerics)
    requires Valid(s) && InBounds(s) && DivisorsNonZero(s, num)
    ensures var t := Stepped(s, dt, num);
      forall i :: 0 <= i < |t.phases| ==> -TWO_PI < t.phases[i] < TWO_PI
  {
  }

  /** A quantity moved along its rate of change for `dt`. */
  function Advanced(x: real, rate: real, dt: real): real
  {
    x + rate * dt
  }

  /** Each phase advanced by its increment over `dt`, then wrapped by `% (2.0 * PI)`. */
  function Wrapped(phases: seq<real>, d: seq<real>, dt: real): (p: seq<real>)
    requires |d| == |phases|
    ensures |p| == |phases|
    ensures forall i :: 0 <= i < |p| ==> -TWO_PI < p[i] < TWO_PI
    ensures forall i :: 0 <= i < |p| ==> Advanced(phases[i], d[i], dt) >= 0.0 ==> p[i] >= 0.0
    ensures forall i :: 0 <= i < |p| ==> Advanced(phases[i], d[i], dt) <= 0.0 ==> p[i] <= 0.0
  {
    seq(|phases|, i requires 0 <= i < |phases| => Rem(Advanced(phases[i], d[i], dt), TWO_PI))
  }

  /** Each coordinate moved along its velocity over `dt`. */
  function Moved(positions: seq<real>, v: seq<real>, dt: real): (p: seq<real>)
    requires |v| == |positions|
    ensures |p| == |positions|
  {
    seq(|positions|, k requires 0 <= k < |positions| => Advanced(positions[k], v[k], dt))
  }

  /** `update` as a whole: a step when it stays in bounds, otherwise a panic. */
  function Advance(s: Swarmalator, dt: real, num: Numerics): (r: Result<Swarmalator>)
    requires Valid(s)
    ensures r.Panicked? <==> !InBounds(s)
    ensures r.Panicked? ==> r.panic == IndexOutOfBounds
    ensures r.Ok? ==> Valid(r.value) && OnlyChanges(s, r.value, {Velocities, DeltaPhases, Phases, Positions})
  {
    if InBounds(s) then Ok(Stepped(s, dt, num)) else Panicked(IndexOutOfBounds)
  }

  /**
   With a target, the coupling `Js[i]` of each agent lies between 0 (the
   nearest agent) and `A` (the farthest), as long as the agents are not all
   equally far from the target; when they are, every coupling is the value
   `Numerics` gives for zero divided by zero (NaN in the program).
   */
  lemma CouplingsNormalised(s: Swarmalator, num: Numerics)
    requires Valid(s) && TargetFits(s) && s.target.Some? && s.agents > 0 && s.A >= 0.0
    ensures var ds := TargetDistances(s, s.target.value, num);
      MaxOf(ds) > MinOf(ds) ==>
        forall i :: 0 <= i < s.agents ==> 0.0 <= Couplings(s, num)[i] <= s.A
    ensures var ds := TargetDistances(s, s.target.value, num);
      MaxOf(ds) == MinOf(ds) ==>
        forall i :: 0 <= i < s.agents ==> Couplings(s, num)[i] == num.divByZero(0.0)
  {
    var ds := TargetDistances(s, s.target.value, num);
    var js := Couplings(s, num);
    forall i | 0 <= i < s.agents
      ensures MaxOf(ds) > MinOf(ds) ==> 0.0 <= js[i] <= s.A
      ensures MaxOf(ds) == MinOf(ds) ==> js[i] == num.divByZero(0.0)
    {
      assert js[i] == TargetCoupling(s, ds, i, num);
      NormalisedRange(s.A, ds[i], MinOf(ds), MaxOf(ds), num);
    }
  }

  /** A distance between the nearest and the farthest is rescaled into `[0, A]`. */
  lemma NormalisedRange(A: real, d: real, minDist: real, maxDist: real, num: Numerics)
    requires A >= 0.0 && minDist <= d <= maxDist
    ensures maxDist > minDist ==> 0.0 <= Normalised(A, d, minDist, maxDist, num) <= A
    ensures maxDist == minDist ==> Normalised(A, d, minDist, maxDist, num) == num.divByZero(0.0)
  {
    if maxDist > minDist {
      FractionOfRange(A, d - minDist, maxDist - minDist);
    }
  }

  /** `A * x / w` stays within `[0, A]` for `0 <= x <= w`. */
  lemma FractionOfRange(A: real, x: real, w: real)
    requires A >= 0.0 && 0.0 <= x <= w && w > 0.0
    ensures 0.0 <= A * x / w <= A
  {
    assert A * x <= A * w;
    assert A * w / w == A;
  }

  /**
   A step recomputes velocities and phase increments from scratch: the
   values left by the previous step have no influence on the next state.
   */
  lemma {:induction false} SteppedForgetsMotion(s: Swarmalator, velocities: seq<real>, deltaPhases: seq<real>, dt: real, num: Numerics)
    requires Valid(s) && InBounds(s)
    requires |velocities| == 2 * s.agents && |deltaPhases| == s.agents
    ensures Stepped(s.(velocities := velocities, deltaPhases := deltaPhases), dt, num) == Stepped(s, dt, num)
  {
    var s' := s.(velocities := velocities, deltaPhases := deltaPhases);
    var js := Couplings(s, num);
    assert Couplings(s', num) == js by {
      if s.target.Some? && s.agents > 0 {
        assert TargetDistances(s', s.target.value, num) == TargetDistances(s, s.target.value, num);
      }
    }
    forall i | 0 <= i < s.agents
      ensures Drift(s', js, i, s.agents, num) == Drift(s, js, i, s.agents, num)
    {
      DriftIgnoresMotion(s, s', js, i, s.agents, num);
    }
    assert NewVelocities(s', js, num) == NewVelocities(s, js, num);
    assert NewDeltaPhases(s', js, num) == NewDeltaPhases(s, js, num);
  }

  /** The accumulated motion reads neither the velocities nor the phase increments. */
  lemma {:induction false} DriftIgnoresMotion(s: Swarmalator, s': Swarmalator, js: seq<real>, i: nat, upto: nat, num: Numerics)
    requires Valid(s) && ChiralFitsAgent(s, i) && |js| == s.agents && i < s.agents && upto <= s.agents
    requires Valid(s') && OnlyChanges(s, s', {Velocities, DeltaPhases})
    ensures Drift(s', js, i, upto, num) == Drift(s, js, i, upto, num)
    decreases upto, 1
  {
    if upto == 0 {
      assert InitialMotion(s', i, num) == InitialMotion(s, i, num);
    } else {
      StepIgnoresMotion(s, s', js, i, upto, num);
    }
  }

  /** The inductive step: the accumulations agree before agent `upto - 1`, and so does its pull. */
  lemma {:induction false} StepIgnoresMotion(s: Swarmalator, s': Swarmalator, js: seq<real>, i: nat, upto: nat, num: Numerics)
    requires Valid(s) && ChiralFitsAgent(s, i) && |js| == s.agents && i < s.agents && 0 < upto <= s.agents
    requires Valid(s') && OnlyChanges(s, s', {Velocities, DeltaPhases})
    ensures Drift(s', js, i, upto, num) == Drift(s, js, i, upto, num)
    decreases upto, 0
  {
    DriftIgnoresMotion(s, s', js, i, upto - 1, num);
    if upto - 1 != i {
      PullUnmoved(s, s', js, i, upto - 1, num);
    }
  }

  /** The pull between two agents reads neither the velocities nor the phase increments. */
  lemma PullUnmoved(s: Swarmalator, s': Swarmalator, js: seq<real>, i: nat, j: nat, num: Numerics)
    requires Valid(s) && |js| == s.agents && i < s.agents && j < s.agents
    requires Valid(s') && OnlyChanges(s, s', {Velocities, DeltaPhases})
    ensures Pull(s', js, i, j, num) == Pull(s, js, i, j, num)
  {
    assert AgentAt(s', i) == AgentAt(s, i);
    assert AgentAt(s', j) == AgentAt(s, j);
  }

  /**
   `update`, loop by loop. Every write goes to `velocities[i*2]`,
   `velocities[i*2+1]`, `delta_phases[i]`, `phases[i]`, `positions[i*2]` or
   `positions[i*2+1]` with `i < agents`; it panics exactly when the source
   would read past the end of `target` or `chiral`.
   */
  method Update(s: Swarmalator, dt: real, num: Numerics) returns (r: Result<Swarmalator>)
    requires Valid(s)
    ensures r.Panicked? <==> !InBounds(s)
    ensures r.Panicked? ==> r.panic == IndexOutOfBounds
    ensures r.Ok? ==> Valid(r.value)
    ensures r.Ok? ==> OnlyChanges(s, r.value, {Velocities, DeltaPhases, Phases, Positions})
    ensures r.Ok? ==> r.value == Stepped(s, dt, num)
  {
    var couplings := ComputeCouplings(s, num);
    if couplings.Panicked? {
      return Panicked(couplings.panic);
    }
    var js := couplings.value;
    var motion := AccumulateMotion(s, js, num);
    if motion.Panicked? {
      return Panicked(motion.panic);
    }
    var (velocities, deltaPhases) := motion.value;
    var phases, positions := Integrate(s.phases, s.positions, velocities, deltaPhases, dt);
    r := Ok(s.(velocities := velocities, deltaPhases := deltaPhases, phases := phases, positions := positions));
  }

  /**
   The first part of `update`: `Js` starts as `J` for every agent and, with a
   target set, is recomputed from each agent's distance to it. Panics when the
   target has fewer than two coordinates and there is an agent to read them.
   */
  method ComputeCouplings(s: Swarmalator, num: Numerics) returns (r: Result<seq<real>>)
    requires Valid(s)
    ensures r.Panicked? <==> !TargetFits(s)
    ensures r.Panicked? ==> r.panic == IndexOutOfBounds
    ensures r.Ok? ==> r.value == Couplings(s, num)
  {
    var n := s.agents;
    var js := seq(n, _ => s.J);
    if s.target.Some? {
      var t := s.target.value;
      var dists := seq(n, _ => 0.0);
      var i := 0;
      while i < n
        invariant 0 <= i <= n && |dists| == n
        invariant i > 0 ==> |t| >= 2
        invariant forall k :: 0 <= k < i ==> dists[k] == TargetDistance(s, t, k, num)
      {
        if |t| < 2 {
          return Panicked(IndexOutOfBounds);
        }
        dists := dists[i := TargetDistance(s, t, i, num)];
        i := i + 1;
      }
      if n > 0 {
        assert dists == TargetDistances(s, t, num);
        var maxDist := MaxOf(dists);
        var minDist := MinOf(dists);
        i := 0;
        while i < n
          invariant 0 <= i <= n && |js| == n
          invariant forall k :: 0 <= k < i ==> js[k] == TargetCoupling(s, dists, k, num)
        {
          js := js[i := Normalised(s.A, dists[i], minDist, maxDist, num)];
          i := i + 1;
        }
      }
    }
    r := Ok(js);
  }

  /**
   The second part of `update`: each agent's velocity and phase increment,
   accumulated over every other agent. Panics at the first agent without a
   chirality value, when chirality is set.
   */
  method AccumulateMotion(s: Swarmalator, js: seq<real>, num: Numerics) returns (r: Result<(seq<real>, seq<real>)>)
    requires Valid(s) && |js| == s.agents
    ensures r.Panicked? <==> !ChiralFits(s)
    ensures r.Panicked? ==> r.panic == IndexOutOfBounds
    ensures r.Ok? ==> ChiralFits(s) && r.value == (NewVelocities(s, js, num), NewDeltaPhases(s, js, num))
  {
    var n := s.agents;
    var velocities := s.velocities;
    var deltaPhases := s.deltaPhases;
    var i := 0;
    while i < n
      invariant 0 <= i <= n
      invariant |velocities| == 2 * n && |deltaPhases| == n
      invariant s.chiral.Some? ==> i <= |s.chiral.value|
      invariant forall k :: 0 <= k < i ==> Accumulated(s, js, k, n, velocities, deltaPhases, num)
    {
      if s.chiral.Some? && i >= |s.chiral.value| {
        return Panicked(IndexOutOfBounds);
      }
      var before, beforeDelta := velocities, deltaPhases;
      velocities, deltaPhases := AccumulateAgent(s, js, i, velocities, deltaPhases, num);
      forall k | 0 <= k < i
        ensures Accumulated(s, js, k, n, velocities, deltaPhases, num)
      {
        assert Accumulated(s, js, k, n, before, beforeDelta, num);
        assert velocities[k * 2] == before[k * 2] && velocities[k * 2 + 1] == before[k * 2 + 1];
        assert deltaPhases[k] == beforeDelta[k];
      }
      i := i + 1;
    }
    MotionAgrees(s, js, velocities, deltaPhases, num);
    r := Ok((velocities, deltaPhases));
  }

  /** Slots `i*2`, `i*2+1` and `i` hold agent `i`'s motion after visiting agents `0 .. upto`. */
  predicate Accumulated(s: Swarmalator, js: seq<real>, i: nat, upto: nat,
                        velocities: seq<real>, deltaPhases: seq<real>, num: Numerics)
    requires Valid(s) && ChiralFitsAgent(s, i) && |js| == s.agents && i < s.agents && upto <= s.agents
    requires |velocities| == 2 * s.agents && |deltaPhases| == s.agents
  {
    var m := Drift(s, js, i, upto, num);
    velocities[i * 2] == m.vx && velocities[i * 2 + 1] == m.vy && deltaPhases[i] == m.dphi
  }

  /** The body of the outer loop for agent `i`: only its own three slots change. */
  method AccumulateAgent(s: Swarmalator, js: seq<real>, i: nat,
                         velocities: seq<real>, deltaPhases: seq<real>, num: Numerics)
    returns (velocities': seq<real>, deltaPhases': seq<real>)
    requires Valid(s) && ChiralFitsAgent(s, i) && |js| == s.agents && i < s.agents
    requires |velocities| == 2 * s.agents && |deltaPhases| == s.agents
    ensures |velocities'| == 2 * s.agents && |deltaPhases'| == s.agents
    ensures Accumulated(s, js, i, s.agents, velocities', deltaPhases', num)
    ensures forall k :: 0 <= k < |velocities| && k != i * 2 && k != i * 2 + 1 ==> velocities'[k] == velocities[k]
    ensures forall k :: 0 <= k < |deltaPhases| && k != i ==> deltaPhases'[k] == deltaPhases[k]
  {
    var n := s.agents;
    var m0 := InitialMotion(s, i, num);
    velocities' := velocities[i * 2 := m0.vx][i * 2 + 1 := m0.vy];
    deltaPhases' := deltaPhases[i := m0.dphi];
    var j := 0;
    while j < n
      invariant 0 <= j <= n
      invariant |velocities'| == 2 * n && |deltaPhases'| == n
      invariant Accumulated(s, js, i, j, velocities', deltaPhases', num)
      invariant forall k :: 0 <= k < |velocities| && k != i * 2 && k != i * 2 + 1 ==> velocities'[k] == velocities[k]
      invariant forall k :: 0 <= k < |deltaPhases| && k != i ==> deltaPhases'[k] == deltaPhases[k]
    {
      if i != j {
        var p := Pull(s, js, i, j, num);
        velocities' := velocities'[i * 2 := velocities'[i * 2] + p.vx];
        velocities' := velocities'[i * 2 + 1 := velocities'[i * 2 + 1] + p.vy];
        deltaPhases' := deltaPhases'[i := deltaPhases'[i] + p.dphi];
      }
      j := j + 1;
    }
  }

  /** Slots the loop filled agent by agent are the sequences `Stepped` defines. */
  lemma MotionAgrees(s: Swarmalator, js: seq<real>, velocities: seq<real>, deltaPhases: seq<real>, num: Numerics)
    requires Valid(s) && ChiralFits(s) && |js| == s.agents
    requires |velocities| == 2 * s.agents && |deltaPhases| == s.agents
    requires forall k :: 0 <= k < s.agents ==> Accumulated(s, js, k, s.agents, velocities, deltaPhases, num)
    ensures velocities == NewVelocities(s, js, num)
    ensures deltaPhases == NewDeltaPhases(s, js, num)
  {
    var v := NewVelocities(s, js, num);
    forall k | 0 <= k < 2 * s.agents
      ensures velocities[k] == v[k]
    {
      var q := k / 2;
      assert Accumulated(s, js, q, s.agents, velocities, deltaPhases, num);
      assert k == q * 2 || k == q * 2 + 1;
    }
    var d := NewDeltaPhases(s, js, num);
    forall k | 0 <= k < s.agents
      ensures deltaPhases[k] == d[k]
    {
      assert Accumulated(s, js, k, s.agents, velocities, deltaPhases, num);
    }
  }

  /**
   The last part of `update`: each phase advances by its increment over `dt`
   and is wrapped by `% (2.0 * PI)`; each coordinate moves along its velocity.
   */
  method Integrate(phases: seq<real>, positions: seq<real>, velocities: seq<real>, deltaPhases: seq<real>, dt: real)
    returns (phases': seq<real>, positions': seq<real>)
    requires |deltaPhases| == |phases| && |velocities| == |positions| == 2 * |phases|
    ensures phases' == Wrapped(phases, deltaPhases, dt)
    ensures positions' == Moved(positions, velocities, dt)
  {
    var n := |phases|;
    phases' := phases;
    positions' := positions;
    var i := 0;
    while i < n
      invariant 0 <= i <= n
      invariant |phases'| == n && |positions'| == 2 * n
      invariant forall k :: 0 <= k < i ==> phases'[k] == Rem(Advanced(phases[k], deltaPhases[k], dt), TWO_PI)
      invariant forall k :: i <= k < n ==> phases'[k] == phases[k]
      invariant forall k :: 0 <= k < 2 * i ==> positions'[k] == Advanced(positions[k], velocities[k], dt)
      invariant forall k :: 2 * i <= k < 2 * n ==> positions'[k] == positions[k]
    {
      phases' := phases'[i := Advanced(phases'[i], deltaPhases[i], dt)];
      phases' := phases'[i := Rem(phases'[i], TWO_PI)];
      positions' := positions'[i * 2 := Advanced(positions'[i * 2], velocities[i * 2], dt)];
      positions' := positions'[i * 2 + 1 := Advanced(positions'[i * 2 + 1], velocities[i * 2 + 1], dt)];
      i := i + 1;
    }
  }
}

# Swarmalator engine state, in Dafny

This project models the simulation engine of `wasm-swarmalators`: the
`Swarmalator` struct, written in Rust and compiled to WebAssembly. A
swarmalator is an agent whose motion in the plane is coupled to an internal
oscillator phase. The engine keeps flat `f64` arrays: positions and velocities
with two entries per agent (x, then y), and phases, phase increments and
natural frequencies with one entry per agent. Around these arrays sit the
coupling constants `A`, `B`, `K`, `J`, optional per-agent chirality values
and an optional 2-D target point.

The model is functional. The engine is an immutable record (`Engine.Swarmalator`)
with a shape invariant (`Engine.Valid`). The constructor and the setters are
functions that return either the new state or the panic the source raises
(`Engine.Result`). A time step (`update`) has two forms. `Dynamics.Stepped` is
a reference definition. `Dynamics.Update` is a method that follows the
source's loops and is proved to compute the same state. The step panics
exactly when it would index `chiral` or `target` past its end.

The numbers are exact reals. Addition, subtraction, multiplication and
division by a non-zero value are exact. Rust's `%` on `f64` is C's `fmod`,
which IEEE computes exactly; `FloatModel.Rem` defines it by truncation. Three
kinds of result come from outside the model: the square root, JavaScript's
`Math.sin` and `Math.cos`, and the result of a division by zero. A
`FloatModel.Numerics` record of functions supplies them as arbitrary reals.
Every property holds whatever reals those functions return. The program's
division by zero gives NaN or an infinity instead, which no real stands for,
so on inputs that reach such a division the model's values are reals where
the program's are not. `Dynamics.DivisorsNonZero` marks the inputs on which
no division the phases depend on is by zero.

Modules, one per concern of `wasm-swarmalators/src/lib.rs`:

- `FloatModel` (`float_model.dfy`): the arithmetic, `fmod`, and the
  NaN-seeded max/min folds.
- `Engine` (`engine.dfy`): the state record, its shape invariant, a
  field-by-field frame predicate (`OnlyChanges`), `new` and the six setters.
- `Dynamics` (`dynamics.dfy`): `update`, both as a function and as loops,
  and its properties.
- `Sessions` (`sessions.dfy`): sequences of calls on one engine. This module
  shows the unchecked-length gap and proves that hardened versions of `new`
  and `set_chiral` close it.

`new` checks only the lengths of the positions, the phases and the natural
frequencies (lib.rs:82-92). It stores the chirality values and the target
unchecked (see Findings). Chirality values are any `f64`, although the
struct's doc comment (lib.rs:27) calls `chiral` a Boolean; the model takes
any real.

## Model

| member | source | states |
|---|---|---|
| Engine.New | wasm-swarmalators/src/lib.rs:69-120 | succeeds exactly when positions hold 2·agents values, phases agents values and natural frequencies agents values; each mismatch gives its own panic, checked in that order; on success the state is `Valid`, all velocities and phase increments are zero, `A = B = 1`, and agents, `K`, `J`, chirality, target, positions, phases and frequencies are the arguments |
| Engine.SetTarget | wasm-swarmalators/src/lib.rs:231-237 | succeeds exactly when the target has 2 coordinates, otherwise panics with `TargetLength`; on success the target becomes `Some(target)`, no other field changes, and validity is unchanged |
| Engine.SetK | wasm-swarmalators/src/lib.rs:242-244 | never fails; `K` takes the new value, no other field changes, validity is unchanged |
| Engine.SetJ | wasm-swarmalators/src/lib.rs:249-251 | never fails; `J` takes the new value, no other field changes, validity is unchanged |
| Engine.SetChiral | wasm-swarmalators/src/lib.rs:256-258 | never fails, whatever the length of the values; only the chirality changes, validity is unchanged |
| Engine.SetNaturalFrequencies | wasm-swarmalators/src/lib.rs:265-271 | succeeds exactly when there is one frequency per agent, otherwise panics with `NaturalFrequenciesLength`; on success only the frequencies change and a valid engine stays valid |
| Engine.SetPhases | wasm-swarmalators/src/lib.rs:279-285 | succeeds exactly when there is one phase per agent, otherwise panics with `PhasesLength`; on success only the phases change and a valid engine stays valid |
| FloatModel.Rem | wasm-swarmalators/src/lib.rs:204 | `x % y` for `y > 0` lies strictly between `-y` and `y`, has the sign of `x`, and differs from `x` by a whole number of `y`s (the truncated quotient) |
| FloatModel.MaxOf | wasm-swarmalators/src/lib.rs:138 | the max fold of a non-empty sequence is one of its elements and no element exceeds it |
| FloatModel.MinOf | wasm-swarmalators/src/lib.rs:139 | the min fold of a non-empty sequence is one of its elements and no element is below it |
| Dynamics.Couplings | wasm-swarmalators/src/lib.rs:127-144 | there is one coupling per agent; without a target every agent's coupling is `J` |
| Dynamics.CouplingsNormalised | wasm-swarmalators/src/lib.rs:138-143 | with a target and `A >= 0`, every coupling lies in `[0, A]` when the agents are not all equally far from the target; when they are, every coupling is the `Numerics` value for 0/0, which stands for the program's NaN |
| Dynamics.Wrapped | wasm-swarmalators/src/lib.rs:202-204 | advancing each phase by its increment over `dt` and wrapping it by 2π keeps the length and leaves every phase strictly within (-2π, 2π), with the sign of the unwrapped value |
| Dynamics.Stepped | wasm-swarmalators/src/lib.rs:126-208 | a step from a valid, in-bounds engine gives a valid, in-bounds engine; only velocities, phase increments, phases and positions change, each keeping its length |
| Dynamics.SteppedPhasesWrapped | wasm-swarmalators/src/lib.rs:158-204 | when no two agents coincide and, with chirality set, no natural frequency is zero (so no division the phases depend on, lib.rs:174 and 198, is by zero; the coupling division at lib.rs:142 can still be 0/0 and feeds only velocities and positions), every phase a step leaves lies strictly within (-2π, 2π) |
| Dynamics.SteppedForgetsMotion | wasm-swarmalators/src/lib.rs:146-156 | a step does not depend on the previous velocities or phase increments, because each agent's are reset before accumulation |
| Dynamics.Advance | wasm-swarmalators/src/lib.rs:126-208 | `update` on a valid engine panics with `IndexOutOfBounds` exactly when `chiral` has fewer values than agents, or there is an agent and the target has fewer than 2 coordinates; otherwise the result is valid and differs only in the four dynamic arrays |
| Dynamics.Update | wasm-swarmalators/src/lib.rs:126-209 | the three loops of `update` panic exactly when the engine is not in bounds; otherwise they give a valid state that differs only in velocities, phase increments, phases and positions and equals the reference step `Stepped` |
| Dynamics.ComputeCouplings | wasm-swarmalators/src/lib.rs:127-144 | the coupling loop panics exactly when a target shorter than 2 is read by an agent; otherwise it gives the reference couplings |
| Dynamics.AccumulateMotion | wasm-swarmalators/src/lib.rs:146-200 | the accumulation loop panics exactly when chirality is set with fewer values than agents; otherwise it gives the reference velocities and phase increments |
| Dynamics.AccumulateAgent | wasm-swarmalators/src/lib.rs:147-199 | one outer iteration writes agent `i`'s accumulated motion to `velocities[2i]`, `velocities[2i+1]` and `delta_phases[i]`; it changes no other slot and no length |
| Dynamics.Integrate | wasm-swarmalators/src/lib.rs:202-208 | the integration loop gives the wrapped phases and the moved positions, slot by slot |
| Sessions.Run | wasm-swarmalators/src/lib.rs:53-286 | any sequence of calls on a valid engine that does not panic leaves it valid, with the same agent count, `A` and `B` |
| Sessions.NewAcceptsShortTarget | wasm-swarmalators/src/lib.rs:101-104 | `new` succeeds with a target of fewer than 2 coordinates, and the first `update` then panics out of bounds |
| Sessions.NewAcceptsShortChiral | wasm-swarmalators/src/lib.rs:106-119 | `new` succeeds with fewer chirality values than agents, and the first `update` then panics out of bounds |
| Sessions.SetChiralAcceptsShortChiral | wasm-swarmalators/src/lib.rs:256-258 | on any valid engine, setting fewer chirality values than agents and then stepping panics out of bounds |
| Sessions.NewChecked | wasm-swarmalators/src/lib.rs:81-104 | the hardened constructor succeeds exactly when `new` does and any chirality values are one per agent and any target has 2 coordinates; it then builds the same state as `new`, and that state is valid and in bounds |
| Sessions.SetChiralChecked | wasm-swarmalators/src/lib.rs:256-258 | the hardened setter succeeds exactly when the values are absent or one per agent; it then acts as `set_chiral` and keeps an engine valid and in bounds |
| Sessions.RunChecked | wasm-swarmalators/src/lib.rs:226-285 | any sequence of hardened calls on a valid, in-bounds engine never panics out of bounds, and keeps the engine valid and in bounds |

## Findings

| source | as written | input that shows it | evidently intended | confidence | as-written member | corrected member |
|---|---|---|---|---|---|---|
| wasm-swarmalators/src/lib.rs:101-104 | `new` stores the target without checking its length; `update` reads `target[0]` and `target[1]` (lines 133-134) | one agent with `target = Some([])`: `new` succeeds, the first `update` indexes an empty vector | a target is a 2-D point, as `set_target` enforces at lines 232-234 | medium, not executed | Sessions.NewAcceptsShortTarget | Sessions.NewChecked |
| wasm-swarmalators/src/lib.rs:112 | `new` stores the chirality values without checking their length; `update` reads `chiral[i]` for every agent (lines 148-149) | one agent with `chiral = Some([])`: `new` succeeds, the first `update` indexes an empty vector | one chirality value per agent, like every other per-agent array `new` checks | medium, not executed | Sessions.NewAcceptsShortChiral | Sessions.NewChecked |
| wasm-swarmalators/src/lib.rs:256-258 | `set_chiral` accepts values of any length | a valid one-agent engine, then `set_chiral(Some([]))` and `update`: out-of-bounds panic | one chirality value per agent, checked as `set_phases` checks phases | medium, not executed | Sessions.SetChiralAcceptsShortChiral | Sessions.SetChiralChecked |

## Left out

- The numeric content of `update` is abstract. `sqrt`, JavaScript's `sin`
  and `cos`, and the value of a division by zero come from a `Numerics`
  parameter. Other arithmetic is exact real arithmetic, with no rounding, no
  infinities and no NaN propagation. The Rust `f64::max`/`f64::min` fold
  semantics for NaN inputs are therefore not modelled. Nothing about the
  physics is proved.
- `PI` is the decimal `3.141592653589793`, not the exact binary value of
  `std::f64::consts::PI`.
- The raw-pointer accessors `velocities()`, `phases()` and `positions()`
  (lines 212-224) are not modelled. They expose addresses into WebAssembly
  memory and only read the state.
- `utils::set_panic_hook`, the `log!` macro and the `wasm_bindgen`
  attributes are console and foreign-interface plumbing. `utils` is not part
  of this model.
- Engine.New: `agents` is an unbounded `nat`, so the wrap-around of the
  `usize` product `agents * 2` is not modelled. On wasm32 with
  `agents >= 2^31`, a release build wraps the product, so the positions
  check at line 82 can pass (for instance with no positions at all) and the
  source panics on the phases check at line 87 instead; a debug build
  panics on the overflow itself. The model reports `PositionsLength` there.
  Success and failure still agree; only the kind of panic differs.
- Dynamics.SteppedPhasesWrapped: the guard `DivisorsNonZero` marks the
  inputs on which the model and the program agree, not the inputs on which
  the model is silent. When two agents coincide (lib.rs:198 divides by a
  zero distance) or, with chirality set, a natural frequency is zero
  (lib.rs:174 computes `0.0 / 0.0`), the program's phases become NaN. The
  model's division by zero yields a real, so for these inputs `Stepped`
  still gives a real phase within (-2π, 2π) (from `Wrapped`), where the
  program gives NaN.
- Dynamics.Update: on a panic, the model returns no state. The source has
  already overwritten the velocities and phase increments of the agents
  before the one whose chirality value is missing. After that trap, the
  WebAssembly instance should not be used again.
- The browser front end is not part of this model. This covers the
  canvas drawing, frame scheduling, colour encoding, coordinate mapping, the
  FPS window and the shared-memory views.

# Health points of game entities, in Dafny

This project models the health-point core of a small role-playing-game library.
A `Health` value is a pair of 32-bit unsigned integers, a current `level` and a capacity `max`.
It keeps `level <= max`.
Construction validates the level.
`increase` adds with saturation, clamps to `max` and reports `HpMaxedOut`.
`decrease` subtracts with saturation and stops at zero.
`set_level` validates before assigning.
`set_max` sets the capacity and snaps the level to it.
An `Entity` wraps one `Health`, forwards to it, and rewraps its error (`EntityError::HeathError`) and log (`EntityLog::Hp`).

Files:

- `wrappers.dfy` (`Wrappers`): `Option` and `Result`, standing in for Rust's.
- `unsigned.dfy` (`Unsigned`): the `u32` subset type and Rust's `saturating_add` / `saturating_sub`.
- `health.dfy` (`HealthValue`): the `Health` value and its operations (`entity/src/health.rs`).
  Each `&mut self` method becomes a pure function that returns the updated value, paired with the method's return value when there is one.
  `Op` and `Run` replay a sequence of public mutations so that invariant preservation can be stated over any sequence.
- `entity.dfy` (`Entities`): the `Entity` wrapper (`entity/src/lib.rs`).
- `scenarios.dfy` (`Scenarios`): the repository's unit-test scenarios, stated as lemmas.

The operations are total over all `u32` pairs, since the Rust methods demand nothing of their callers.
The `level <= max` invariant is the `Valid()` predicate.
Construction establishes it, every operation preserves it, and `increase` and `set_max` establish it from any state.

The error message is "The level of health cannot be higher than max level.".

## Model

| member | source | states |
|---|---|---|
| Unsigned.SaturatingAdd | entity/src/health.rs:51 | the result is the exact sum when it fits in 32 bits, and `U32_MAX` otherwise; it never exceeds the sum |
| Unsigned.SaturatingSub | entity/src/health.rs:63 | the result is the exact difference when it is not negative, and 0 otherwise; it is never below the difference |
| HealthValue.Validate | entity/src/health.rs:42-48 | accepts exactly when `level <= max`; every rejection is `LevelTooHigh` |
| HealthValue.New | entity/src/health.rs:31-40 | fails, with `LevelTooHigh` only, exactly when a given level exceeds `max`; on success the value is valid, has the given `max`, and its level is the given one or `max` when absent |
| HealthValue.Increase | entity/src/health.rs:50-60 | `max` unchanged and the result valid; `HpMaxedOut` is returned exactly when the saturating sum reaches `max`, including a zero amount at full health; the level is then `max`, otherwise it is the plain sum |
| HealthValue.Decrease | entity/src/health.rs:62-64 | `max` unchanged; the level drops by the amount when it can, else becomes 0; it never rises, and validity is preserved |
| HealthValue.SetLevel | entity/src/health.rs:74-79 | succeeds exactly when the new level is within `max`; on success the level is the new one and `max` is kept; on failure the error is `LevelTooHigh` and the value is unchanged |
| HealthValue.SetMax | entity/src/health.rs:81-86 | both capacity and level equal the new capacity, whatever the prior state, so the result is valid |
| HealthValue.IncreaseIsClampedSum | entity/src/health.rs:50-60 | saturation never shows, for any value: the new level is `min(level + amount, max)` in unbounded arithmetic, and `HpMaxedOut` is reported exactly when `level + amount >= max` |
| HealthValue.IncreaseComposes | entity/src/health.rs:50-60 | increasing by `a` then `b` gives the same value and log as one increase by the saturated total |
| HealthValue.DecreaseComposes | entity/src/health.rs:62-64 | decreasing by `a` then `b` equals one decrease by the saturated total |
| HealthValue.SetLevelRestores | entity/src/health.rs:74-79 | after a successful `set_level` on a valid value, setting the old level back succeeds and restores the original value |
| HealthValue.SetMaxForgetsPriorState | entity/src/health.rs:81-86 | two values given the same capacity become equal, and repeating the same `set_max` changes nothing |
| HealthValue.RunPreservesValid | entity/src/health.rs:50-86 | any sequence of `increase`, `decrease`, `set_level` and `set_max` keeps a valid value valid |
| HealthValue.RunKeepsMaxWithoutSetMax | entity/src/health.rs:50-79 | a sequence of `increase`, `decrease` and `set_level` never changes `max` |
| Entities.New | entity/src/lib.rs:46-50 | fails exactly when `Health::new` fails, with `HeathError(LevelTooHigh)`; on success it wraps exactly that health value, which is valid, at the given level or full |
| Entities.GetCurrentHp | entity/src/lib.rs:54-56 | is the embedded value's level |
| Entities.GetMaxHp | entity/src/lib.rs:58-60 | is the embedded value's capacity |
| Entities.GainHp | entity/src/lib.rs:64-66 | the new embedded value is exactly the one `increase` produces, and valid; the log is `Hp(HpMaxedOut)` exactly when `increase` logs `HpMaxedOut`, and absent exactly when it logs nothing |
| Entities.LoseHp | entity/src/lib.rs:68-70 | the new embedded value is exactly the one `decrease` produces; validity is preserved |
| Entities.GainHpIsClampedSum | entity/src/lib.rs:64-66 | through the entity's accessors: current hp becomes `min(hp + amount, max)`, the maximum is unchanged, and a log is returned exactly when `hp + amount >= max` |
| Entities.MessagesForward | entity/src/lib.rs:20-43 | an entity error's message is the wrapped health error's message, "The level of health cannot be higher than max level."; an entity log's text is the wrapped log's text, "HP maxed out" |
| Scenarios.NewScenarios | entity/src/health.rs:94-104 | `new(1, Some(2))` fails with `LevelTooHigh`; `new(5, None)` has level 5; `new(5, Some(4))` has level 4 |
| Scenarios.IncreaseScenario | entity/src/health.rs:107-120 | from 0 of 10, gaining 2 gives 2 with no log; gaining 10 more gives 10 with `HpMaxedOut` |
| Scenarios.DecreaseScenario | entity/src/health.rs:123-134 | from 10, losing 2 gives 8; losing 10 more gives 0 |
| Scenarios.SetLevelScenario | entity/src/health.rs:137-145 | setting 2 of 10 succeeds; setting 11 fails with `LevelTooHigh` and leaves the value alone |
| Scenarios.SetMaxScenario | entity/src/health.rs:148-158 | capacity 120 to 8 gives level 8 and 8 to 10 gives level 10; the same holds for 1 to 8 and 8 to 7 (also tests/entity.rs:65-80) |
| Scenarios.EntityNewScenario | entity/src/lib.rs:78-90 | a teapot of 1 is at 1; a hero of 10000 given 8000 is at 8000; 12 of 10 fails with `HeathError(LevelTooHigh)` |
| Scenarios.EntityGainLoseScenario | tests/entity.rs:47-62 | an entity at 0 of 5 gaining 6 ends at 5; one at 1 of 1 losing 10 ends at 0 |

## Left out

- `get_level` / `get_max` (entity/src/health.rs:66-72) are `HealthValue.GetLevel` / `GetMax`. These are pure field reads; a Dafny function cannot modify state, so "no side effect" holds by construction and there is no separate contract to state.
- Rust's references (`&u32`) are modelled as plain values.
- Mutation in place is modelled as returning the new value.
- The derived `Debug`, `PartialEq` and `Ord` impls, the `thiserror` machinery and the `Formatter` plumbing are left out. Display is modelled only as the `Message` functions, which return the constant strings.
- The procedural macros of `entity_proc_macro` are left out because they are compile-time code generation. Their generated `gain_hp`, `loose_hp` and `set_max_hp` are plain forwards to `increase`, `decrease` and `set_max`, which are modelled. The generated `gain_hp` returns the bare `HealthLog` without wrapping it.
- The `Entity` and `EntityChangeMaxHealthCapacity` trait declarations in `entity/src/entity.rs` are left out. They have no bodies, so no behaviour comes from them. The optional "change max HP" capability is `HealthValue.SetMax` applied to an entity's `hp`.

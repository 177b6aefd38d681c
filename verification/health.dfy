/** The bounded health value of a game entity: a current `level` that never
    exceeds a capacity `max`, with saturating gain and loss. */
module HealthValue {
  import opened Wrappers
  import opened Unsigned

  /** Current health and capacity. Every value built by `New` and then changed
      only by the operations below satisfies `Valid()`. */
  datatype Health = Health(level: u32, max: u32) {
    predicate Valid() {
      level <= max
    }
  }

  /** The only error: a requested level above the capacity. */
  datatype HealthError = LevelTooHigh {
    /** The human-readable message of the error. */
    function Message(): string {
      "The level of health cannot be higher than max level."
    }
  }

  /** The only log entry: the level reached the capacity. */
  datatype HealthLog = HpMaxedOut {
    /** The human-readable text of the log entry. */
    function Message(): string {
      "HP maxed out"
    }
  }

  /** Accepts `level` exactly when it does not exceed `max`. */
  function Validate(level: u32, max: u32): (r: Result<(), HealthError>)
    ensures r.Ok? <==> level <= max
    ensures r.Err? ==> r.error == LevelTooHigh
  {
    if level > max then Err(LevelTooHigh) else Ok(())
  }

  /** Builds a health value of capacity `max`, at `level` when one is given and
      fully healed otherwise; a given level above `max` is refused. */
  function New(max: u32, level: Option<u32>): (r: Result<Health, HealthError>)
    ensures r.Err? <==> level.Some? && level.value > max
    ensures r.Err? ==> r.error == LevelTooHigh
    ensures r.Ok? ==> r.value.Valid() && r.value.max == max
    ensures r.Ok? && level.None? ==> r.value.level == max
    ensures r.Ok? && level.Some? ==> r.value.level == level.value
  {
    var _ :- if level.Some? then Validate(level.value, max) else Ok(());
    Ok(Health(level := level.GetOr(max), max := max))
  }

  /** Raises the level by `amount`, saturating at `U32_MAX`. When the sum
      reaches the capacity the level is clamped to it and `HpMaxedOut` is
      reported, even when the level was already there and `amount` is zero. */
  function Increase(h: Health, amount: u32): (r: (Health, Option<HealthLog>))
    ensures r.0.max == h.max
    ensures r.0.Valid()
    ensures r.1 == Some(HpMaxedOut) <==> SaturatingAdd(h.level, amount) >= h.max
    ensures r.1 == None <==> SaturatingAdd(h.level, amount) < h.max
    ensures r.1.Some? ==> r.0.level == h.max
    ensures r.1.None? ==> r.0.level == h.level + amount
  {
    var newValue := SaturatingAdd(h.level, amount);
    if newValue >= h.max then
      (h.(level := h.max), Some(HpMaxedOut))
    else
      (h.(level := newValue), None)
  }

  /** Lowers the level by `amount`, stopping at zero. */
  function Decrease(h: Health, amount: u32): (r: Health)
    ensures r.max == h.max
    ensures amount <= h.level ==> r.level == h.level - amount
    ensures amount > h.level ==> r.level == 0
    ensures r.level <= h.level
    ensures h.Valid() ==> r.Valid()
  {
    h.(level := SaturatingSub(h.level, amount))
  }

  /** The current level. */
  function GetLevel(h: Health): u32 {
    h.level
  }

  /** The capacity. */
  function GetMax(h: Health): u32 {
    h.max
  }

  /** Assigns the level when it does not exceed the capacity; otherwise
      reports `LevelTooHigh` and leaves the value as it was. */
  function SetLevel(h: Health, newLevel: u32): (r: (Health, Result<(), HealthError>))
    ensures r.1.Ok? <==> newLevel <= h.max
    ensures r.1.Err? ==> r.1.error == LevelTooHigh && r.0 == h
    ensures r.1.Ok? ==> r.0.level == newLevel && r.0.max == h.max && r.0.Valid()
    ensures h.Valid() ==> r.0.Valid()
  {
    var check := Validate(newLevel, h.max);
    if check.Err? then (h, Err(check.error)) else (h.(level := newLevel), Ok(()))
  }

  /** Changes the capacity and resets the level to it, whatever the previous
      state, whether the capacity shrinks or grows. */
  function SetMax(h: Health, newMax: u32): (r: Health)
    ensures r.max == newMax && r.level == newMax
    ensures r.Valid()
  {
    h.(level := newMax, max := newMax)
  }

  /** Saturation at `U32_MAX` never shows:
      `Increase` is the unbounded sum clamped to the capacity, and it reports
      `HpMaxedOut` exactly when the unbounded sum reaches the capacity. */
  lemma IncreaseIsClampedSum(h: Health, amount: u32)
    ensures Increase(h, amount).0.level == if h.level + amount >= h.max then h.max else h.level + amount
    ensures Increase(h, amount).1.Some? <==> h.level + amount >= h.max
  {
  }

  /** Two gains in a row equal one gain of their saturated total, both in the
      resulting value and in whether `HpMaxedOut` is reported by the second. */
  lemma IncreaseComposes(h: Health, a: u32, b: u32)
    ensures Increase(Increase(h, a).0, b) == Increase(h, SaturatingAdd(a, b))
  {
  }

  /** Two losses in a row equal one loss of their saturated total. */
  lemma DecreaseComposes(h: Health, a: u32, b: u32)
    ensures Decrease(Decrease(h, a), b) == Decrease(h, SaturatingAdd(a, b))
  {
  }

  /** A successful `SetLevel` can be undone by setting the previous level
      back, when the value satisfied the invariant. */
  lemma SetLevelRestores(h: Health, v: u32)
    requires h.Valid()
    ensures SetLevel(h, v).1.Ok? ==> SetLevel(SetLevel(h, v).0, h.level) == (h, Ok(()))
  {
  }

  /** `SetMax` forgets the prior state entirely: two values given the same new
      capacity become equal, and a second `SetMax` to the same capacity is a no-op. */
  lemma SetMaxForgetsPriorState(h1: Health, h2: Health, m: u32)
    ensures SetMax(h1, m) == SetMax(h2, m)
    ensures SetMax(SetMax(h1, m), m) == SetMax(h1, m)
  {
  }

  /** One public mutation of a health value. */
  datatype Op = IncreaseBy(amount: u32) | DecreaseBy(amount: u32) | SetLevelTo(level: u32) | SetMaxTo(max: u32)

  /** The value after performing `op`; return values are dropped. */
  function Apply(h: Health, op: Op): Health {
    match op
    case IncreaseBy(a) => Increase(h, a).0
    case DecreaseBy(a) => Decrease(h, a)
    case SetLevelTo(v) => SetLevel(h, v).0
    case SetMaxTo(m) => SetMax(h, m)
  }

  /** The value after performing every operation of `ops`, first to last. */
  function Run(h: Health, ops: seq<Op>): Health
    decreases |ops|
  {
    if |ops| == 0 then h else Run(Apply(h, ops[0]), ops[1..])
  }

  /** Any sequence of public operations on a valid value leaves it valid. */
  lemma {:induction false} RunPreservesValid(h: Health, ops: seq<Op>)
    requires h.Valid()
    ensures Run(h, ops).Valid()
    decreases |ops|
  {
    if |ops| > 0 {
      RunPreservesValid(Apply(h, ops[0]), ops[1..]);
    }
  }

  /** Only `SetMax` changes the capacity: a sequence without it keeps `max`. */
  lemma {:induction false} RunKeepsMaxWithoutSetMax(h: Health, ops: seq<Op>)
    requires forall i :: 0 <= i < |ops| ==> !ops[i].SetMaxTo?
    ensures Run(h, ops).max == h.max
    decreases |ops|
  {
    if |ops| > 0 {
      RunKeepsMaxWithoutSetMax(Apply(h, ops[0]), ops[1..]);
    }
  }
}

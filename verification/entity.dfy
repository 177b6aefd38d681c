/** A game entity (a player, a monster, a breakable teapot): a wrapper around
    one health value that forwards to it and rewraps its errors and logs. */
module Entities {
  import opened Wrappers
  import opened Unsigned
  import HealthValue

  /** A unit of the game that owns health points. */
  datatype Entity = Entity(hp: HealthValue.Health) {
    predicate Valid() {
      hp.Valid()
    }
  }

  /** Errors of an entity: a health error, wrapped. */
  datatype EntityError = HeathError(err: HealthValue.HealthError) {
    /** The message of the wrapped health error. */
    function Message(): string {
      match this
      case HeathError(e) => e.Message()
    }
  }

  /** Logs of an entity: a health log, wrapped. */
  datatype EntityLog = Hp(log: HealthValue.HealthLog) {
    /** The text of the wrapped health log. */
    function Message(): string {
      match this
      case Hp(l) => l.Message()
    }
  }

  /** Builds an entity around `HealthValue.New(maxHealth, health)`, wrapping
      its error. */
  function New(maxHealth: u32, health: Option<u32>): (r: Result<Entity, EntityError>)
    ensures r.Err? <==> HealthValue.New(maxHealth, health).Err?
    ensures r.Err? ==> r.error == HeathError(HealthValue.LevelTooHigh)
    ensures r.Ok? ==> r.value.hp == HealthValue.New(maxHealth, health).value
    ensures r.Ok? ==> r.value.Valid()
    ensures r.Ok? ==> r.value.hp.level == health.GetOr(maxHealth) && r.value.hp.max == maxHealth
  {
    match HealthValue.New(maxHealth, health).MapErr(e => HeathError(e))
    case Err(e) => Err(e)
    case Ok(hp) => Ok(Entity(hp))
  }

  /** The current health points: the embedded value's level. */
  function GetCurrentHp(e: Entity): (r: u32)
    ensures r == e.hp.level
  {
    HealthValue.GetLevel(e.hp)
  }

  /** The health capacity: the embedded value's maximum. */
  function GetMaxHp(e: Entity): (r: u32)
    ensures r == e.hp.max
  {
    HealthValue.GetMax(e.hp)
  }

  /** Heals the entity through `HealthValue.Increase`, wrapping its log. */
  function GainHp(e: Entity, amount: u32): (r: (Entity, Option<EntityLog>))
    ensures r.0.hp == HealthValue.Increase(e.hp, amount).0
    ensures r.1 == Some(Hp(HealthValue.HpMaxedOut)) <==> HealthValue.Increase(e.hp, amount).1 == Some(HealthValue.HpMaxedOut)
    ensures r.1 == None <==> HealthValue.Increase(e.hp, amount).1 == None
    ensures r.0.Valid()
  {
    var (hp, log) := HealthValue.Increase(e.hp, amount);
    (Entity(hp), log.Map(l => Hp(l)))
  }

  /** Hurts the entity through `HealthValue.Decrease`. */
  function LoseHp(e: Entity, amount: u32): (r: Entity)
    ensures r.hp == HealthValue.Decrease(e.hp, amount)
    ensures e.Valid() ==> r.Valid()
  {
    Entity(HealthValue.Decrease(e.hp, amount))
  }

  /** Gaining health lands on the unbounded sum clamped to the capacity, and
      logs exactly when that sum reaches it. */
  lemma GainHpIsClampedSum(e: Entity, amount: u32)
    ensures GetCurrentHp(GainHp(e, amount).0)
      == if GetCurrentHp(e) + amount >= GetMaxHp(e) then GetMaxHp(e) else GetCurrentHp(e) + amount
    ensures GetMaxHp(GainHp(e, amount).0) == GetMaxHp(e)
    ensures GainHp(e, amount).1.Some? <==> GetCurrentHp(e) + amount >= GetMaxHp(e)
  {
  }

  /** The entity's texts are those of the health error and log it wraps. */
  lemma MessagesForward(err: HealthValue.HealthError, log: HealthValue.HealthLog)
    ensures HeathError(err).Message() == err.Message()
      == "The level of health cannot be higher than max level."
    ensures Hp(log).Message() == log.Message() == "HP maxed out"
  {
  }
}

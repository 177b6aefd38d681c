/** The concrete scenarios the repository's tests exercise, proved of the model. */
module Scenarios {
  import opened Wrappers
  import opened HealthValue
  import Entities

  /** Construction: a level above the capacity is refused; no level means full health. */
  lemma NewScenarios()
    ensures HealthValue.New(1, Some(2)) == Err(LevelTooHigh)
    ensures HealthValue.New(5, None) == Ok(Health(5, 5))
    ensures HealthValue.New(5, Some(4)) == Ok(Health(4, 5))
  {
  }

  /** Gaining 2 from 0 of 10 gives 2; gaining 10 more clamps to 10 and logs. */
  lemma IncreaseScenario()
    ensures Increase(Health(0, 10), 2) == (Health(2, 10), None)
    ensures Increase(Health(2, 10), 10) == (Health(10, 10), Some(HpMaxedOut))
  {
  }

  /** Losing 2 from 10 gives 8; losing 10 more stops at 0. */
  lemma DecreaseScenario()
    ensures Decrease(Health(10, 10), 2) == Health(8, 10)
    ensures Decrease(Health(8, 10), 10) == Health(0, 10)
  {
  }

  /** Setting level 2 of 10 succeeds; setting 11 is refused. */
  lemma SetLevelScenario()
    ensures SetLevel(Health(10, 10), 2) == (Health(2, 10), Ok(()))
    ensures SetLevel(Health(2, 10), 11) == (Health(2, 10), Err(LevelTooHigh))
  {
  }

  /** Shrinking 120 to 8 and growing 8 to 10 both snap the level to the
      capacity; so do growing 1 to 8 and shrinking 8 to 7. */
  lemma SetMaxScenario()
    ensures SetMax(Health(120, 120), 8) == Health(8, 8)
    ensures SetMax(Health(8, 8), 10) == Health(10, 10)
    ensures SetMax(Health(1, 1), 8) == Health(8, 8)
    ensures SetMax(Health(8, 8), 7) == Health(7, 7)
  {
  }

  /** Entities: a teapot of 1, a hero at 8000 of 10000, and a refused 12 of 10. */
  lemma EntityNewScenario()
    ensures Entities.New(1, None) == Ok(Entities.Entity(Health(1, 1)))
    ensures Entities.New(10000, Some(8000)) == Ok(Entities.Entity(Health(8000, 10000)))
    ensures Entities.New(10, Some(12)) == Err(Entities.HeathError(LevelTooHigh))
  {
  }

  /** An entity at 0 of 5 gaining 6 stops at 5; one at 1 losing 10 stops at 0. */
  lemma EntityGainLoseScenario()
    ensures Entities.GainHp(Entities.Entity(Health(0, 5)), 6).0 == Entities.Entity(Health(5, 5))
    ensures Entities.LoseHp(Entities.Entity(Health(1, 1)), 10) == Entities.Entity(Health(0, 1))
  {
  }
}

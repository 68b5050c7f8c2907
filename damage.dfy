/**
 * The entity's damage handler (EntityDamageHandler.cs): health, damage
 * intake and the death activity. The death activity's start handlers belong
 * to other components; `deathStarts` counts how often they were run.
 */
module Damage {
  import opened Types
  import Activities

  /** The damage event; only the amount is read by the handler. */
  datatype DamageEventArgs = DamageEventArgs(damage: real)

  /**
   * The death start condition as written: it calls itself and never
   * returns. `fuel` bounds the number of calls followed; no amount of fuel
   * yields an answer.
   */
  function CanDieAsWritten(fuel: nat): Option<bool>
  {
    if fuel == 0 then None else CanDieAsWritten(fuel - 1)
  }

  /** However many calls are followed, the condition as written never produces a value. */
  lemma {:induction false} CanDieAsWrittenNeverAnswers(fuel: nat)
    ensures CanDieAsWritten(fuel) == None
  {
    if fuel > 0 {
      CanDieAsWrittenNeverAnswers(fuel - 1);
    }
  }

  /**
   * The death start condition as intended: the comments at both forced
   * starts say it is always met, so it holds unconditionally.
   */
  predicate CanDie()
  {
    true
  }

  class EntityDamageHandler {
    var health: real
    /** How many times the death activity was started, i.e. its start handlers ran. */
    var deathStarts: nat

    constructor (health: real)
      ensures this.health == health && deathStarts == 0
    {
      this.health := health;
      deathStarts := 0;
    }

    /** The activity getter of death. */
    predicate IsDead()
      reads this
    {
      health <= 0.0
    }

    /** The health setter: a non-positive value forces death to start, even when already dead. */
    method SetHealth(h: real)
      modifies this
      ensures health == h
      ensures deathStarts == old(deathStarts) + (if h <= 0.0 then 1 else 0)
    {
      health := h;
      if health <= 0.0 {
        deathStarts := deathStarts + 1;
      }
    }

    /**
     * The damage handler: health falls by the damage times the damage-taken
     * multiplier, with no floor at zero, and a non-positive result forces
     * death to start, even when already dead.
     */
    method OnHandleDamage(args: DamageEventArgs, damageTaken: real)
      modifies this
      ensures health == old(health) - args.damage * damageTaken
      ensures deathStarts == old(deathStarts) + (if health <= 0.0 then 1 else 0)
    {
      health := health - args.damage * damageTaken;
      if health <= 0.0 {
        deathStarts := deathStarts + 1;
      }
    }

    /** Taking damage fires the damage event, whose handler is `OnHandleDamage`. */
    method TakeDamage(args: DamageEventArgs, damageTaken: real)
      modifies this
      ensures health == old(health) - args.damage * damageTaken
      ensures deathStarts == old(deathStarts) + (if health <= 0.0 then 1 else 0)
    {
      OnHandleDamage(args, damageTaken);
    }

    /** An attempt to start death, with the intended condition: it succeeds exactly while alive. */
    method TryStartDeath() returns (started: bool)
      modifies this`deathStarts
      ensures started == !old(IsDead())
      ensures deathStarts == old(deathStarts) + (if started then 1 else 0)
    {
      started := Activities.TryStartSucceeds(IsDead(), CanDie());
      if started {
        deathStarts := deathStarts + 1;
      }
    }
  }

  /**
   * Two lethal hits in a row: death is started by each, because the forced
   * start does not look at whether the entity is already dead.
   */
  method LethalHitsRestartDeath(health: real, damage: real) returns (starts: nat)
    requires 0.0 <= damage && health <= damage
    ensures starts == 2
  {
    var handler := new EntityDamageHandler(health);
    handler.OnHandleDamage(DamageEventArgs(damage), 1.0);
    handler.OnHandleDamage(DamageEventArgs(damage), 1.0);
    starts := handler.deathStarts;
  }
}

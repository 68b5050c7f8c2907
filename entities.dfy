/**
 * The entity container (Entity.cs) and the starting values of its model
 * (EntityModel.cs). Components are opaque identifiers; the registration
 * hook each one runs is recorded in `registered`, in call order, since what
 * a hook subscribes belongs to that component.
 */
module Entities {
  import Damage

  type ComponentId = nat

  /** The fields of the entity model that carry a starting value. */
  class EntityModel {
    /** The maximum amount of health. */
    var maxHealth: real
    /** The multiplier for damage taken. */
    var damageTaken: real

    constructor ()
      ensures maxHealth == 100.0 && damageTaken == 1.0
    {
      maxHealth := 100.0;
      damageTaken := 1.0;
    }
  }

  /**
   * An entity whose damage handler starts at the model's maximum health
   * and takes one hit with the model's damage multiplier: the hit costs
   * exactly its damage, so the entity dies exactly when the hit is at
   * least the maximum health, and death then starts once.
   */
  method DefaultEntityTakesHit(damage: real) returns (health: real, dead: bool, deathStarts: nat)
    ensures health == 100.0 - damage
    ensures dead <==> damage >= 100.0
    ensures deathStarts == (if dead then 1 else 0)
  {
    var model := new EntityModel();
    var handler := new Damage.EntityDamageHandler(model.maxHealth);
    handler.OnHandleDamage(Damage.DamageEventArgs(damage), model.damageTaken);
    health := handler.health;
    dead := handler.IsDead();
    deathStarts := handler.deathStarts;
  }

  class Entity {
    var controller: ComponentId
    var model: EntityModel
    /** The components of this entity, as last collected. */
    var components: seq<ComponentId>
    /** Every registration hook run so far, in order. */
    var registered: seq<ComponentId>

    constructor (controller: ComponentId, model: EntityModel)
      ensures this.controller == controller && this.model == model
      ensures components == [] && registered == []
    {
      this.controller := controller;
      this.model := model;
      components := [];
      registered := [];
    }

    /**
     * Start: the component list becomes exactly the components found on the
     * entity, and each one's registration hook runs once, in list order.
     */
    method Start(discovered: seq<ComponentId>)
      modifies this`components, this`registered
      ensures components == discovered
      ensures registered == old(registered) + discovered
    {
      components := discovered;
      var i := 0;
      while i < |components|
        invariant 0 <= i <= |components| && components == discovered
        invariant registered == old(registered) + components[..i]
      {
        registered := registered + [components[i]];
        i := i + 1;
      }
    }
  }

  /**
   * A freshly made entity that starts: its hooks run once per component,
   * in component order, and nothing else runs.
   */
  method StartFreshEntity(controller: ComponentId, discovered: seq<ComponentId>) returns (hooks: seq<ComponentId>)
    ensures hooks == discovered
  {
    var model := new EntityModel();
    var e := new Entity(controller, model);
    e.Start(discovered);
    hooks := e.registered;
  }
}

/**
 * Health and the death rule: every entity whose current health has dropped to zero
 * or below is despawned, and nothing else happens to the world.
 */
module Object {
  import opened Ecs

  /** `Health`: the maximum and the current hit points. */
  datatype Health = Health(maxHealth: real, currentHealth: real)

  /** An entity with this health is removed by the death rule. */
  predicate Dead(h: Health) {
    h.currentHealth <= 0.0
  }

  /** `Health::default`: one hit point out of one, so a fresh entity is alive. */
  function DefaultHealth(): (h: Health)
    ensures h.maxHealth == 1.0 && h.currentHealth == 1.0
    ensures !Dead(h)
  {
    Health(1.0, 1.0)
  }

  /** The entities with a `Health` component that survive one run of the death rule. */
  function Survivors(healths: map<Entity, Health>): (r: map<Entity, Health>)
    ensures forall e :: e in r <==> e in healths && healths[e].currentHealth > 0.0
    ensures forall e :: e in r ==> r[e] == healths[e]
  {
    map e | e in healths && !Dead(healths[e]) :: healths[e]
  }

  /** The despawn commands the death rule issues: exactly the dead entities. */
  function Doomed(healths: map<Entity, Health>): set<Entity> {
    set e | e in healths && Dead(healths[e])
  }

  /** Despawning the doomed entities leaves exactly the survivors. */
  lemma RemovingDoomedLeavesSurvivors(healths: map<Entity, Health>)
    ensures healths - Doomed(healths) == Survivors(healths)
  {
  }

  /** Running the rule again on its own result removes nothing more. */
  lemma SurvivorsIdempotent(healths: map<Entity, Health>)
    ensures Survivors(Survivors(healths)) == Survivors(healths)
  {
  }

  /**
   * Only the current health decides: two worlds with the same entities and the same
   * current health lose the same entities, whatever their maximum health.
   */
  lemma SurvivorsIgnoreMaxHealth(a: map<Entity, Health>, b: map<Entity, Health>)
    requires a.Keys == b.Keys
    requires forall e :: e in a ==> a[e].currentHealth == b[e].currentHealth
    ensures Survivors(a).Keys == Survivors(b).Keys
  {
  }

  /** The test scenario of the repository: an entity at exactly zero health is despawned. */
  lemma ZeroHealthDies(healths: map<Entity, Health>, e: Entity)
    requires e in healths && healths[e].currentHealth == 0.0
    ensures e !in Survivors(healths)
  {
  }

  /** The entities that carry a `Health` component. */
  class World {
    var healths: map<Entity, Health>

    constructor (healths: map<Entity, Health>)
      ensures this.healths == healths
    {
      this.healths := healths;
    }

    /**
     * `death`: one pass over every entity with `Health`, queuing a despawn command
     * for each dead one; the queued commands are applied after the pass. No `Health`
     * value is changed and every survivor keeps its own.
     */
    method Death()
      modifies this
      ensures healths == Survivors(old(healths))
    {
      var pending := healths.Keys;
      var commands: set<Entity> := {};
      while pending != {}
        invariant pending <= healths.Keys
        invariant commands == set e | e in healths && e !in pending && Dead(healths[e])
        decreases pending
      {
        var e :| e in pending;
        if healths[e].currentHealth <= 0.0 {
          commands := commands + {e};
        }
        pending := pending - {e};
      }
      assert commands == Doomed(healths);
      RemovingDoomedLeavesSurvivors(healths);
      healths := healths - commands;
    }
  }
}

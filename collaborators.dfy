/**
 * Objects the session creates, stores and calls into, but whose own code is not
 * part of this model. Each is an opaque reference with the few fields the session
 * reads; every call the session makes into one is recorded in the session's log.
 */
module Collaborators {
  import opened Packets

  /** A per-object record of the realm, created on the first packet that names its id. */
  class Entity {
    const id: int
    const createdAt: int
    /** Stat type to value, as the records applied so far left them. */
    var stats: map<int, int>

    constructor (id: int, time: int)
      ensures this.id == id && createdAt == time
      ensures stats == map[]
    {
      this.id := id;
      createdAt := time;
      stats := map[];
    }

    /** The current value of stat `statType`, or 0 before any record carried it. */
    function StatValue(statType: int): int
      reads this
    {
      if statType in stats then stats[statType] else 0
    }

    /** `entityUpdate(objectType, status, time)`: the stats the record carries overwrite the entity's. */
    method ApplyObject(objectType: int, status: ObjectStatus, time: int)
      modifies this
      ensures stats == old(stats) + status.stats
    {
      stats := stats + status.stats;
    }

    /** `updateStats(status, time)`: the stats the tick record carries overwrite the entity's. */
    method UpdateStats(status: ObjectStatus, time: int)
      modifies this
      ensures stats == old(stats) + status.stats
    {
      stats := stats + status.stats;
    }
  }

  /** The realm's deterministic generator, created from the realm's seed. */
  class Rng {
    const seed: int

    constructor (seed: int)
      ensures this.seed == seed
    {
      this.seed := seed;
    }
  }

  /** What a projectile was built from: the three constructors of the Java class. */
  datatype ProjectileSource =
    | PlayerShot(rng: Rng?, shooter: Entity?, weaponId: int, projectileId: int)
    | SpellShot(damage: int, containerType: int)
    | DamageLiteral(amount: int)

  class Projectile {
    const source: ProjectileSource

    constructor (source: ProjectileSource)
      ensures this.source == source
    {
      this.source := source;
    }
  }

  /** One vault aggregate (regular or seasonal); its merging logic is not modelled. */
  class VaultData {
    constructor ()
    {
    }
  }

  /**
   * The process-wide exaltation side table (`RealmCharacter.exalts`): object type
   * to the eight progress values. It belongs to no session.
   */
  class ExaltTable {
    var exalts: map<int, seq<int>>

    constructor ()
      ensures exalts == map[]
    {
      exalts := map[];
    }
  }
}

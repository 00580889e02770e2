/**
 * Specification functions of the realm session: the calls it makes into its
 * collaborators, recorded as a log, and the id sets its handlers add.
 */
module SessionSpec {
  import opened Packets
  import opened Collaborators
  import Crystals

  /** One call the session makes into a collaborator whose code is not modelled. */
  datatype Call =
    | UpdateEntity(id: int, objectType: int, status: ObjectStatus, time: int)   // Entity.entityUpdate
    | UpdateEntityStats(id: int, status: ObjectStatus, time: int)               // Entity.updateStats
    | SetUserFlag(id: int)                                                      // Entity.setUser(true)
    | DropEntity(id: int, time: int)                                            // Entity.entityDropped
    | ProjectileHit(targetId: int, attacker: Entity?, projectile: Projectile?, time: int)  // Entity.userProjectileHit
    | DamageHit(targetId: int, attacker: Entity?, damageSource: Projectile, time: int)      // Entity.genericDamageHit
    | ClearProjectile(cleared: Projectile)                                      // Projectile.clear
    | UpdateVault(vault: VaultData, packet: VaultContentPacket)                 // VaultData.vaultPacketUpdate
    | ClearVaultChars(vault: VaultData)                                         // VaultData.clearChar
    | UpdateVaultCharInventory(vault: VaultData, character: RealmCharacter)     // VaultData.updateCharInventory

  /** Appending to a log in two steps is appending the joined tail once. */
  lemma AppendAssoc<T>(a: seq<T>, b: seq<T>, c: seq<T>)
    ensures a + b + c == a + (b + c)
  {
  }

  /** `HashMap.get`: the entry of `k`, or null. */
  function Lookup(m: map<int, Entity>, k: int): (e: Entity?)
    ensures e != null <==> k in m
    ensures k in m ==> e == m[k]
  {
    if k in m then m[k] else null
  }

  /** The ids of the first `n` new-object records. */
  function ObjectIds(objs: seq<ObjectData>, n: nat): set<int>
    requires n <= |objs|
  {
    if n == 0 then {} else ObjectIds(objs, n - 1) + {objs[n - 1].status.objectId}
  }

  /** The ids among them that are crystal markers. */
  function CrystalIds(objs: seq<ObjectData>, n: nat): set<int>
    requires n <= |objs|
  {
    if n == 0 then {}
    else
      var id := objs[n - 1].status.objectId;
      CrystalIds(objs, n - 1) + (if Crystals.IsCrystal(id) then {id} else {})
  }

  /** The ids among them whose object type is a player class. */
  function PlayerIds(objs: seq<ObjectData>, n: nat, playerTypes: set<int>): set<int>
    requires n <= |objs|
  {
    if n == 0 then {}
    else
      var o := objs[n - 1];
      PlayerIds(objs, n - 1, playerTypes) + (if o.objectType in playerTypes then {o.status.objectId} else {})
  }

  /** Some record among them is a player-class object carrying the local player's id. */
  predicate FilesUser(objs: seq<ObjectData>, n: nat, playerTypes: set<int>, worldPlayerId: int)
    requires n <= |objs|
  {
    if n == 0 then false
    else
      var o := objs[n - 1];
      FilesUser(objs, n - 1, playerTypes, worldPlayerId) || (o.objectType in playerTypes && o.status.objectId == worldPlayerId)
  }

  /** The ids of the first `n` status records. */
  function StatusIds(status: seq<ObjectStatus>, n: nat): set<int>
    requires n <= |status|
  {
    if n == 0 then {} else StatusIds(status, n - 1) + {status[n - 1].objectId}
  }

  /** The stats of entity `id` after its records among the first `n` new objects overwrote `prior`, in order. */
  function ObjectStats(prior: map<int, int>, objs: seq<ObjectData>, n: nat, id: int): map<int, int>
    requires n <= |objs|
  {
    if n == 0 then prior
    else
      var before := ObjectStats(prior, objs, n - 1, id);
      if objs[n - 1].status.objectId == id then before + objs[n - 1].status.stats else before
  }

  /** The stats of entity `id` after its records among the first `n` status records overwrote `prior`, in order. */
  function StatusStats(prior: map<int, int>, status: seq<ObjectStatus>, n: nat, id: int): map<int, int>
    requires n <= |status|
  {
    if n == 0 then prior
    else
      var before := StatusStats(prior, status, n - 1, id);
      if status[n - 1].objectId == id then before + status[n - 1].stats else before
  }

  /** An entity no new-object record names keeps its stats. */
  lemma {:induction false} ObjectStatsUntouched(prior: map<int, int>, objs: seq<ObjectData>, n: nat, id: int)
    requires n <= |objs| && id !in ObjectIds(objs, n)
    ensures ObjectStats(prior, objs, n, id) == prior
  {
    if n > 0 {
      ObjectStatsUntouched(prior, objs, n - 1, id);
    }
  }

  /** An entity no status record names keeps its stats. */
  lemma {:induction false} StatusStatsUntouched(prior: map<int, int>, status: seq<ObjectStatus>, n: nat, id: int)
    requires n <= |status| && id !in StatusIds(status, n)
    ensures StatusStats(prior, status, n, id) == prior
  {
    if n > 0 {
      StatusStatsUntouched(prior, status, n - 1, id);
    }
  }

  /**
   * A stat of an entity holds the value of the last status record that names the
   * entity and carries the stat; later records that do not carry it leave it alone.
   */
  lemma {:induction false} StatusStatsLastWins(
    prior: map<int, int>, status: seq<ObjectStatus>, n: nat, id: int, k: nat, statType: int)
    requires k < n <= |status|
    requires status[k].objectId == id && statType in status[k].stats
    requires forall j :: k < j < n && status[j].objectId == id ==> statType !in status[j].stats
    ensures statType in StatusStats(prior, status, n, id)
    ensures StatusStats(prior, status, n, id)[statType] == status[k].stats[statType]
  {
    if n - 1 > k {
      StatusStatsLastWins(prior, status, n - 1, id, k, statType);
    }
  }

  /**
   * A stat of an entity holds the value of the last new-object record that names the
   * entity and carries the stat; later records that do not carry it leave it alone.
   */
  lemma {:induction false} ObjectStatsLastWins(
    prior: map<int, int>, objs: seq<ObjectData>, n: nat, id: int, k: nat, statType: int)
    requires k < n <= |objs|
    requires objs[k].status.objectId == id && statType in objs[k].status.stats
    requires forall j :: k < j < n && objs[j].status.objectId == id ==> statType !in objs[j].status.stats
    ensures statType in ObjectStats(prior, objs, n, id)
    ensures ObjectStats(prior, objs, n, id)[statType] == objs[k].status.stats[statType]
  {
    if n - 1 > k {
      ObjectStatsLastWins(prior, objs, n - 1, id, k, statType);
    }
  }

  /** The ids of a run of dropped ids, as a set. */
  function DropIds(drops: seq<int>): set<int> {
    if drops == [] then {}
    else DropIds(drops[..|drops| - 1]) + {drops[|drops| - 1]}
  }

  /** The calls `entityUpdate` makes for one new-object record. */
  function ObjectCalls(o: ObjectData, playerTypes: set<int>, worldPlayerId: int, time: int): seq<Call> {
    [UpdateEntity(o.status.objectId, o.objectType, o.status, time)]
    + (if o.objectType in playerTypes && o.status.objectId == worldPlayerId then [SetUserFlag(o.status.objectId)] else [])
  }

  /** The calls `entityUpdate` makes for the first `n` records, in order. */
  function NewObjectCalls(objs: seq<ObjectData>, n: nat, playerTypes: set<int>, worldPlayerId: int, time: int): seq<Call>
    requires n <= |objs|
  {
    if n == 0 then []
    else NewObjectCalls(objs, n - 1, playerTypes, worldPlayerId, time) + ObjectCalls(objs[n - 1], playerTypes, worldPlayerId, time)
  }

  /** The drop notifications of an update: only ids with an entity are notified. */
  function DropCalls(drops: seq<int>, known: set<int>, time: int): seq<Call> {
    if drops == [] then []
    else DropCalls(drops[..|drops| - 1], known, time)
         + (if drops[|drops| - 1] in known then [DropEntity(drops[|drops| - 1], time)] else [])
  }

  /** The `updateStats` calls of a tick for its first `n` status records, in order. */
  function TickCalls(status: seq<ObjectStatus>, n: nat, time: int): seq<Call>
    requires n <= |status|
  {
    if n == 0 then []
    else TickCalls(status, n - 1, time) + [UpdateEntityStats(status[n - 1].objectId, status[n - 1], time)]
  }

  /** The `clear()` calls of a reset: one per occupied slot, in slot order. */
  function ClearCalls(slots: seq<Projectile?>): seq<Call> {
    if slots == [] then []
    else ClearCalls(slots[..|slots| - 1])
         + (if slots[|slots| - 1] != null then [ClearProjectile(slots[|slots| - 1])] else [])
  }

  /**
   * A projectile is cleared once per slot that holds it, so a spell projectile
   * shared by k slots is cleared k times.
   */
  lemma {:induction false} ClearCallsCount(slots: seq<Projectile?>, p: Projectile)
    ensures multiset(ClearCalls(slots))[ClearProjectile(p)] == multiset(slots)[p]
  {
    if slots != [] {
      var init, last := slots[..|slots| - 1], slots[|slots| - 1];
      ClearCallsCount(init, p);
      assert slots == init + [last];
    }
  }

  /** The `updateCharInventory` calls of a roster: each character to the vault its own flag selects. */
  function CharInventoryCalls(cs: seq<RealmCharacter>, regular: VaultData, seasonal: VaultData): (r: seq<Call>)
    ensures |r| == |cs|
    ensures forall i :: 0 <= i < |cs| ==>
      r[i] == UpdateVaultCharInventory(if cs[i].seasonal then seasonal else regular, cs[i])
  {
    if cs == [] then []
    else
      var last := cs[|cs| - 1];
      CharInventoryCalls(cs[..|cs| - 1], regular, seasonal)
      + [UpdateVaultCharInventory(if last.seasonal then seasonal else regular, last)]
  }

  /** The characters of a roster whose seasonal flag is `seasonal`, in order. */
  function WithSeason(cs: seq<RealmCharacter>, seasonal: bool): seq<RealmCharacter> {
    if cs == [] then []
    else WithSeason(cs[..|cs| - 1], seasonal) + (if cs[|cs| - 1].seasonal == seasonal then [cs[|cs| - 1]] else [])
  }

  /** The characters a vault holds contributions from: those given to it since its last `clearChar`. */
  function CharContributions(log: seq<Call>, vault: VaultData): seq<RealmCharacter> {
    if log == [] then []
    else
      var last := log[|log| - 1];
      if last == ClearVaultChars(vault) then []
      else if last.UpdateVaultCharInventory? && last.vault == vault then
        CharContributions(log[..|log| - 1], vault) + [last.character]
      else CharContributions(log[..|log| - 1], vault)
  }

  /**
   * After a roster update each vault holds exactly the roster's characters of its
   * kind: nothing from an earlier roster survives the two `clearChar` calls.
   */
  lemma {:induction false} RosterContributions(
    prefix: seq<Call>, cs: seq<RealmCharacter>, regular: VaultData, seasonal: VaultData)
    requires regular != seasonal
    ensures CharContributions(prefix + [ClearVaultChars(seasonal), ClearVaultChars(regular)]
                              + CharInventoryCalls(cs, regular, seasonal), seasonal) == WithSeason(cs, true)
    ensures CharContributions(prefix + [ClearVaultChars(seasonal), ClearVaultChars(regular)]
                              + CharInventoryCalls(cs, regular, seasonal), regular) == WithSeason(cs, false)
  {
    var head := prefix + [ClearVaultChars(seasonal), ClearVaultChars(regular)];
    if cs == [] {
      assert head[..|head| - 1] == prefix + [ClearVaultChars(seasonal)];
      assert head + CharInventoryCalls(cs, regular, seasonal) == head;
    } else {
      var init, last := cs[..|cs| - 1], cs[|cs| - 1];
      RosterContributions(prefix, init, regular, seasonal);
      var log := head + CharInventoryCalls(cs, regular, seasonal);
      assert log == (head + CharInventoryCalls(init, regular, seasonal))
                    + [UpdateVaultCharInventory(if last.seasonal then seasonal else regular, last)];
    }
  }
}

/**
 * The realm-session state engine (`TomatoData`): one object that takes packet
 * events in arrival order and keeps the tile grid, the entity registry and its
 * player and hit sub-maps, the projectile table, the crystal tracker and the
 * routing into the two vault aggregates.
 */
module RealmSession {
  import opened Wrappers
  import opened JavaInt
  import opened Packets
  import opened Collaborators
  import opened SessionSpec
  import opened Filing
  import Crystals
  import TileGrid
  import Sets

  const GridSize: nat := 2048
  const SlotCount: nat := 512

  /** The slot `j % 256 + 256` (Java remainder) that spell bullet `j` is written to. */
  function SpellSlot(j: int): (slot: int)
    ensures 0 < slot < SlotCount
    ensures j >= 0 ==> 256 <= slot && slot == j % 256 + 256
    ensures j < 0 && j % 256 != 0 ==> slot < 256
  {
    Rem256(j) + 256
  }

  /** The slots a spell fan-out over bullet ids `from <= j < to` writes. */
  function SpellSlots(from: int, to: int): (r: set<int>)
    ensures forall j :: from <= j < to ==> SpellSlot(j) in r
    ensures forall s :: s in r ==> 0 < s < SlotCount
    ensures from >= 0 ==> (forall s :: s in r ==> 256 <= s)
    decreases if to <= from then 0 else to - from
  {
    if to <= from then {} else SpellSlots(from, to - 1) + {SpellSlot(to - 1)}
  }

  /** Every slot a fan-out writes is the slot of one of its bullet ids. */
  lemma {:induction false} SpellSlotsOnly(from: int, to: int)
    ensures forall s :: s in SpellSlots(from, to) ==> exists j :: from <= j < to && SpellSlot(j) == s
    decreases if to <= from then 0 else to - from
  {
    if from < to {
      SpellSlotsOnly(from, to - 1);
    }
  }

  /** The slots a server-shoot packet writes: none unless it carries spell-bullet data. */
  function ShotSlots(p: ServerPlayerShootPacket): (r: set<int>)
    requires IsInt32(p.bulletId) && IsInt32(p.bulletCount)
    ensures !p.spellBulletData ==> r == {}
    ensures forall s :: s in r ==> 0 < s < SlotCount
  {
    if p.spellBulletData then SpellSlots(p.bulletId, Wrap32(p.bulletId + p.bulletCount)) else {}
  }

  /**
   * A slot is written exactly when the packet carries spell-bullet data and the slot is that
   * of a bullet id from `bulletId` up to the int32-wrapped `bulletId + bulletCount`.
   */
  lemma ShotSlotsExactly(p: ServerPlayerShootPacket)
    requires IsInt32(p.bulletId) && IsInt32(p.bulletCount)
    ensures forall s :: s in ShotSlots(p) <==>
      p.spellBulletData && exists j :: p.bulletId <= j < Wrap32(p.bulletId + p.bulletCount) && SpellSlot(j) == s
  {
    SpellSlotsOnly(p.bulletId, Wrap32(p.bulletId + p.bulletCount));
  }

  class TomatoData {
    var realmMap: Option<MapInfoPacket>
    var worldPlayerId: int
    var charId: int
    var time: int
    var player: Entity?
    const mapTiles: array2<int>
    var entityList: map<int, Entity>
    var playerList: map<int, Entity>
    const projectiles: array<Projectile?>
    var rng: Rng?
    var crystalTracker: set<int>
    var entityHitList: map<int, Entity>
    const regularVault: VaultData
    const seasonalVault: VaultData
    var chars: Option<seq<RealmCharacter>>
    /** The process-wide exaltation table, shared with every other session. */
    const exaltTable: ExaltTable
    /** The object types `CharacterClass.isPlayerCharacter` accepts: the player classes. */
    const playerClasses: set<int>
    /** The stat type code of `StatType.UNKNOWN24`, the stat that routes vault updates. */
    const unknown24Stat: int
    /** Every call made into a collaborator, in order. */
    ghost var calls: seq<Call>
    /** Every entity this session has created: the objects its handlers may change. */
    ghost var entityRepr: set<Entity>

    /**
     * The cross-references the handlers keep: entities are filed under their own id,
     * the player and hit maps hold registry entries, the cached local player is a filed
     * player, and the tracker holds only crystal ids that have an entity.
     */
    ghost predicate Valid()
      reads this`entityList, this`playerList, this`entityHitList, this`player, this`crystalTracker, this`entityRepr
    {
      && mapTiles.Length0 == GridSize && mapTiles.Length1 == GridSize
      && projectiles.Length == SlotCount
      && regularVault != seasonalVault
      && Consistent(entityList, playerList, entityHitList, player, crystalTracker)
      && entityList.Values <= entityRepr
    }

    /** The registry part of the session, as a value. */
    ghost function Snapshot(): Registry
      reads this`entityList, this`playerList, this`player, this`crystalTracker, this`calls
    {
      Registry(entityList, playerList, player, crystalTracker, calls)
    }

    /** Each registered entity's stats, under its id. */
    ghost function EntityStats(): map<int, map<int, int>>
      reads this`entityList, entityList.Values
    {
      map k | k in entityList :: entityList[k].stats
    }

    /** The entity filed under `id`, if any: the one object a handler for `id` may change. */
    function Touched(id: int): set<Entity>
      reads this`entityList
    {
      if id in entityList then {entityList[id]} else {}
    }

    /**
     * Every filed entity holds the stats snapshot `s0` gave it (none if it was not yet
     * filed), overwritten in order by the first `n` new-object records naming it.
     */
    ghost predicate ObjectStatsFollow(s0: map<int, map<int, int>>, objs: seq<ObjectData>, n: nat)
      requires n <= |objs|
      reads this`entityList, entityList.Values
    {
      forall k :: k in entityList ==> entityList[k].stats == ObjectStats(StatsOf(s0, k), objs, n, k)
    }

    /** The new-object loop's state after `n` records: the run so far (the stats it left are `ObjectStatsFollow`). */
    ghost predicate ObjectsFiled(r0: Registry, s0: map<int, map<int, int>>, objs: seq<ObjectData>, n: nat)
      reads this`entityList, this`playerList, this`player, this`crystalTracker, this`calls,
        this`worldPlayerId, this`time
    {
      && n <= |objs|
      && FiledRun(r0, objs, n, playerClasses, worldPlayerId, time, Snapshot())
      && s0.Keys == r0.entities.Keys
    }

    /** Before any record, every entity holds its own snapshot stats. */
    lemma ObjectStatsStart(objs: seq<ObjectData>)
      ensures EntityStats().Keys == entityList.Keys
      ensures ObjectStatsFollow(EntityStats(), objs, 0)
    {
    }

    /** Before any status record, every entity holds its own snapshot stats. */
    lemma StatusStatsStart(status: seq<ObjectStatus>)
      ensures EntityStats().Keys == entityList.Keys
      ensures StatusStatsFollow(EntityStats(), status, 0)
    {
    }

    /** The status loop's state after `n` records: the run so far (the stats it left are `StatusStatsFollow`). */
    ghost predicate StatusApplied(
      e0: map<int, Entity>, log0: seq<Call>, s0: map<int, map<int, int>>, status: seq<ObjectStatus>, n: nat)
      reads this`entityList, this`calls, this`time
    {
      && n <= |status|
      && TickRun(e0, log0, status, n, time, entityList, calls)
      && s0.Keys == e0.Keys
    }

    /** As `ObjectStatsFollow`, for the first `n` status records of a tick. */
    ghost predicate StatusStatsFollow(s0: map<int, map<int, int>>, status: seq<ObjectStatus>, n: nat)
      requires n <= |status|
      reads this`entityList, entityList.Values
    {
      forall k :: k in entityList ==> entityList[k].stats == StatusStats(StatsOf(s0, k), status, n, k)
    }

    /** The state `clear()` leaves, apart from the generator. */
    ghost predicate Cleared()
      reads this`worldPlayerId, this`charId, this`time, this`player, this`entityList, this`playerList,
        this`crystalTracker, this`entityHitList, this`entityRepr, mapTiles
    {
      && worldPlayerId == -1 && charId == -1 && time == -1
      && player == null
      && entityList == map[] && playerList == map[]
      && crystalTracker == {} && entityHitList == map[] && entityRepr == {}
      && (forall x, y :: 0 <= x < mapTiles.Length0 && 0 <= y < mapTiles.Length1 ==> mapTiles[x, y] == 0)
    }

    /** A session as Java's field initialisers leave it. */
    constructor (exaltTable: ExaltTable, playerClasses: set<int>, unknown24Stat: int)
      ensures Valid()
      ensures realmMap == None && worldPlayerId == 0 && charId == 0 && time == 0
      ensures player == null && rng == null && chars == None
      ensures entityList == map[] && playerList == map[] && crystalTracker == {} && entityHitList == map[]
      ensures forall x, y :: 0 <= x < GridSize && 0 <= y < GridSize ==> mapTiles[x, y] == 0
      ensures forall i :: 0 <= i < SlotCount ==> projectiles[i] == null
      ensures this.exaltTable == exaltTable && this.playerClasses == playerClasses
      ensures this.unknown24Stat == unknown24Stat
      ensures fresh(mapTiles) && fresh(projectiles) && fresh(regularVault) && fresh(seasonalVault)
      ensures calls == [] && entityRepr == {}
    {
      realmMap := None;
      worldPlayerId, charId, time := 0, 0, 0;
      player := null;
      mapTiles := new int[GridSize, GridSize]((x, y) => 0);
      entityList, playerList := map[], map[];
      projectiles := new Projectile?[SlotCount](_ => null);
      rng := null;
      crystalTracker := {};
      entityHitList := map[];
      regularVault := new VaultData();
      seasonalVault := new VaultData();
      chars := None;
      this.exaltTable := exaltTable;
      this.playerClasses := playerClasses;
      this.unknown24Stat := unknown24Stat;
      calls := [];
      entityRepr := {};
    }

    /** `setNewRealm`: reset everything, then adopt the realm and a generator seeded from it. */
    method SetNewRealm(m: MapInfoPacket)
      requires Valid()
      modifies this`realmMap, this`worldPlayerId, this`charId, this`time, this`player, this`rng,
        this`entityList, this`playerList, this`crystalTracker, this`entityHitList, this`entityRepr, this`calls,
        mapTiles
      ensures Valid() && Cleared()
      ensures realmMap == Some(m)
      ensures rng != null && fresh(rng) && rng.seed == m.seed
      ensures calls == old(calls) + ClearCalls(projectiles[..])
    {
      Clear();
      realmMap := Some(m);
      rng := new Rng(m.seed);
    }

    method SetUserId(objectId: int, charId: int)
      requires Valid()
      modifies this`worldPlayerId, this`charId
      ensures Valid()
      ensures worldPlayerId == objectId && this.charId == charId
    {
      worldPlayerId := objectId;
      this.charId := charId;
    }

    method SetTime(serverRealTimeMS: int)
      requires Valid()
      modifies this`time
      ensures Valid()
      ensures time == serverRealTimeMS
    {
      time := serverRealTimeMS;
    }

    /** `entityList.computeIfAbsent(id, ...)`: the entity filed under `id`, created now if missing. */
    method GetOrCreate(id: int) returns (e: Entity)
      requires Valid()
      modifies this`entityList, this`entityRepr
      ensures Valid()
      ensures id in entityList && entityList[id] == e && e.id == id
      ensures id in old(entityList) ==> entityList == old(entityList) && entityRepr == old(entityRepr)
      ensures id !in old(entityList) ==>
        fresh(e) && e.createdAt == time && e.stats == map[] && entityList == old(entityList)[id := e]
        && entityRepr == old(entityRepr) + {e}
    {
      if id in entityList {
        e := entityList[id];
      } else {
        e := new Entity(id, time);
        FiledGrow(playerList, entityList, id, e);
        FiledGrow(entityHitList, entityList, id, e);
        entityList := entityList[id := e];
        entityRepr := entityRepr + {e};
      }
    }

    /** `update`: tile deltas, then new objects, then drops. */
    method Update(p: UpdatePacket)
      requires Valid()
      requires forall t :: t in p.tiles ==> 0 <= t.x < GridSize && 0 <= t.y < GridSize
      modifies mapTiles, this`entityList, this`playerList, this`player, this`crystalTracker, this`calls,
        this`entityRepr, entityRepr
      ensures Valid()
      ensures forall x, y :: 0 <= x < GridSize && 0 <= y < GridSize ==>
        mapTiles[x, y] == TileGrid.TileAt(p.tiles, x, y, old(mapTiles[x, y]))
      ensures entityList.Keys == old(entityList.Keys) + ObjectIds(p.newObjects, |p.newObjects|)
      ensures forall k :: k in old(entityList) ==> entityList[k] == old(entityList[k])
      ensures forall k :: k in entityList && k !in old(entityList) ==> entityList[k].createdAt == time
      ensures forall e :: e in entityRepr ==> e in old(entityRepr) || fresh(e)
      ensures ObjectStatsFollow(old(EntityStats()), p.newObjects, |p.newObjects|)
      ensures playerList.Keys == old(playerList.Keys) + PlayerIds(p.newObjects, |p.newObjects|, playerClasses)
      ensures FilesUser(p.newObjects, |p.newObjects|, playerClasses, worldPlayerId) ==>
        worldPlayerId in entityList && player == entityList[worldPlayerId]
      ensures !FilesUser(p.newObjects, |p.newObjects|, playerClasses, worldPlayerId) ==> player == old(player)
      ensures crystalTracker == (old(crystalTracker) + CrystalIds(p.newObjects, |p.newObjects|)) - DropIds(p.drops)
      ensures calls == old(calls) + NewObjectCalls(p.newObjects, |p.newObjects|, playerClasses, worldPlayerId, time)
                       + DropCalls(p.drops, entityList.Keys, time)
    {
      UpdateTiles(p.tiles);
      UpdateObjects(Snapshot(), EntityStats(), p.newObjects);
      ghost var filed := entityList;
      UpdateDrops(p.drops);
      assert entityList == filed;
    }

    /** The tile loop of `update`: each delta overwrites its cell, in packet order. */
    method UpdateTiles(tiles: seq<Tile>)
      requires mapTiles.Length0 == GridSize && mapTiles.Length1 == GridSize
      requires forall t :: t in tiles ==> 0 <= t.x < GridSize && 0 <= t.y < GridSize
      modifies mapTiles
      ensures forall x, y :: 0 <= x < GridSize && 0 <= y < GridSize ==>
        mapTiles[x, y] == TileGrid.TileAt(tiles, x, y, old(mapTiles[x, y]))
    {
      var i := 0;
      while i < |tiles|
        invariant 0 <= i <= |tiles|
        invariant forall x, y :: 0 <= x < GridSize && 0 <= y < GridSize ==>
          mapTiles[x, y] == TileGrid.TileAt(tiles[..i], x, y, old(mapTiles[x, y]))
      {
        var t := tiles[i];
        mapTiles[t.x, t.y] := t.tileType;
        assert tiles[..i + 1][..i] == tiles[..i];
        i := i + 1;
      }
      assert tiles[..i] == tiles;
    }

    /** The new-object loop of `update`: `entityUpdate` on each record, in packet order. */
    method UpdateObjects(ghost r0: Registry, ghost s0: map<int, map<int, int>>, objs: seq<ObjectData>)
      requires Valid()
      requires r0 == Snapshot() && s0 == EntityStats()
      modifies this`entityList, this`playerList, this`player, this`crystalTracker, this`calls,
        this`entityRepr, entityRepr
      ensures Valid()
      ensures ObjectsFiled(r0, s0, objs, |objs|)
      ensures ObjectStatsFollow(s0, objs, |objs|)
      ensures forall e :: e in entityRepr ==> e in old(entityRepr) || fresh(e)
    {
      FiledRunStart(r0, objs, playerClasses, worldPlayerId, time);
      ObjectStatsStart(objs);
      var i := 0;
      while i < |objs|
        invariant 0 <= i <= |objs|
        invariant Valid()
        invariant ObjectsFiled(r0, s0, objs, i)
        invariant ObjectStatsFollow(s0, objs, i)
        invariant forall e :: e in entityRepr ==> e in old(entityRepr) || fresh(e)
      {
        FileNext(r0, s0, objs, i);
        i := i + 1;
      }
    }

    /** One turn of the new-object loop: file `objs[i]` and extend the run by it. */
    method FileNext(ghost r0: Registry, ghost s0: map<int, map<int, int>>, objs: seq<ObjectData>, i: nat)
      requires i < |objs|
      requires Valid()
      requires ObjectsFiled(r0, s0, objs, i)
      requires ObjectStatsFollow(s0, objs, i)
      modifies this`entityList, this`playerList, this`player, this`crystalTracker, this`calls, this`entityRepr,
        entityRepr
      ensures Valid()
      ensures ObjectsFiled(r0, s0, objs, i + 1)
      ensures ObjectStatsFollow(s0, objs, i + 1)
      ensures forall e :: e in entityRepr ==> e in old(entityRepr) || fresh(e)
    {
      ghost var r1 := Snapshot();
      var id := objs[i].status.objectId;
      EntityUpdate(objs[i]);
      FiledRunStep(r0, objs, i, playerClasses, worldPlayerId, time, r1, Snapshot());
      if id !in r1.entities {
        ObjectStatsUntouched(map[], objs, i, id);
      }
      forall k | k in entityList
        ensures entityList[k].stats == ObjectStats(StatsOf(s0, k), objs, i + 1, k)
      {
        if k != id {
          assert k in r1.entities;
        }
      }
    }

    /**
     * The drop loop of `update`: untrack each dropped id, and notify its entity when
     * one is filed; the registry keeps dropped entities.
     */
    method UpdateDrops(drops: seq<int>)
      requires Valid()
      modifies this`crystalTracker, this`calls
      ensures Valid()
      ensures crystalTracker == old(crystalTracker) - DropIds(drops)
      ensures calls == old(calls) + DropCalls(drops, entityList.Keys, time)
    {
      var i := 0;
      while i < |drops|
        invariant 0 <= i <= |drops|
        invariant Valid()
        invariant crystalTracker == old(crystalTracker) - DropIds(drops[..i])
        invariant calls == old(calls) + DropCalls(drops[..i], entityList.Keys, time)
      {
        var dropId := drops[i];
        crystalTracker := crystalTracker - {dropId};
        if dropId in entityList {
          calls := calls + [DropEntity(dropId, time)];
        }
        assert drops[..i + 1][..i] == drops[..i];
        i := i + 1;
      }
      assert drops[..i] == drops;
    }

    /** `entityUpdate`: file one new-object record. */
    method EntityUpdate(o: ObjectData)
      requires Valid()
      modifies this`entityList, this`playerList, this`player, this`crystalTracker, this`calls, this`entityRepr,
        Touched(o.status.objectId)
      ensures Valid()
      ensures old(entityRepr) <= entityRepr && fresh(entityRepr - old(entityRepr))
      ensures entityList.Keys == old(entityList.Keys) + {o.status.objectId}
      ensures forall k :: k in old(entityList) ==> entityList[k] == old(entityList[k])
      ensures o.status.objectId !in old(entityList) ==>
        fresh(entityList[o.status.objectId]) && entityList[o.status.objectId].createdAt == time
      ensures entityList[o.status.objectId].stats ==
        (if o.status.objectId in old(entityList) then old(entityList[o.status.objectId].stats) else map[])
        + o.status.stats
      ensures forall k :: k in old(entityList) && k != o.status.objectId ==>
        entityList[k].stats == old(entityList[k].stats)
      ensures crystalTracker ==
        if Crystals.IsCrystal(o.status.objectId) then old(crystalTracker) + {o.status.objectId}
        else old(crystalTracker)
      ensures playerList ==
        if o.objectType in playerClasses then old(playerList)[o.status.objectId := entityList[o.status.objectId]]
        else old(playerList)
      ensures player ==
        if o.objectType in playerClasses && o.status.objectId == worldPlayerId then entityList[o.status.objectId]
        else old(player)
      ensures calls == old(calls) + ObjectCalls(o, playerClasses, worldPlayerId, time)
    {
      var entity := GetOrCreate(o.status.objectId);
      entity.ApplyObject(o.objectType, o.status, time);
      FileObject(o, entity);
    }

    /** The rest of `entityUpdate` once the entity is filed: the tracker, the player map and the user. */
    method FileObject(o: ObjectData, entity: Entity)
      requires Valid()
      requires o.status.objectId in entityList && entityList[o.status.objectId] == entity
      modifies this`playerList, this`player, this`crystalTracker, this`calls
      ensures Valid()
      ensures crystalTracker ==
        if Crystals.IsCrystal(o.status.objectId) then old(crystalTracker) + {o.status.objectId}
        else old(crystalTracker)
      ensures playerList ==
        if o.objectType in playerClasses then old(playerList)[o.status.objectId := entity] else old(playerList)
      ensures player ==
        if o.objectType in playerClasses && o.status.objectId == worldPlayerId then entity else old(player)
      ensures calls == old(calls) + ObjectCalls(o, playerClasses, worldPlayerId, time)
    {
      var id := o.status.objectId;
      ConsistentFiling(entityList, playerList, entityHitList, player, crystalTracker,
        id, o.objectType in playerClasses, id == worldPlayerId);
      calls := calls + [UpdateEntity(id, o.objectType, o.status, time)];
      if Crystals.IsCrystal(id) {
        crystalTracker := crystalTracker + {id};
      }
      if o.objectType in playerClasses {
        playerList := playerList[id := entity];
        if id == worldPlayerId {
          player := entity;
          calls := calls + [SetUserFlag(id)];
        }
      }
    }

    /** `floorPlanCrystals`: fold the live marker ids into a 4-bit mask, in any iteration order. */
    method FloorPlanCrystals() returns (mask: int)
      ensures mask == Crystals.CrystalMask(crystalTracker) as int
    {
      var m: bv32 := 0;
      var todo := crystalTracker;
      while todo != {}
        invariant todo <= crystalTracker
        invariant m == Crystals.CrystalMask(crystalTracker - todo)
        decreases todo
      {
        // The lemma call gives the `:|` below a witness: `todo` has a member.
        ghost var nonEmpty := Sets.Member(todo);
        var i :| i in todo;
        if i == 46721 {
          m := m | 1;
        } else if i == 46771 {
          m := m | 2;
        } else if i == 29501 {
          m := m | 4;
        } else if i == 33656 {
          m := m | 8;
        }
        Crystals.CrystalMaskInsert(crystalTracker - todo, i);
        assert crystalTracker - (todo - {i}) == (crystalTracker - todo) + {i};
        todo := todo - {i};
      }
      assert crystalTracker - todo == crystalTracker;
      mask := m as int;
    }

    /** `updateNewTick`: advance the clock, then apply each status record to its entity. */
    method UpdateNewTick(p: NewTickPacket)
      requires Valid()
      modifies this`time, this`entityList, this`calls, this`entityRepr, entityRepr
      ensures Valid()
      ensures time == p.serverRealTimeMS
      ensures entityList.Keys == old(entityList.Keys) + StatusIds(p.status, |p.status|)
      ensures forall k :: k in old(entityList) ==> entityList[k] == old(entityList[k])
      ensures forall k :: k in entityList && k !in old(entityList) ==> entityList[k].createdAt == time
      ensures forall e :: e in entityRepr ==> e in old(entityRepr) || fresh(e)
      ensures StatusStatsFollow(old(EntityStats()), p.status, |p.status|)
      ensures calls == old(calls) + TickCalls(p.status, |p.status|, time)
    {
      SetTime(p.serverRealTimeMS);
      ApplyStatus(p.status);
    }

    /** The status loop of `updateNewTick`: each record updates its entity's stats, in packet order. */
    method ApplyStatus(status: seq<ObjectStatus>)
      requires Valid()
      modifies this`entityList, this`calls, this`entityRepr, entityRepr
      ensures Valid()
      ensures TickRun(old(entityList), old(calls), status, |status|, time, entityList, calls)
      ensures StatusStatsFollow(old(EntityStats()), status, |status|)
      ensures forall e :: e in entityRepr ==> e in old(entityRepr) || fresh(e)
    {
      ghost var e0, log0, s0 := entityList, calls, EntityStats();
      StatusStatsStart(status);
      var i := 0;
      while i < |status|
        invariant 0 <= i <= |status|
        invariant Valid()
        invariant StatusApplied(e0, log0, s0, status, i)
        invariant StatusStatsFollow(s0, status, i)
        invariant forall e :: e in entityRepr ==> e in old(entityRepr) || fresh(e)
      {
        TickNext(e0, log0, s0, status, i);
        i := i + 1;
      }
    }

    /** One turn of the status loop of `updateNewTick`: get or create the entity, then update its stats. */
    method TickNext(
      ghost e0: map<int, Entity>, ghost log0: seq<Call>, ghost s0: map<int, map<int, int>>,
      status: seq<ObjectStatus>, i: nat)
      requires i < |status|
      requires Valid()
      requires StatusApplied(e0, log0, s0, status, i)
      requires StatusStatsFollow(s0, status, i)
      modifies this`entityList, this`calls, this`entityRepr, entityRepr
      ensures Valid()
      ensures StatusApplied(e0, log0, s0, status, i + 1)
      ensures StatusStatsFollow(s0, status, i + 1)
      ensures forall e :: e in entityRepr ==> e in old(entityRepr) || fresh(e)
    {
      ghost var e1, log1 := entityList, calls;
      var id := status[i].objectId;
      var entity := GetOrCreate(id);
      entity.UpdateStats(status[i], time);
      calls := calls + [UpdateEntityStats(id, status[i], time)];
      TickRunStep(e0, log0, status, i, time, e1, log1, entityList, calls);
      if id !in e1 {
        StatusStatsUntouched(map[], status, i, id);
      }
      forall k | k in entityList
        ensures entityList[k].stats == StatusStats(StatsOf(s0, k), status, i + 1, k)
      {
        if k != id {
          assert k in e1;
        }
      }
    }

    /** `playerShoot`: a new player projectile in slot `bulletId`, and nowhere else. */
    method PlayerShoot(p: PlayerShootPacket)
      requires Valid()
      requires 0 <= p.bulletId < SlotCount
      modifies projectiles
      ensures Valid()
      ensures projectiles[p.bulletId] != null && fresh(projectiles[p.bulletId])
      ensures projectiles[p.bulletId].source == PlayerShot(rng, player, p.weaponId, p.projectileId)
      ensures forall i :: 0 <= i < SlotCount && i != p.bulletId ==> projectiles[i] == old(projectiles[i])
    {
      projectiles[p.bulletId] := new Projectile(PlayerShot(rng, player, p.weaponId, p.projectileId));
    }

    /**
     * `serverPlayerShoot`: with spell-bullet data, one new projectile shared by the
     * slots of bullet ids `bulletId <= j < bulletId + bulletCount`; otherwise nothing.
     */
    method ServerPlayerShoot(p: ServerPlayerShootPacket)
      requires Valid()
      requires IsInt32(p.bulletId) && IsInt32(p.bulletCount)
      modifies projectiles
      ensures Valid()
      ensures !p.spellBulletData ==> projectiles[..] == old(projectiles[..])
      ensures forall i :: 0 <= i < SlotCount && i !in ShotSlots(p) ==> projectiles[i] == old(projectiles[i])
      ensures forall i :: i in ShotSlots(p) ==>
        0 <= i < SlotCount && projectiles[i] != null && fresh(projectiles[i])
        && projectiles[i].source == SpellShot(p.damage, p.containerType)
      ensures forall i, j :: i in ShotSlots(p) && j in ShotSlots(p) ==> projectiles[i] == projectiles[j]
    {
      if p.spellBulletData {
        var projectile := new Projectile(SpellShot(p.damage, p.containerType));
        var end := Wrap32(p.bulletId + p.bulletCount);
        var j := p.bulletId;
        while j < end
          modifies projectiles
          invariant p.bulletId <= j && (j == p.bulletId || j <= end)
          invariant forall i :: 0 <= i < SlotCount ==>
            projectiles[i] == if i in SpellSlots(p.bulletId, j) then projectile else old(projectiles[i])
        {
          projectiles[SpellSlot(j)] := projectile;
          j := j + 1;
        }
        assert SpellSlots(p.bulletId, j) == ShotSlots(p);
      }
    }

    /** `enemtyHit`: notify the target (created if missing) and add it to the hit list once. */
    method EnemtyHit(p: EnemyHitPacket)
      requires Valid()
      requires 0 <= p.bulletId < SlotCount
      modifies this`entityList, this`entityHitList, this`calls, this`entityRepr
      ensures Valid()
      ensures forall e :: e in entityRepr ==> e in old(entityRepr) || fresh(e)
      ensures entityList.Keys == old(entityList.Keys) + {p.targetId}
      ensures forall k :: k in old(entityList) ==> entityList[k] == old(entityList[k])
      ensures p.targetId !in old(entityList) ==>
        fresh(entityList[p.targetId]) && entityList[p.targetId].createdAt == time
      ensures entityHitList ==
        if p.targetId in old(entityHitList) then old(entityHitList)
        else old(entityHitList)[p.targetId := entityList[p.targetId]]
      ensures calls == old(calls)
        + [ProjectileHit(p.targetId, Lookup(playerList, p.shooterId), projectiles[p.bulletId], time)]
    {
      var projectile := projectiles[p.bulletId];
      var id := p.targetId;
      var target := GetOrCreate(id);
      var attacker := Lookup(playerList, p.shooterId);
      calls := calls + [ProjectileHit(id, attacker, projectile, time)];
      if id !in entityHitList {
        entityHitList := entityHitList[id := target];
      }
    }

    /**
     * `damage`: for a positive amount only, notify the target (created if missing) with a
     * fresh literal-damage projectile, and add it to the hit list once unless its id is a
     * player-class code.
     */
    method Damage(p: DamagePacket)
      requires Valid()
      modifies this`entityList, this`entityHitList, this`calls, this`entityRepr
      ensures Valid()
      ensures forall e :: e in entityRepr ==> e in old(entityRepr) || fresh(e)
      ensures p.damageAmount <= 0 ==>
        entityList == old(entityList) && entityHitList == old(entityHitList) && calls == old(calls)
      ensures p.damageAmount > 0 ==> entityList.Keys == old(entityList.Keys) + {p.targetId}
      ensures forall k :: k in old(entityList) ==> entityList[k] == old(entityList[k])
      ensures p.damageAmount > 0 && p.targetId !in old(entityList) ==>
        fresh(entityList[p.targetId]) && entityList[p.targetId].createdAt == time
      ensures p.damageAmount > 0 ==>
        entityHitList ==
          if p.targetId in old(entityHitList) || p.targetId in playerClasses then old(entityHitList)
          else old(entityHitList)[p.targetId := entityList[p.targetId]]
      ensures p.damageAmount > 0 ==>
        |calls| == |old(calls)| + 1 && calls[|calls| - 1].DamageHit?
        && calls == old(calls) + [DamageHit(p.targetId, Lookup(playerList, p.objectId), calls[|calls| - 1].damageSource, time)]
        && fresh(calls[|calls| - 1].damageSource)
        && calls[|calls| - 1].damageSource.source == DamageLiteral(p.damageAmount)
    {
      if p.damageAmount > 0 {
        var projectile := new Projectile(DamageLiteral(p.damageAmount));
        var id := p.targetId;
        var target := GetOrCreate(id);
        var attacker := Lookup(playerList, p.objectId);
        calls := calls + [DamageHit(id, attacker, projectile, time)];
        if id !in entityHitList && id !in playerClasses {
          entityHitList := entityHitList[id := target];
        }
      }
    }

    /**
     * `clear`: sentinels, empty registries, a zeroed grid, and one `clear()` call per
     * occupied projectile slot; the slots themselves keep their projectiles.
     */
    method Clear()
      requires Valid()
      modifies this`worldPlayerId, this`charId, this`time, this`player, this`rng,
        this`entityList, this`playerList, this`crystalTracker, this`entityHitList, this`entityRepr, this`calls,
        mapTiles
      ensures Valid() && Cleared() && rng == null
      ensures calls == old(calls) + ClearCalls(projectiles[..])
    {
      ResetFields();
      ZeroTiles();
      ClearProjectiles();
    }

    /** The field resets of `clear`: sentinels, no player or generator, empty registries. */
    method ResetFields()
      requires Valid()
      modifies this`worldPlayerId, this`charId, this`time, this`player, this`rng,
        this`entityList, this`playerList, this`crystalTracker, this`entityHitList, this`entityRepr
      ensures Valid() && rng == null
      ensures worldPlayerId == -1 && charId == -1 && time == -1 && player == null
      ensures entityList == map[] && playerList == map[] && crystalTracker == {} && entityHitList == map[]
      ensures entityRepr == {}
    {
      worldPlayerId := -1;
      charId := -1;
      time := -1;
      player := null;
      rng := null;
      entityList := map[];
      playerList := map[];
      crystalTracker := {};
      entityHitList := map[];
      entityRepr := {};
    }

    /** The grid loop of `clear`: `Arrays.fill(row, 0)` on every row. */
    method ZeroTiles()
      requires mapTiles.Length0 == GridSize && mapTiles.Length1 == GridSize
      modifies mapTiles
      ensures forall x, y :: 0 <= x < GridSize && 0 <= y < GridSize ==> mapTiles[x, y] == 0
    {
      var x := 0;
      while x < GridSize
        invariant 0 <= x <= GridSize
        invariant forall i, j :: 0 <= i < x && 0 <= j < GridSize ==> mapTiles[i, j] == 0
      {
        FillRow(x);
        x := x + 1;
      }
    }

    /** The projectile loop of `clear`: `clear()` on each occupied slot, in slot order. */
    method ClearProjectiles()
      requires projectiles.Length == SlotCount
      modifies this`calls
      ensures calls == old(calls) + ClearCalls(projectiles[..])
    {
      var i := 0;
      while i < SlotCount
        invariant 0 <= i <= SlotCount
        invariant calls == old(calls) + ClearCalls(projectiles[..i])
      {
        var p := projectiles[i];
        if p != null {
          calls := calls + [ClearProjectile(p)];
        }
        assert projectiles[..i + 1][..i] == projectiles[..i];
        i := i + 1;
      }
      assert projectiles[..i] == projectiles[..];
    }

    /** `Arrays.fill(row, 0)` on grid row `x`: that row zeroed, every other row untouched. */
    method FillRow(x: int)
      requires mapTiles.Length0 == GridSize && mapTiles.Length1 == GridSize
      requires 0 <= x < GridSize
      modifies mapTiles
      ensures forall j :: 0 <= j < GridSize ==> mapTiles[x, j] == 0
      ensures forall i, j :: 0 <= i < GridSize && 0 <= j < GridSize && i != x ==>
        mapTiles[i, j] == old(mapTiles[i, j])
    {
      var y := 0;
      while y < GridSize
        invariant 0 <= y <= GridSize
        invariant forall j :: 0 <= j < y ==> mapTiles[x, j] == 0
        invariant forall i, j :: 0 <= i < GridSize && 0 <= j < GridSize && i != x ==>
          mapTiles[i, j] == old(mapTiles[i, j])
      {
        mapTiles[x, y] := 0;
        y := y + 1;
      }
    }

    /**
     * `getEntityHitList`: the hit-list entities in map iteration order, which is
     * unspecified, so the result is their set: every entry once, nothing else.
     */
    function GetEntityHitList(): (hits: set<Entity>)
      reads this`entityList, this`playerList, this`entityHitList, this`player, this`crystalTracker, this`entityRepr
      requires Valid()
      ensures forall k :: k in entityHitList ==> entityHitList[k] in hits
      ensures forall e :: e in hits ==> e.id in entityHitList && entityHitList[e.id] == e
      ensures |hits| == |entityHitList|
    {
      KeyedValues(entityHitList);
      entityHitList.Values
    }

    /** `exaltUpdate`: store the eight progress values under the object type, in stat order. */
    method ExaltUpdate(p: ExaltationUpdatePacket)
      modifies exaltTable
      ensures exaltTable.exalts == old(exaltTable.exalts)[p.objType := [
        p.dexterityProgress, p.speedProgress, p.vitalityProgress, p.wisdomProgress,
        p.defenseProgress, p.attackProgress, p.manaProgress, p.healthProgress]]
    {
      var exalts := [
        p.dexterityProgress, p.speedProgress, p.vitalityProgress, p.wisdomProgress,
        p.defenseProgress, p.attackProgress, p.manaProgress, p.healthProgress];
      exaltTable.exalts := exaltTable.exalts[p.objType := exalts];
    }

    /**
     * `vaultPacketUpdate`: no vault without a local player; otherwise exactly one,
     * the seasonal one iff the player's UNKNOWN24 stat is 1.
     */
    method VaultPacketUpdate(p: VaultContentPacket)
      requires Valid()
      modifies this`calls
      ensures Valid()
      ensures player == null ==> calls == old(calls)
      ensures player != null && player.StatValue(unknown24Stat) == 1 ==>
        calls == old(calls) + [UpdateVault(seasonalVault, p)]
      ensures player != null && player.StatValue(unknown24Stat) != 1 ==>
        calls == old(calls) + [UpdateVault(regularVault, p)]
    {
      if player != null {
        if player.StatValue(unknown24Stat) == 1 {
          calls := calls + [UpdateVault(seasonalVault, p)];
        } else {
          calls := calls + [UpdateVault(regularVault, p)];
        }
      }
    }

    /**
     * `characterListUpdate`: adopt the roster, clear both vaults' character
     * contributions, then give each character to the vault its own flag selects.
     */
    method CharacterListUpdate(cs: seq<RealmCharacter>)
      requires Valid()
      modifies this`chars, this`calls
      ensures Valid()
      ensures chars == Some(cs)
      ensures calls == old(calls) + [ClearVaultChars(seasonalVault), ClearVaultChars(regularVault)]
                       + CharInventoryCalls(cs, regularVault, seasonalVault)
      ensures CharContributions(calls, seasonalVault) == WithSeason(cs, true)
      ensures CharContributions(calls, regularVault) == WithSeason(cs, false)
    {
      chars := Some(cs);
      calls := calls + [ClearVaultChars(seasonalVault), ClearVaultChars(regularVault)];
      GiveCharacters(cs);
      RosterContributions(old(calls), cs, regularVault, seasonalVault);
    }

    /** The roster loop of `characterListUpdate`: each character to the vault its flag selects. */
    method GiveCharacters(cs: seq<RealmCharacter>)
      modifies this`calls
      ensures calls == old(calls) + CharInventoryCalls(cs, regularVault, seasonalVault)
    {
      var i := 0;
      while i < |cs|
        invariant 0 <= i <= |cs|
        invariant calls == old(calls) + CharInventoryCalls(cs[..i], regularVault, seasonalVault)
      {
        var c := cs[i];
        if c.seasonal {
          calls := calls + [UpdateVaultCharInventory(seasonalVault, c)];
        } else {
          calls := calls + [UpdateVaultCharInventory(regularVault, c)];
        }
        assert cs[..i + 1][..i] == cs[..i];
        i := i + 1;
      }
      assert cs[..i] == cs;
    }
  }
}

/**
 * The registry invariants of a realm session and what filing new-object records
 * does to them, stated on values.
 */
module Filing {
  import opened Packets
  import opened Collaborators
  import opened SessionSpec
  import Crystals
  import Sets

  /** Every entity of the registry is filed under its own id. */
  ghost predicate Keyed(entities: map<int, Entity>) {
    forall k :: k in entities ==> entities[k].id == k
  }

  /** A sub-map holds only registry entries, each under the registry's key. */
  ghost predicate Filed(sub: map<int, Entity>, entities: map<int, Entity>) {
    forall k :: k in sub ==> k in entities && sub[k] == entities[k]
  }

  /** The cached local player, when set, is a filed player. */
  ghost predicate UserFiled(player: Entity?, players: map<int, Entity>) {
    player != null ==> player.id in players && players[player.id] == player
  }

  /** The tracker holds only crystal-marker ids that have an entity. */
  ghost predicate Tracked(tracker: set<int>, entities: map<int, Entity>) {
    forall c :: c in tracker ==> Crystals.IsCrystal(c) && c in entities
  }

  lemma FiledGrow(sub: map<int, Entity>, entities: map<int, Entity>, k: int, e: Entity)
    requires Filed(sub, entities) && k !in entities
    ensures Filed(sub, entities[k := e])
  {
  }

  /** A map whose entries are keyed by their own ids holds as many distinct entities as keys. */
  lemma {:induction false} KeyedValues(m: map<int, Entity>)
    requires forall k :: k in m ==> m[k].id == k
    ensures |m.Values| == |m.Keys|
    decreases |m.Keys|
  {
    if m.Keys != {} {
      var k := Sets.Member(m.Keys);
      var rest := m - {k};
      KeyedValues(rest);
      assert m.Keys == rest.Keys + {k};
      assert m.Values == rest.Values + {m[k]};
      assert m[k] !in rest.Values;
    } else {
      assert m.Values == {};
    }
  }

  /** The cross-references a session keeps between its registry and the maps and caches beside it. */
  ghost predicate Consistent(
    entities: map<int, Entity>, players: map<int, Entity>, hits: map<int, Entity>, user: Entity?, tracker: set<int>)
  {
    && Keyed(entities)
    && Filed(players, entities)
    && Filed(hits, entities)
    && UserFiled(user, players)
    && Tracked(tracker, entities)
  }

  /** Filing a registered entity as a player, the user or a crystal marker keeps the cross-references. */
  lemma ConsistentFiling(
    entities: map<int, Entity>, players: map<int, Entity>, hits: map<int, Entity>, user: Entity?, tracker: set<int>,
    id: int, asPlayer: bool, asUser: bool)
    requires Consistent(entities, players, hits, user, tracker) && id in entities
    ensures Consistent(
      entities, if asPlayer then players[id := entities[id]] else players, hits,
      if asPlayer && asUser then entities[id] else user,
      if Crystals.IsCrystal(id) then tracker + {id} else tracker)
  {
  }

  /** The stats of entity `k` in a snapshot of all entities' stats: none for an entity not yet created. */
  function StatsOf(stats: map<int, map<int, int>>, k: int): map<int, int> {
    if k in stats then stats[k] else map[]
  }

  /** The parts of a session that filing new objects touches, as values. */
  datatype Registry = Registry(
    entities: map<int, Entity>, players: map<int, Entity>, user: Entity?, tracker: set<int>, log: seq<Call>)

  /** `r1` is `r0` after `entityUpdate` filed record `o` (the entity itself is `r1.entities[id]`). */
  ghost predicate FiledOne(r0: Registry, o: ObjectData, playerTypes: set<int>, worldPlayerId: int, time: int, r1: Registry) {
    var id := o.status.objectId;
    && r1.entities.Keys == r0.entities.Keys + {id}
    && Filed(r0.entities, r1.entities)
    && (id !in r0.entities ==> r1.entities[id].createdAt == time)
    && r1.tracker == (if Crystals.IsCrystal(id) then r0.tracker + {id} else r0.tracker)
    && r1.players == (if o.objectType in playerTypes then r0.players[id := r1.entities[id]] else r0.players)
    && r1.user == (if o.objectType in playerTypes && id == worldPlayerId then r1.entities[id] else r0.user)
    && r1.log == r0.log + ObjectCalls(o, playerTypes, worldPlayerId, time)
  }

  /** `r1` is `r0` after `entityUpdate` filed the first `n` records of `objs`, in order. */
  ghost predicate FiledRun(
    r0: Registry, objs: seq<ObjectData>, n: nat, playerTypes: set<int>, worldPlayerId: int, time: int, r1: Registry)
    requires n <= |objs|
  {
    && r1.entities.Keys == r0.entities.Keys + ObjectIds(objs, n)
    && Filed(r0.entities, r1.entities)
    && (forall k :: k in r1.entities && k !in r0.entities ==> r1.entities[k].createdAt == time)
    && r1.players.Keys == r0.players.Keys + PlayerIds(objs, n, playerTypes)
    && (FilesUser(objs, n, playerTypes, worldPlayerId) ==> worldPlayerId in r1.entities && r1.user == r1.entities[worldPlayerId])
    && (!FilesUser(objs, n, playerTypes, worldPlayerId) ==> r1.user == r0.user)
    && r1.tracker == r0.tracker + CrystalIds(objs, n)
    && r1.log == r0.log + NewObjectCalls(objs, n, playerTypes, worldPlayerId, time)
  }

  /** Filing no records changes nothing. */
  lemma FiledRunStart(r: Registry, objs: seq<ObjectData>, playerTypes: set<int>, worldPlayerId: int, time: int)
    ensures FiledRun(r, objs, 0, playerTypes, worldPlayerId, time, r)
  {
  }

  /** Filing record `n` after the first `n` files the first `n + 1`. */
  lemma FiledRunStep(
    r0: Registry, objs: seq<ObjectData>, n: nat, playerTypes: set<int>, worldPlayerId: int, time: int,
    r1: Registry, r2: Registry)
    requires n < |objs|
    requires FiledRun(r0, objs, n, playerTypes, worldPlayerId, time, r1)
    requires FiledOne(r1, objs[n], playerTypes, worldPlayerId, time, r2)
    ensures FiledRun(r0, objs, n + 1, playerTypes, worldPlayerId, time, r2)
  {
    AppendAssoc(r0.log, NewObjectCalls(objs, n, playerTypes, worldPlayerId, time),
      ObjectCalls(objs[n], playerTypes, worldPlayerId, time));
  }

  /** `e1`/`log1` are `e0`/`log0` after `updateNewTick` applied the first `n` status records. */
  ghost predicate TickRun(
    e0: map<int, Entity>, log0: seq<Call>, status: seq<ObjectStatus>, n: nat, time: int,
    e1: map<int, Entity>, log1: seq<Call>)
    requires n <= |status|
  {
    && e1.Keys == e0.Keys + StatusIds(status, n)
    && Filed(e0, e1)
    && (forall k :: k in e1 && k !in e0 ==> e1[k].createdAt == time)
    && log1 == log0 + TickCalls(status, n, time)
  }

  /** Getting or creating the entity of record `n`, then logging its update, extends the run by one. */
  lemma TickRunStep(
    e0: map<int, Entity>, log0: seq<Call>, status: seq<ObjectStatus>, n: nat, time: int,
    e1: map<int, Entity>, log1: seq<Call>, e2: map<int, Entity>, log2: seq<Call>)
    requires n < |status|
    requires TickRun(e0, log0, status, n, time, e1, log1)
    requires e2.Keys == e1.Keys + {status[n].objectId} && Filed(e1, e2)
    requires status[n].objectId !in e1 ==> e2[status[n].objectId].createdAt == time
    requires log2 == log1 + [UpdateEntityStats(status[n].objectId, status[n], time)]
    ensures TickRun(e0, log0, status, n + 1, time, e2, log2)
  {
    AppendAssoc(log0, TickCalls(status, n, time), [UpdateEntityStats(status[n].objectId, status[n], time)]);
  }
}

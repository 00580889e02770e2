# RealmShark realm session and notification codes, in Dafny

This project models two parts of RealmShark, a packet sniffer for a browser MMO:

- **`TomatoData`**, the realm-session state engine. One sequential object takes decoded packet events and keeps:
  - a 2048×2048 tile grid;
  - the id→entity registry, created lazily;
  - the player sub-map and the cached local player;
  - a 512-slot projectile table. a player shot writes slot `bulletId` directly; a spell fan-out writes slot `j % 256 + 256`;
  - the set of live crystal-marker ids and the 4-bit floor mask folded from it;
  - the add-once hit list;
  - the routing of vault updates and roster updates into the regular and seasonal vault aggregates;
  - the full reset that runs before every new realm.
- **`NotificationEffectType`**, the closed table of notification codes 0–8 and 10, with a `byOrdinal` lookup that finds nothing for the other codes.

`TomatoData` is a Dafny class. Its HashMaps and HashSet are `map`/`set` fields that the methods reassign. The grid is an `array2` and the projectile table an `array`. Each loop of the Java code is a method with loop invariants.

Everything the session only calls into is an opaque class or an entry in a ghost call log (`calls`). That covers `Entity`'s handlers, `Projectile.clear` and `VaultData`. The log lets the contracts state which collaborator is called, with what, in which order and how often.

An `Entity` is an object with a `stats` map (stat type to value). Its two handlers, `entityUpdate` and `updateStats`, are `Entity` methods that change that map in place. The session's ghost field `entityRepr` holds every entity it has created since the last reset (construction, `clear`, `setNewRealm` all empty it). Every registry entry is in it, and the packet handlers may change only those objects and fresh ones. So the stat that vault routing reads (`UNKNOWN24`) is the value from the last record naming the local player that carries `UNKNOWN24`.

Modules:

- `RealmSession` holds the class. `Filing` holds the registry invariant `Consistent` and value-level descriptions of filing new objects (`FiledRun`) and applying status records (`TickRun`).
- `SessionSpec` holds the call log and its specification functions. `Crystals` holds the marker ids and the mask. `TileGrid` says what a run of tile deltas does to one cell.
- `NotificationEffects` is the enum. `JavaInt` holds Java's 32-bit wrap-around and its truncating `%`.

The class invariant `Valid()` says:

- every entity is filed under its own id;
- the player map and the hit list hold only registry entries;
- the cached player is a filed player;
- the crystal tracker holds only marker ids that have an entity.

Every handler preserves it.

### Behaviour of the code worth noting

- `clear()` does not empty the projectile slots. It only calls `clear()` on each occupied slot's projectile, so the slots keep their projectiles (TomatoData.java:251-253).
- `damage` adds a target to the hit list only if it is absent **and** its id is not a player-class code. Both conditions must hold (TomatoData.java:220).
- `damage` tests `CharacterClass.isPlayerCharacter` on the target's world id, not on an object type (TomatoData.java:220).
- A vault-content push with no local player goes to no vault at all (TomatoData.java:275).
- Spell slots use Java's truncating `%`. A negative bullet id `j` with `j % 256 != 0` therefore lands in slot `256 + j % 256`, which is below 256, inside the player region. The loop bound `bulletId + bulletCount` wraps at 32 bits (TomatoData.java:186-187). Both are modelled (`SpellSlot`, `ShotSlots`).

## Model

| member | source | states |
|---|---|---|
| NotificationEffects.NotificationEffectType.Get | src/main/java/data/enums/NotificationEffectType.java:4-23 | every declared code lies in 0..10 and none is 9 |
| NotificationEffects.ValuesComplete | src/main/java/data/enums/NotificationEffectType.java:26 | `values()` lists every variant |
| NotificationEffects.GetInjective | src/main/java/data/enums/NotificationEffectType.java:4-13 | distinct variants have distinct codes |
| NotificationEffects.FindByCode | src/main/java/data/enums/NotificationEffectType.java:26-31 | the search returns a listed variant with code `ord`, and returns None iff no listed variant has that code |
| NotificationEffects.ByOrdinal | src/main/java/data/enums/NotificationEffectType.java:25-32 | a found variant has code `ord`; null (None) iff no variant at all has code `ord` |
| NotificationEffects.RoundTrip | src/main/java/data/enums/NotificationEffectType.java:25-32 | `byOrdinal(o.get()) == o` for every variant |
| NotificationEffects.Absent | src/main/java/data/enums/NotificationEffectType.java:31 | code 9, every negative byte and every byte above 10 give null rather than an exception |
| JavaInt.Wrap32 | src/main/java/tomato/logic/backend/data/TomatoData.java:186 | the int sum `bulletId + bulletCount` is in int range, equals the true sum when that fits, and is congruent to it mod 2^32 |
| JavaInt.Rem256 | src/main/java/tomato/logic/backend/data/TomatoData.java:187 | Java's `j % 256` takes the sign of `j` and is congruent to `j` mod 256 |
| Crystals.IsCrystal | src/main/java/tomato/logic/backend/data/TomatoData.java:120-122 | an id is a crystal iff it is one of the four marker ids |
| Crystals.MarkerBit | src/main/java/tomato/logic/backend/data/TomatoData.java:132-140 | an id contributes no bit iff it is not a marker; marker k contributes bit k |
| Crystals.CrystalMask | src/main/java/tomato/logic/backend/data/TomatoData.java:129-143 | the mask is at most 15, is 0 for an empty tracker, and has bit k set iff marker k (46721, 46771, 29501, 33656) is live |
| Crystals.CrystalMaskInsert | src/main/java/tomato/logic/backend/data/TomatoData.java:131-141 | adding an id ORs in exactly its marker bit |
| Crystals.FoldMask | src/main/java/tomato/logic/backend/data/TomatoData.java:130-142 | the loop's mask over a sequence of ids is at most 15 and has bit k set iff marker k occurs among the ids |
| Crystals.FoldMaskIsCrystalMask | src/main/java/tomato/logic/backend/data/TomatoData.java:130-142 | the loop over any iteration order yields the mask of the set iterated |
| Crystals.FoldMaskOrderIndependent | src/main/java/tomato/logic/backend/data/TomatoData.java:131 | two iteration orders of the same ids give the same mask |
| Crystals.AllMarkersMask | src/main/java/tomato/logic/backend/data/TomatoData.java:129-143 | all four markers live give mask 15 |
| Crystals.DropClearsBit | src/main/java/tomato/logic/backend/data/TomatoData.java:84 | removing marker k clears bit k and keeps every other bit |
| TileGrid.LastWriteWins | src/main/java/tomato/logic/backend/data/TomatoData.java:75-77 | the last delta naming a cell decides its value |
| TileGrid.UntouchedCell | src/main/java/tomato/logic/backend/data/TomatoData.java:75-77 | a cell no delta names keeps its value |
| SessionSpec.Lookup | src/main/java/tomato/logic/backend/data/TomatoData.java:201 | `HashMap.get` is null iff the key is absent, and otherwise the entry |
| SessionSpec.ObjectStatsUntouched | src/main/java/tomato/logic/backend/data/TomatoData.java:78-81 | an entity that no new-object record names keeps its stats through the loop |
| SessionSpec.StatusStatsUntouched | src/main/java/tomato/logic/backend/data/TomatoData.java:162-166 | an entity that no status record names keeps its stats through the tick |
| SessionSpec.StatusStatsLastWins | src/main/java/tomato/logic/backend/data/TomatoData.java:162-166 | after a tick, each stat of an entity holds the value from the last record that names the entity and carries that stat |
| SessionSpec.ObjectStatsLastWins | src/main/java/tomato/logic/backend/data/TomatoData.java:78-81 | after an update's new objects, each stat of an entity holds the value from the last new-object record that names the entity and carries that stat |
| SessionSpec.ClearCallsCount | src/main/java/tomato/logic/backend/data/TomatoData.java:251-253 | a projectile is cleared once per slot holding it, so a spell projectile shared by k slots is cleared k times |
| SessionSpec.CharInventoryCalls | src/main/java/tomato/logic/backend/data/TomatoData.java:289-295 | one `updateCharInventory` per character, in roster order, to the seasonal vault iff the character is seasonal |
| SessionSpec.RosterContributions | src/main/java/tomato/logic/backend/data/TomatoData.java:287-295 | after a roster update each vault holds exactly the roster's characters of its kind, in order, and nothing from earlier rosters |
| Filing.KeyedValues | src/main/java/tomato/logic/backend/data/TomatoData.java:256-258 | a map keyed by its entities' own ids holds as many distinct entities as keys |
| Filing.ConsistentFiling | src/main/java/tomato/logic/backend/data/TomatoData.java:102-111 | filing a registered entity as crystal, player or local player keeps the registry cross-references |
| Filing.FiledRunStart | src/main/java/tomato/logic/backend/data/TomatoData.java:78-81 | filing no records changes nothing |
| Filing.FiledRunStep | src/main/java/tomato/logic/backend/data/TomatoData.java:78-81 | filing record n after the first n gives the registry keys, players, local player, tracker and log of the first n+1 |
| Filing.TickRunStep | src/main/java/tomato/logic/backend/data/TomatoData.java:162-166 | getting or creating record n's entity and logging its stats update extends the tick run by one |
| RealmSession.SpellSlot | src/main/java/tomato/logic/backend/data/TomatoData.java:187 | the slot is always a valid index in 1..511; for `j >= 0` it is `j % 256 + 256` in the spell region; a negative `j` not divisible by 256 lands below 256 |
| RealmSession.SpellSlots | src/main/java/tomato/logic/backend/data/TomatoData.java:186-188 | every bullet id of the run has its slot in the set, every slot is a valid index, and all slots are spell slots when `bulletId >= 0` |
| RealmSession.SpellSlotsOnly | src/main/java/tomato/logic/backend/data/TomatoData.java:186-188 | every slot in the fan-out's set is the slot of some bullet id of the run |
| RealmSession.ShotSlots | src/main/java/tomato/logic/backend/data/TomatoData.java:184-188 | no slot without spell-bullet data, and every slot is a valid index |
| RealmSession.ShotSlotsExactly | src/main/java/tomato/logic/backend/data/TomatoData.java:184-188 | a slot is written iff the packet has spell-bullet data and the slot is `j % 256 + 256` for some `j` from `bulletId` up to the int32-wrapped `bulletId + bulletCount` |
| Collaborators.Entity.ApplyObject | src/main/java/tomato/logic/backend/data/TomatoData.java:100 | the stats the new-object record carries overwrite the entity's, and the others stay |
| Collaborators.Entity.UpdateStats | src/main/java/tomato/logic/backend/data/TomatoData.java:165 | the stats the status record carries overwrite the entity's, and the others stay |
| RealmSession.TomatoData.constructor | src/main/java/tomato/logic/backend/data/TomatoData.java:22-36 | Java's field initialisers: zeroed ids and clock, no player or generator, empty maps, a zero grid, empty slots, two distinct vaults, no entities created yet |
| RealmSession.TomatoData.SetNewRealm | src/main/java/tomato/logic/backend/data/TomatoData.java:43-47 | the full reset of `clear`, then the new map and a fresh generator seeded from the map's seed |
| RealmSession.TomatoData.SetUserId | src/main/java/tomato/logic/backend/data/TomatoData.java:55-58 | stores the world object id and character id |
| RealmSession.TomatoData.SetTime | src/main/java/tomato/logic/backend/data/TomatoData.java:65-67 | stores the server clock |
| RealmSession.TomatoData.GetOrCreate | src/main/java/tomato/logic/backend/data/TomatoData.java:99 | `computeIfAbsent`: an existing entry is returned and kept; otherwise a fresh entity with the current time and no stats is filed under the id, joins the session's entities, and nothing else changes |
| RealmSession.TomatoData.Update | src/main/java/tomato/logic/backend/data/TomatoData.java:74-90 | tiles get their last delta; the registry gains exactly the new objects' ids and keeps old entries; each entity's stats are its old stats overwritten, in order, by the records naming it (`ObjectStats`); players, local player and tracker are filed as `entityUpdate` does; drops untrack ids and notify only known entities, never removing one |
| RealmSession.TomatoData.UpdateTiles | src/main/java/tomato/logic/backend/data/TomatoData.java:75-77 | each cell holds the last delta naming it, or its old value |
| RealmSession.TomatoData.UpdateObjects | src/main/java/tomato/logic/backend/data/TomatoData.java:78-81 | the new-object loop files every record in order (`FiledRun` over all records) and leaves each entity with the stats `ObjectStats` gives it; only entities it created are new |
| RealmSession.TomatoData.FileNext | src/main/java/tomato/logic/backend/data/TomatoData.java:79-80 | one `entityUpdate` extends the filed run and the stats run by one record |
| RealmSession.TomatoData.UpdateDrops | src/main/java/tomato/logic/backend/data/TomatoData.java:82-89 | every dropped id leaves the tracker; `entityDropped` is called, in order, only for ids with an entity; the registry is untouched |
| RealmSession.TomatoData.EntityUpdate | src/main/java/tomato/logic/backend/data/TomatoData.java:97-112 | get-or-create; the record's stats overwrite the entity's and every other entity's stats stay; tracked iff a crystal marker; filed as player iff a player class; cached as local player and flagged iff also the world player id; other state unchanged |
| RealmSession.TomatoData.FileObject | src/main/java/tomato/logic/backend/data/TomatoData.java:102-111 | the filing half of `entityUpdate`: tracked iff a crystal marker, filed as player iff a player class, cached as local player iff also the world player id, and the matching calls logged |
| RealmSession.TomatoData.FloorPlanCrystals | src/main/java/tomato/logic/backend/data/TomatoData.java:129-143 | the loop over the tracker, in any iteration order, returns `CrystalMask(crystalTracker)` |
| RealmSession.TomatoData.UpdateNewTick | src/main/java/tomato/logic/backend/data/TomatoData.java:160-167 | clock set first; the registry gains exactly the status ids and keeps old entries; new entries carry the new clock; each entity's stats are its old stats overwritten, in order, by the records naming it (`StatusStats`); one `updateStats` per record, in order |
| RealmSession.TomatoData.ApplyStatus | src/main/java/tomato/logic/backend/data/TomatoData.java:162-166 | the status loop: the tick run over all records (`TickRun`) and the stats `StatusStats` gives each entity |
| RealmSession.TomatoData.TickNext | src/main/java/tomato/logic/backend/data/TomatoData.java:163-165 | one get-or-create and stats update extends the tick run and the stats run by one record |
| RealmSession.TomatoData.PlayerShoot | src/main/java/tomato/logic/backend/data/TomatoData.java:174-176 | a fresh player projectile in slot `bulletId` and no other slot changed |
| RealmSession.TomatoData.ServerPlayerShoot | src/main/java/tomato/logic/backend/data/TomatoData.java:183-190 | nothing changes without spell-bullet data; otherwise one fresh spell projectile is shared by exactly the run's slots and every other slot is unchanged |
| RealmSession.TomatoData.EnemtyHit | src/main/java/tomato/logic/backend/data/TomatoData.java:197-206 | get-or-create on the target; one `userProjectileHit` with the slot's projectile and the shooter looked up among players; target added to the hit list iff absent, never replaced |
| RealmSession.TomatoData.Damage | src/main/java/tomato/logic/backend/data/TomatoData.java:213-224 | no change at all for amount <= 0; otherwise get-or-create, one `genericDamageHit` with a fresh literal projectile, and the target added iff absent and not a player-class id |
| RealmSession.TomatoData.Clear | src/main/java/tomato/logic/backend/data/TomatoData.java:238-254 | sentinels -1, no player or generator, empty registries and tracker, zero grid, one projectile `clear()` per occupied slot; slots and the exaltation table untouched |
| RealmSession.TomatoData.ResetFields | src/main/java/tomato/logic/backend/data/TomatoData.java:239-247 | the scalar sentinels and empty registries of `clear`; the set of entities created since the last reset starts empty again |
| RealmSession.TomatoData.ZeroTiles | src/main/java/tomato/logic/backend/data/TomatoData.java:248-250 | every grid cell is 0 |
| RealmSession.TomatoData.FillRow | src/main/java/tomato/logic/backend/data/TomatoData.java:249 | row x is zeroed and every other row untouched |
| RealmSession.TomatoData.ClearProjectiles | src/main/java/tomato/logic/backend/data/TomatoData.java:251-253 | one `clear()` per occupied slot, in slot order |
| RealmSession.TomatoData.GetEntityHitList | src/main/java/tomato/logic/backend/data/TomatoData.java:256-258 | every hit-list entry is in the result, every result is the entry under its own id, and there are as many as entries |
| RealmSession.TomatoData.ExaltUpdate | src/main/java/tomato/logic/backend/data/TomatoData.java:260-272 | the object type maps to the eight progress values in stat order; other types keep theirs |
| RealmSession.TomatoData.VaultPacketUpdate | src/main/java/tomato/logic/backend/data/TomatoData.java:274-282 | no vault without a local player; otherwise exactly one, the seasonal one iff the player's current UNKNOWN24 stat is 1 |
| RealmSession.TomatoData.CharacterListUpdate | src/main/java/tomato/logic/backend/data/TomatoData.java:284-296 | roster adopted; both vaults cleared before any inventory call; afterwards each vault holds exactly the roster's characters of its kind |
| RealmSession.TomatoData.GiveCharacters | src/main/java/tomato/logic/backend/data/TomatoData.java:289-295 | the roster loop makes exactly `CharInventoryCalls`: each character to one vault, by its own flag |

## Left out

- `text()` is an empty method, so it has no model.
- `CharacterStatsGUI.updateRealmChars`, a GUI call, is a no-op here: no state of the session depends on it.
- The internals of `Entity`, `Projectile`, `VaultData`, `RNG` and `CharacterClass` are not part of this model. Their calls are ghost-log entries, and `isPlayerCharacter` is the constructor-given set `playerClasses`.
- The `Entity` constructor's back-reference to the session is left out.
- What `Entity.entityUpdate` and `Entity.updateStats` do inside the entity is not part of this model. Both are modelled as overwriting the entity's stats with the stats the record carries; the other fields they set are left out. A stat no record has carried reads as 0.
- `StatType` is not part of this model. The code of `UNKNOWN24` is a constructor parameter (`unknown24Stat`).
- Concurrent GUI readers are left out; the model is single-threaded.
- Out-of-range tile coordinates and bullet ids throw in Java. They are preconditions here (`0 <= x, y < 2048`, `0 <= bulletId < 512`, int-range `bulletId` and `bulletCount`) rather than modelled exceptions.
- `getEntityHitList` returns an array in HashMap iteration order, which is unspecified. The model returns the set of entities and proves it has one element per entry.
- RealmSession.TomatoData.Update: states that each newly registered entity carries the current clock as its creation time, and that every entity added to `entityRepr` is freshly allocated, but not per registry key that the new entry is a fresh object. `EntityUpdate` and `GetOrCreate` state that for one record.
- RealmSession.TomatoData.Update: may change any entity in `entityRepr`. `Valid()` states that every registry entity is in `entityRepr`, but not the converse, so the frame is not proved to be exactly the registry's entities. Since only a reset removes registry entries and a reset empties `entityRepr`, the two sets hold the same entities in every reachable state. Stating that equality in `Valid()` put the object-filing loop over the verifier's resource limit.
- RealmSession.TomatoData.UpdateObjects: states freshness only through `entityRepr`, as `Update` does, and has the same frame gap as `Update`.
- RealmSession.TomatoData.FileNext: states freshness only through `entityRepr`, not per registry key, and has the same frame gap as `Update`.
- RealmSession.TomatoData.UpdateNewTick: states creation time, and freshness only through `entityRepr`, for the entities it registers. It has the same frame gap as `Update`. `GetOrCreate` states per-key freshness for one record.
- RealmSession.TomatoData.ApplyStatus: states freshness only through `entityRepr`, not per registry key, and has the same frame gap as `Update`.
- RealmSession.TomatoData.TickNext: states freshness only through `entityRepr`, not per registry key, and has the same frame gap as `Update`.
- Time is a Java `long` that the session only stores and passes on. It is an unbounded `int` here, with no wrap-around.

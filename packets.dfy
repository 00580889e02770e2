/**
 * The fields of the inbound and outbound packets that the session consumes.
 * Decoding them from bytes is done elsewhere and is not part of this model.
 */
module Packets {
  /** A map-info packet: the realm's identity and the seed of its projectile generator. */
  datatype MapInfoPacket = MapInfoPacket(name: string, seed: int)

  /** One tile delta of an update packet. */
  datatype Tile = Tile(x: int, y: int, tileType: int)

  /** An object's status record: its id and its raw stat entries (stat type to value). */
  datatype ObjectStatus = ObjectStatus(objectId: int, stats: map<int, int>)

  /** A new-object record of an update packet. */
  datatype ObjectData = ObjectData(objectType: int, status: ObjectStatus)

  datatype UpdatePacket = UpdatePacket(tiles: seq<Tile>, newObjects: seq<ObjectData>, drops: seq<int>)

  datatype NewTickPacket = NewTickPacket(serverRealTimeMS: int, status: seq<ObjectStatus>)

  datatype PlayerShootPacket = PlayerShootPacket(bulletId: int, weaponId: int, projectileId: int)

  datatype ServerPlayerShootPacket = ServerPlayerShootPacket(
    spellBulletData: bool, damage: int, containerType: int, bulletId: int, bulletCount: int)

  datatype EnemyHitPacket = EnemyHitPacket(bulletId: int, targetId: int, shooterId: int)

  datatype DamagePacket = DamagePacket(targetId: int, objectId: int, damageAmount: int)

  datatype ExaltationUpdatePacket = ExaltationUpdatePacket(
    objType: int,
    dexterityProgress: int, speedProgress: int, vitalityProgress: int, wisdomProgress: int,
    defenseProgress: int, attackProgress: int, manaProgress: int, healthProgress: int)

  /** A vault-content push; its slot payload is passed through to a vault unread. */
  datatype VaultContentPacket = VaultContentPacket(payload: seq<int>)

  /** A playable character from a character-list snapshot. */
  datatype RealmCharacter = RealmCharacter(charId: int, seasonal: bool, inventory: seq<int>)
}

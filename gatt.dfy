/**
 * The fixed GATT vocabulary of the bot: one vendor service, two vendor
 * characteristics and the one command the controller sends, and the rule
 * that decides which discovered characteristic plays which role.
 */
module Gatt {

  /** A UUID, in its canonical lower-case textual form; only equality matters. */
  type Uuid = string

  const BotServiceUuid: Uuid := "cba20d00-224d-11e6-9fb8-0002a5d5c51b"
  const NotifyUuid: Uuid := "cba20003-224d-11e6-9fb8-0002a5d5c51b"
  const WriteUuid: Uuid := "cba20002-224d-11e6-9fb8-0002a5d5c51b"

  /** The "press / turn on" command. */
  const TurnOnCommand: seq<bv8> := [0x57, 0x01, 0x00]

  /** A discovered service; `handle` tells apart services with the same UUID. */
  datatype Service = Service(handle: nat, uuid: Uuid)

  /** A discovered characteristic; `handle` tells apart characteristics with the same UUID. */
  datatype Characteristic = Characteristic(handle: nat, uuid: Uuid)

  /** Positions, in the discovered list, of the notify and the write characteristic. */
  datatype Roles = Roles(notify: nat, write: nat)

  lemma VendorUuidsDistinct()
    ensures NotifyUuid != WriteUuid
  {
    assert NotifyUuid[7] != WriteUuid[7];
  }

  /**
   * The first two discovered characteristics share the two roles. Only the
   * UUID of the first one is looked at: if it is the notify UUID the first
   * one notifies and the second is written to, otherwise the other way round.
   */
  function AssignRoles(chars: seq<Characteristic>): (r: Roles)
    requires |chars| >= 2
    ensures r.notify < 2 && r.write < 2 && r.notify != r.write
    ensures NotifyUuid in {chars[0].uuid, chars[1].uuid} ==> chars[r.notify].uuid == NotifyUuid
  {
    if chars[0].uuid == NotifyUuid then Roles(0, 1) else Roles(1, 0)
  }

  /** When the first two carry the two vendor UUIDs, in either order, each goes to its own role. */
  lemma RolesFollowUuids(chars: seq<Characteristic>)
    requires |chars| >= 2
    requires {chars[0].uuid, chars[1].uuid} == {NotifyUuid, WriteUuid}
    ensures chars[AssignRoles(chars).notify].uuid == NotifyUuid
    ensures chars[AssignRoles(chars).write].uuid == WriteUuid
  {
    VendorUuidsDistinct();
    assert chars[0].uuid in {NotifyUuid, WriteUuid};
    assert chars[1].uuid in {NotifyUuid, WriteUuid};
    assert NotifyUuid in {chars[0].uuid, chars[1].uuid};
    assert WriteUuid in {chars[0].uuid, chars[1].uuid};
  }

  /**
   * Swapping the first two characteristics changes no role, provided exactly
   * one of them carries the notify UUID.
   */
  lemma RolesOrderIndependent(chars: seq<Characteristic>)
    requires |chars| >= 2
    requires (chars[0].uuid == NotifyUuid) != (chars[1].uuid == NotifyUuid)
    ensures var swapped := [chars[1], chars[0]] + chars[2..];
      && swapped[AssignRoles(swapped).notify] == chars[AssignRoles(chars).notify]
      && swapped[AssignRoles(swapped).write] == chars[AssignRoles(chars).write]
  {
  }

  /**
   * The roles depend on the UUID of the first characteristic alone: neither the
   * second one's UUID nor anything after the second one is consulted.
   */
  lemma RolesDependOnFirstUuidOnly(chars: seq<Characteristic>, others: seq<Characteristic>)
    requires |chars| >= 2 && |others| >= 2
    requires chars[0].uuid == others[0].uuid
    ensures AssignRoles(chars) == AssignRoles(others)
  {
  }
}

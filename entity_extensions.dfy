/** Null-safe fee lookups on a tenant: the room's override, else the default of
    the building reached through room, floor and building, else the default of
    a caller-supplied building, else zero. */
module EntityExtensions {
  import opened Wrappers
  import opened Entities

  /** `user?.CurrentRoom?.RoomId ?? 0`; a missing user has no current room. */
  function GetRoomId(currentRoom: Option<Room>): (id: int)
    ensures currentRoom.None? ==> id == 0
    ensures currentRoom.Some? ==> id == currentRoom.value.roomId
  {
    if currentRoom.Some? then currentRoom.value.roomId else 0
  }

  /** `GetRoomMonthlyRent`, `GetRoomWaterFee`, `GetRoomElectricityFee` and
      `GetRoomWifiFee`, which differ only in the component they read. */
  function GetRoomFee(kind: FeeKind, currentRoom: Option<Room>, defaultBuilding: Option<Building>): (fee: real)
    // an override wins even when it is zero
    ensures currentRoom.Some? && CustomFee(currentRoom.value, kind).Some? ==>
              fee == CustomFee(currentRoom.value, kind).value
    // then the default of the room's own building
    ensures currentRoom.Some? && CustomFee(currentRoom.value, kind).None? && RoomBuilding(currentRoom.value).Some? ==>
              fee == DefaultFee(RoomBuilding(currentRoom.value).value, kind)
    // then the supplied building, then zero
    ensures (currentRoom.None? || (CustomFee(currentRoom.value, kind).None? && RoomBuilding(currentRoom.value).None?)) ==>
              fee == (if defaultBuilding.Some? then DefaultFee(defaultBuilding.value, kind) else 0.0)
  {
    if currentRoom.Some? && CustomFee(currentRoom.value, kind).Some? then
      CustomFee(currentRoom.value, kind).value
    else if currentRoom.Some? && RoomBuilding(currentRoom.value).Some? then
      DefaultFee(RoomBuilding(currentRoom.value).value, kind)
    else if defaultBuilding.Some? then
      DefaultFee(defaultBuilding.value, kind)
    else
      0.0
  }

  /** Once the room's own building is loaded, the supplied building is never
      consulted, and the lookup is `custom ?? building default`, the form the
      controllers write out inline. */
  lemma GetRoomFeeWithLoadedChain(kind: FeeKind, room: Room, d1: Option<Building>, d2: Option<Building>)
    requires RoomBuilding(room).Some?
    ensures GetRoomFee(kind, Some(room), d1) == GetRoomFee(kind, Some(room), d2)
    ensures GetRoomFee(kind, Some(room), d1) == CustomFee(room, kind).GetOr(DefaultFee(RoomBuilding(room).value, kind))
  {
  }

  /** The result is always one of the three candidates or zero. */
  lemma GetRoomFeeIsACandidate(kind: FeeKind, currentRoom: Option<Room>, defaultBuilding: Option<Building>)
    ensures var fee := GetRoomFee(kind, currentRoom, defaultBuilding);
            (currentRoom.Some? && CustomFee(currentRoom.value, kind) == Some(fee)) ||
            (currentRoom.Some? && RoomBuilding(currentRoom.value).Some? &&
               fee == DefaultFee(RoomBuilding(currentRoom.value).value, kind)) ||
            (defaultBuilding.Some? && fee == DefaultFee(defaultBuilding.value, kind)) ||
            fee == 0.0
  {
  }
}

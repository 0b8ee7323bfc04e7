/** The records the billing core reads: buildings with default fees and a
    late-fee percentage, floors, rooms with optional per-room overrides, and
    tenant accounts. A navigation that may be missing is an `Option`. Lookups
    return the first match, as `FirstOrDefaultAsync` does. */
module Entities {
  import opened Wrappers
  import opened Calendar

  datatype Building = Building(
    buildingId: int,
    defaultMonthlyRent: real,
    defaultWaterFee: real,
    defaultElectricityFee: real,
    defaultWifiFee: real,
    lateFee: real)             // a percentage, 0 to 100

  datatype Floor = Floor(floorId: int, buildingId: int, building: Option<Building>)

  datatype Room = Room(
    roomId: int,
    isOccupied: bool,
    customMonthlyRent: Option<real>,
    customWaterFee: Option<real>,
    customElectricityFee: Option<real>,
    customWifiFee: Option<real>,
    floor: Option<Floor>)

  /** A tenant account. Its `startDate` anchors the billing cycle; `roomId` is
      the foreign key behind the `CurrentRoom` navigation. */
  datatype Tenant = Tenant(
    id: string,
    startDate: Date,
    roomId: Option<int>,
    buildingId: Option<int>,
    isArchived: bool)

  /** The four recurring fee components. */
  datatype FeeKind = Rent | Water | Electricity | Wifi

  /** The room's override for a component (`CustomMonthlyRent`, ...). */
  function CustomFee(room: Room, kind: FeeKind): Option<real> {
    match kind
    case Rent => room.customMonthlyRent
    case Water => room.customWaterFee
    case Electricity => room.customElectricityFee
    case Wifi => room.customWifiFee
  }

  /** The building's default for a component (`DefaultMonthlyRent`, ...). */
  function DefaultFee(building: Building, kind: FeeKind): real {
    match kind
    case Rent => building.defaultMonthlyRent
    case Water => building.defaultWaterFee
    case Electricity => building.defaultElectricityFee
    case Wifi => building.defaultWifiFee
  }

  /** `room.Floor?.Building`. */
  function RoomBuilding(room: Room): Option<Building> {
    if room.floor.Some? then room.floor.value.building else None
  }

  /** The day of the month that anchors a tenant's billing cycle. */
  function BillingCycleDay(t: Tenant): int {
    t.startDate.day
  }

  /** Position of the first occurrence of a key, as `FirstOrDefaultAsync`
      finds the first row whose key matches. */
  function FirstIndex<K(==)>(keys: seq<K>, key: K): (r: Option<nat>)
    ensures r.None? <==> forall k :: 0 <= k < |keys| ==> keys[k] != key
    ensures r.Some? ==> r.value < |keys| && keys[r.value] == key
    ensures r.Some? ==> forall k :: 0 <= k < r.value ==> keys[k] != key
  {
    if |keys| == 0 then None
    else if keys[0] == key then Some(0)
    else
      var rest := FirstIndex(keys[1..], key);
      if rest.Some? then Some(rest.value + 1) else None
  }

  /** The accounts' ids, in table order. */
  function UserIds(users: seq<Tenant>): (ids: seq<string>)
    ensures |ids| == |users| && forall k :: 0 <= k < |users| ==> ids[k] == users[k].id
  {
    seq(|users|, k requires 0 <= k < |users| => users[k].id)
  }

  /** The rooms' ids, in table order. */
  function RoomIds(rooms: seq<Room>): (ids: seq<int>)
    ensures |ids| == |rooms| && forall k :: 0 <= k < |rooms| ==> ids[k] == rooms[k].roomId
  {
    seq(|rooms|, k requires 0 <= k < |rooms| => rooms[k].roomId)
  }

  /** Position of the first user with the given id. */
  function UserIndex(users: seq<Tenant>, id: string): (r: Option<nat>)
    ensures r.None? <==> forall k :: 0 <= k < |users| ==> users[k].id != id
    ensures r.Some? ==> r.value < |users| && users[r.value].id == id
    ensures r.Some? ==> forall k :: 0 <= k < r.value ==> users[k].id != id
  {
    FirstIndex(UserIds(users), id)
  }

  /** The first user with the given id. */
  function FindUser(users: seq<Tenant>, id: string): Option<Tenant> {
    var i := UserIndex(users, id);
    if i.Some? then Some(users[i.value]) else None
  }

  /** Position of the first room with the given id. */
  function RoomIndex(rooms: seq<Room>, roomId: int): (r: Option<nat>)
    ensures r.None? <==> forall k :: 0 <= k < |rooms| ==> rooms[k].roomId != roomId
    ensures r.Some? ==> r.value < |rooms| && rooms[r.value].roomId == roomId
    ensures r.Some? ==> forall k :: 0 <= k < r.value ==> rooms[k].roomId != roomId
  {
    FirstIndex(RoomIds(rooms), roomId)
  }

  /** The first room with the given id. */
  function FindRoom(rooms: seq<Room>, roomId: int): Option<Room> {
    var i := RoomIndex(rooms, roomId);
    if i.Some? then Some(rooms[i.value]) else None
  }

  /** A tenant's `CurrentRoom` navigation, loaded through `RoomId`. */
  function CurrentRoom(rooms: seq<Room>, t: Tenant): Option<Room> {
    if t.roomId.Some? then FindRoom(rooms, t.roomId.value) else None
  }

  /** Whether some user's `RoomId` points at the room (its `CurrentTenant` navigation). */
  predicate HasCurrentTenant(users: seq<Tenant>, roomId: int) {
    exists k :: 0 <= k < |users| && users[k].roomId == Some(roomId)
  }

  /** Why loading a tenant with its room, floor and building failed. */
  datatype ChainError = TenantOrRoomMissing | FloorOrBuildingMissing

  /** The tenant, its current room and that room's building, as the services
      load them before billing; they throw `ArgumentException` on either error. */
  function ResolveChain(users: seq<Tenant>, rooms: seq<Room>, tenantId: string)
    : (r: Result<(Tenant, Room, Building), ChainError>)
    ensures r.Ok? ==> FindUser(users, tenantId) == Some(r.value.0)
    ensures r.Ok? ==> CurrentRoom(rooms, r.value.0) == Some(r.value.1)
    ensures r.Ok? ==> RoomBuilding(r.value.1) == Some(r.value.2)
    ensures r == Err(TenantOrRoomMissing) <==>
              FindUser(users, tenantId).None? || CurrentRoom(rooms, FindUser(users, tenantId).value).None?
  {
    match FindUser(users, tenantId)
    case None => Err(TenantOrRoomMissing)
    case Some(t) =>
      match CurrentRoom(rooms, t)
      case None => Err(TenantOrRoomMissing)
      case Some(room) =>
        match RoomBuilding(room)
        case None => Err(FloorOrBuildingMissing)
        case Some(b) => Ok((t, room, b))
  }
}

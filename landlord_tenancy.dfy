/** The landlord's tenancy actions: adding a tenant to a free room, moving a
    tenant to another room, archiving a tenant, and entering a meter reading
    by hand. A room's occupancy flag and the tenants' room assignments are
    kept in step; `Consistent` states that and every action is proved to
    keep it. */
module LandlordTenancy {
  import opened Wrappers
  import opened Calendar
  import opened Entities
  import opened BillModel
  import opened MeterModel
  import opened Store
  import opened BillingService
  import opened BillingRuns
  import opened MeterReadingService

  /** Why a tenancy action was refused. */
  datatype TenancyError =
    | RoomNotFound
    | RoomOccupied
    | AccountRejected                   // the identity store refused the new account
    | InvalidTenant                     // an empty tenant id
    | TenantNotFound
    | RoomUnavailable                   // the target room is missing or occupied
    | InitialBillFailed(cause: ChainError)
    | ReadingExistsForMonth
    | TenantOrRoomNotFound
    | RateUnavailable                   // no custom rate and no floor or building to default from

  /** The two tables the tenancy actions change. */
  type Tables = (seq<Tenant>, seq<Room>)

  // ---------------------------------------------------------------------------
  // The occupancy invariant
  // ---------------------------------------------------------------------------

  predicate RoomIdsUnique(rooms: seq<Room>) {
    forall i, j :: 0 <= i < |rooms| && 0 <= j < |rooms| && i != j ==> rooms[i].roomId != rooms[j].roomId
  }

  predicate UserIdsUnique(users: seq<Tenant>) {
    forall i, j :: 0 <= i < |users| && 0 <= j < |users| && i != j ==> users[i].id != users[j].id
  }

  /** A room is the current room of at most one user. */
  predicate OneTenantPerRoom(users: seq<Tenant>) {
    forall i, j :: 0 <= i < |users| && 0 <= j < |users| && i != j && users[i].roomId.Some? ==>
      users[i].roomId != users[j].roomId
  }

  /** `IsOccupied` is set exactly on the rooms that have a current tenant. */
  predicate OccupancyMatches(users: seq<Tenant>, rooms: seq<Room>) {
    forall k :: 0 <= k < |rooms| ==> (rooms[k].isOccupied <==> HasCurrentTenant(users, rooms[k].roomId))
  }

  predicate Consistent(users: seq<Tenant>, rooms: seq<Room>) {
    RoomIdsUnique(rooms) && UserIdsUnique(users) && OneTenantPerRoom(users) && OccupancyMatches(users, rooms)
  }

  /** `room.Floor?.BuildingId`. */
  function RoomBuildingId(room: Room): (r: Option<int>)
    ensures r.Some? <==> room.floor.Some?
    ensures r.Some? ==> r.value == room.floor.value.buildingId
  {
    if room.floor.Some? then Some(room.floor.value.buildingId) else None
  }

  /** Appending a user adds at most the appended user's room to the occupied ones. */
  lemma CurrentTenantAppend(users: seq<Tenant>, u: Tenant, roomId: int)
    ensures HasCurrentTenant(users + [u], roomId) <==> HasCurrentTenant(users, roomId) || u.roomId == Some(roomId)
  {
    var all := users + [u];
    if HasCurrentTenant(all, roomId) {
      var k :| 0 <= k < |all| && all[k].roomId == Some(roomId);
      if k < |users| {
        assert users[k] == all[k];
      }
    }
    if HasCurrentTenant(users, roomId) {
      var k :| 0 <= k < |users| && users[k].roomId == Some(roomId);
      assert all[k] == users[k];
    }
    if u.roomId == Some(roomId) {
      assert all[|users|] == u;
    }
  }

  /** Replacing one user's row: a room keeps a current tenant unless it was
      that user's, and gains one if it is the new row's. */
  lemma CurrentTenantUpdate(users: seq<Tenant>, i: nat, u: Tenant, roomId: int)
    requires i < |users| && OneTenantPerRoom(users)
    ensures HasCurrentTenant(users[i := u], roomId) <==>
              u.roomId == Some(roomId) || (HasCurrentTenant(users, roomId) && users[i].roomId != Some(roomId))
  {
    var all := users[i := u];
    if HasCurrentTenant(all, roomId) && u.roomId != Some(roomId) {
      var k :| 0 <= k < |all| && all[k].roomId == Some(roomId);
      assert k != i && users[k] == all[k];
    }
    if u.roomId == Some(roomId) {
      assert all[i] == u;
    } else if HasCurrentTenant(users, roomId) && users[i].roomId != Some(roomId) {
      var k :| 0 <= k < |users| && users[k].roomId == Some(roomId);
      assert k != i && all[k] == users[k];
    }
  }


  /** Two room tables listing the same room ids in the same order. */
  predicate SameRoomIds(a: seq<Room>, b: seq<Room>) {
    |a| == |b| && forall k :: 0 <= k < |a| ==> a[k].roomId == b[k].roomId
  }

  /** Changing only occupancy flags changes no lookup by room id. */
  lemma SameRoomIdsLookup(a: seq<Room>, b: seq<Room>, roomId: int)
    requires SameRoomIds(a, b)
    ensures RoomIndex(a, roomId) == RoomIndex(b, roomId)
    ensures RoomIdsUnique(a) ==> RoomIdsUnique(b)
  {
    var ia, ib := RoomIndex(a, roomId), RoomIndex(b, roomId);
    if ia.Some? {
      assert b[ia.value].roomId == roomId;
    }
    if ib.Some? {
      assert a[ib.value].roomId == roomId;
    }
  }

  /** Two account tables listing the same ids in the same order. */
  predicate SameUserIds(a: seq<Tenant>, b: seq<Tenant>) {
    |a| == |b| && forall k :: 0 <= k < |a| ==> a[k].id == b[k].id
  }

  /** Changing an account's room, building or archive flag changes no lookup by id. */
  lemma SameUserIdsLookup(a: seq<Tenant>, b: seq<Tenant>, id: string)
    requires SameUserIds(a, b)
    ensures UserIndex(a, id) == UserIndex(b, id)
    ensures UserIdsUnique(a) ==> UserIdsUnique(b)
  {
    var ia, ib := UserIndex(a, id), UserIndex(b, id);
    if ia.Some? {
      assert b[ia.value].id == id;
    }
    if ib.Some? {
      assert a[ib.value].id == id;
    }
  }

  /** Appending an account with a fresh id and an unassigned room keeps ids
      and room assignments unique. */
  lemma AppendKeepsUniqueness(users: seq<Tenant>, u: Tenant)
    requires OneTenantPerRoom(users) && UserIdsUnique(users)
    requires forall k :: 0 <= k < |users| ==> users[k].id != u.id && users[k].roomId != u.roomId
    ensures OneTenantPerRoom(users + [u]) && UserIdsUnique(users + [u])
  {
  }

  /** Appending an account in room `ri` and flagging that room occupied keeps
      the flags in step. */
  lemma AppendKeepsOccupancy(users: seq<Tenant>, rooms: seq<Room>, ri: nat, u: Tenant)
    requires ri < |rooms| && RoomIdsUnique(rooms) && OccupancyMatches(users, rooms)
    requires u.roomId == Some(rooms[ri].roomId)
    ensures OccupancyMatches(users + [u], rooms[ri := rooms[ri].(isOccupied := true)])
  {
    var rs := rooms[ri := rooms[ri].(isOccupied := true)];
    forall k | 0 <= k < |rs|
      ensures rs[k].isOccupied <==> HasCurrentTenant(users + [u], rs[k].roomId)
    {
      CurrentTenantAppend(users, u, rooms[k].roomId);
    }
  }

  /** Giving one account a room nobody else has keeps room assignments unique. */
  lemma ReassignKeepsOneTenantPerRoom(users: seq<Tenant>, ui: nat, u: Tenant)
    requires ui < |users| && OneTenantPerRoom(users)
    requires u.roomId.Some? ==> forall k :: 0 <= k < |users| && k != ui ==> users[k].roomId != u.roomId
    ensures OneTenantPerRoom(users[ui := u])
  {
  }

  /** Replacing one account's row keeps the flags in step when each room ends
      up occupied exactly if it is the new row's room, or it was occupied and
      was not the old row's room. */
  lemma ReassignKeepsOccupancy(users: seq<Tenant>, rooms: seq<Room>, ui: nat, u: Tenant, rs: seq<Room>)
    requires ui < |users| && OneTenantPerRoom(users) && OccupancyMatches(users, rooms)
    requires SameRoomIds(rooms, rs)
    requires forall k :: 0 <= k < |rs| ==>
               (rs[k].isOccupied <==>
                  u.roomId == Some(rooms[k].roomId) ||
                  (rooms[k].isOccupied && users[ui].roomId != Some(rooms[k].roomId)))
    ensures OccupancyMatches(users[ui := u], rs)
  {
    forall k | 0 <= k < |rs|
      ensures rs[k].isOccupied <==> HasCurrentTenant(users[ui := u], rs[k].roomId)
    {
      CurrentTenantUpdate(users, ui, u, rooms[k].roomId);
    }
  }

  // ---------------------------------------------------------------------------
  // AddTenant
  // ---------------------------------------------------------------------------

  /** The account `AddTenant` creates: the chosen room, the room's building
      and the chosen start date, not archived. */
  function NewTenant(newId: string, room: Room, startDate: Date): (t: Tenant)
    ensures t.id == newId && t.roomId == Some(room.roomId) && t.startDate == startDate
    ensures t.buildingId == RoomBuildingId(room) && !t.isArchived
  {
    Tenant(newId, startDate, Some(room.roomId), RoomBuildingId(room), false)
  }

  /** `AddTenant`'s effect on the accounts and rooms. The room must exist and
      be free (neither flagged occupied nor anyone's current room); `created`
      is the identity store's answer, which also refuses an id already in use.
      The new account is appended and its room flagged occupied. */
  function AddTenantTables(users: seq<Tenant>, rooms: seq<Room>, newId: string, roomId: int, startDate: Date,
                           created: bool): (r: Result<Tables, TenancyError>)
    ensures r == Err(RoomNotFound) <==> FindRoom(rooms, roomId).None?
    ensures r == Err(RoomOccupied) <==>
              FindRoom(rooms, roomId).Some? &&
              (FindRoom(rooms, roomId).value.isOccupied || HasCurrentTenant(users, roomId))
    ensures r == Err(AccountRejected) <==>
              FindRoom(rooms, roomId).Some? && !FindRoom(rooms, roomId).value.isOccupied &&
              !HasCurrentTenant(users, roomId) && (!created || FindUser(users, newId).Some?)
    ensures r.Ok? ==>
              var ri := RoomIndex(rooms, roomId).value;
              r.value.0 == users + [NewTenant(newId, rooms[ri], startDate)] &&
              r.value.1 == rooms[ri := rooms[ri].(isOccupied := true)]
  {
    match RoomIndex(rooms, roomId)
    case None => Err(RoomNotFound)
    case Some(ri) =>
      var room := rooms[ri];
      if room.isOccupied || HasCurrentTenant(users, roomId) then Err(RoomOccupied)
      else if !created || UserIndex(users, newId).Some? then Err(AccountRejected)
      else Ok((users + [NewTenant(newId, room, startDate)], rooms[ri := room.(isOccupied := true)]))
  }

  /** Adding a tenant keeps the tables consistent, and the new tenant's current
      room is the chosen room, now flagged occupied. */
  lemma AddTenantKeepsConsistent(users: seq<Tenant>, rooms: seq<Room>, newId: string, roomId: int, startDate: Date,
                                 created: bool)
    requires Consistent(users, rooms)
    ensures var r := AddTenantTables(users, rooms, newId, roomId, startDate, created);
            r.Ok? ==> Consistent(r.value.0, r.value.1) &&
                      FindUser(r.value.0, newId).Some? &&
                      CurrentRoom(r.value.1, FindUser(r.value.0, newId).value).Some? &&
                      CurrentRoom(r.value.1, FindUser(r.value.0, newId).value).value.roomId == roomId &&
                      CurrentRoom(r.value.1, FindUser(r.value.0, newId).value).value.isOccupied
  {
    var r := AddTenantTables(users, rooms, newId, roomId, startDate, created);
    if r.Ok? {
      var ri := RoomIndex(rooms, roomId).value;
      var u := NewTenant(newId, rooms[ri], startDate);
      var (us, rs) := r.value;
      assert forall k :: 0 <= k < |users| ==> users[k].id != newId && users[k].roomId != u.roomId;
      AppendKeepsUniqueness(users, u);
      AppendKeepsOccupancy(users, rooms, ri, u);
      SameRoomIdsLookup(rooms, rs, roomId);
      assert us[|users|] == u;
      assert UserIndex(us, newId) == Some(|users|);
    }
  }

  /** `AddTenant`: the account and room change as `AddTenantTables` says; once
      they are saved the tenant's initial bill is generated, and a failure to
      generate it is logged and swallowed. */
  method AddTenant(db: Database, newId: string, roomId: int, startDate: Date, created: bool, stamp: string)
    returns (r: Result<(), TenancyError>)
    modifies db`users, db`rooms, db`bills
    ensures var t := AddTenantTables(old(db.users), old(db.rooms), newId, roomId, startDate, created);
            (r.Err? <==> t.Err?) && (r.Err? ==> r.error == t.error) &&
            (t.Err? ==> db.users == old(db.users) && db.rooms == old(db.rooms) && db.bills == old(db.bills)) &&
            (t.Ok? ==> db.users == t.value.0 && db.rooms == t.value.1 &&
                       var bill := InitialBillForTenant(t.value.0, t.value.1, newId, stamp);
                       db.bills == old(db.bills) + (if bill.Ok? then [bill.value] else []))
  {
    var t := AddTenantTables(db.users, db.rooms, newId, roomId, startDate, created);
    if t.Err? {
      return Err(t.error);
    }
    db.users := t.value.0;
    db.rooms := t.value.1;
    var bill := GenerateInitialBillForTenant(db, newId, stamp);
    r := Ok(());
  }

  // ---------------------------------------------------------------------------
  // MoveTenant
  // ---------------------------------------------------------------------------

  /** `MoveTenant`'s effect on the accounts and rooms. The tenant's old room (if
      any) is flagged free, then the new room flagged occupied; the tenant
      takes the new room, its building and, when one was given, the new start
      date. Only the occupancy flag is checked on the target room. */
  function MoveTenantTables(users: seq<Tenant>, rooms: seq<Room>, tenantId: string, newRoomId: int,
                            newStart: Option<Date>): (r: Result<Tables, TenancyError>)
    ensures r == Err(InvalidTenant) <==> |tenantId| == 0
    ensures r == Err(TenantNotFound) <==> |tenantId| > 0 && FindUser(users, tenantId).None?
    ensures r == Err(RoomUnavailable) <==>
              |tenantId| > 0 && FindUser(users, tenantId).Some? &&
              (FindRoom(rooms, newRoomId).None? || FindRoom(rooms, newRoomId).value.isOccupied)
    ensures r.Ok? ==>
              var ui := UserIndex(users, tenantId).value;
              var ni := RoomIndex(rooms, newRoomId).value;
              var t := users[ui];
              var freed := if CurrentRoom(rooms, t).Some?
                           then var oi := RoomIndex(rooms, t.roomId.value).value;
                                rooms[oi := rooms[oi].(isOccupied := false)]
                           else rooms;
              r.value.0 == users[ui := t.(roomId := Some(newRoomId), buildingId := RoomBuildingId(rooms[ni]),
                                         startDate := newStart.GetOr(t.startDate))] &&
              r.value.1 == freed[ni := freed[ni].(isOccupied := true)]
  {
    if |tenantId| == 0 then Err(InvalidTenant)
    else match UserIndex(users, tenantId)
      case None => Err(TenantNotFound)
      case Some(ui) =>
        match RoomIndex(rooms, newRoomId)
        case None => Err(RoomUnavailable)
        case Some(ni) =>
          if rooms[ni].isOccupied then Err(RoomUnavailable)
          else
            var t := users[ui];
            var freed := if CurrentRoom(rooms, t).Some?
                         then var oi := RoomIndex(rooms, t.roomId.value).value;
                              rooms[oi := rooms[oi].(isOccupied := false)]
                         else rooms;
            var moved := t.(roomId := Some(newRoomId), buildingId := RoomBuildingId(rooms[ni]),
                            startDate := newStart.GetOr(t.startDate));
            Ok((users[ui := moved], freed[ni := freed[ni].(isOccupied := true)]))
  }

  /** The rooms after a move: only the old and the new room change, and only
      their occupancy flags. */
  lemma MovedRooms(rooms: seq<Room>, freed: seq<Room>, after: seq<Room>, old_: Option<nat>, ni: nat)
    requires ni < |rooms| && (old_.Some? ==> old_.value < |rooms| && old_.value != ni)
    requires freed == (if old_.Some? then rooms[old_.value := rooms[old_.value].(isOccupied := false)] else rooms)
    requires after == freed[ni := freed[ni].(isOccupied := true)]
    ensures |after| == |rooms|
    ensures forall k :: 0 <= k < |rooms| ==> after[k].roomId == rooms[k].roomId
    ensures after[ni].isOccupied
    ensures old_.Some? ==> !after[old_.value].isOccupied
    ensures forall k :: 0 <= k < |rooms| && k != ni && (old_.None? || k != old_.value) ==> after[k] == rooms[k]
  {
  }

  /** The occupancy side of a move: user `ui` leaves room `old_` (if any) for
      the free room `ni`. */
  lemma MoveKeepsConsistent(users: seq<Tenant>, rooms: seq<Room>, ui: nat, ni: nat, old_: Option<nat>,
                            moved: Tenant, rs: seq<Room>)
    requires Consistent(users, rooms) && ui < |users| && ni < |rooms|
    requires forall k :: 0 <= k < |users| ==> users[k].roomId != Some(rooms[ni].roomId)
    requires moved.id == users[ui].id && moved.roomId == Some(rooms[ni].roomId)
    requires old_.Some? ==> old_.value < |rooms| && users[ui].roomId == Some(rooms[old_.value].roomId)
    requires old_.None? ==> forall k :: 0 <= k < |rooms| ==> users[ui].roomId != Some(rooms[k].roomId)
    requires var freed := if old_.Some? then rooms[old_.value := rooms[old_.value].(isOccupied := false)] else rooms;
             rs == freed[ni := freed[ni].(isOccupied := true)]
    ensures Consistent(users[ui := moved], rs) && SameRoomIds(rooms, rs) && SameUserIds(users, users[ui := moved])
    ensures rs[ni].isOccupied
    ensures old_.Some? ==> !HasCurrentTenant(users[ui := moved], rooms[old_.value].roomId) && !rs[old_.value].isOccupied
  {
    var freed := if old_.Some? then rooms[old_.value := rooms[old_.value].(isOccupied := false)] else rooms;
    MovedRooms(rooms, freed, rs, old_, ni);
    ReassignKeepsOneTenantPerRoom(users, ui, moved);
    SameUserIdsLookup(users, users[ui := moved], moved.id);
    SameRoomIdsLookup(rooms, rs, 0);
    assert forall k :: 0 <= k < |rooms| && k != ni ==> rooms[k].roomId != rooms[ni].roomId;
    assert forall k :: 0 <= k < |rooms| && (old_.None? || k != old_.value) ==> users[ui].roomId != Some(rooms[k].roomId);
    ReassignKeepsOccupancy(users, rooms, ui, moved, rs);
    if old_.Some? {
      CurrentTenantUpdate(users, ui, moved, rooms[old_.value].roomId);
    }
  }

  /** Under the invariant, moving a tenant keeps the tables consistent; the
      tenant's current room is the new room, flagged occupied, and the room it
      left is free with no current tenant. */
  lemma MoveTenantKeepsConsistent(users: seq<Tenant>, rooms: seq<Room>, tenantId: string, newRoomId: int,
                                  newStart: Option<Date>)
    requires Consistent(users, rooms)
    ensures var r := MoveTenantTables(users, rooms, tenantId, newRoomId, newStart);
            r.Ok? ==> Consistent(r.value.0, r.value.1) &&
                      FindUser(r.value.0, tenantId).Some? &&
                      CurrentRoom(r.value.1, FindUser(r.value.0, tenantId).value).Some? &&
                      CurrentRoom(r.value.1, FindUser(r.value.0, tenantId).value).value.roomId == newRoomId &&
                      CurrentRoom(r.value.1, FindUser(r.value.0, tenantId).value).value.isOccupied
    ensures var r := MoveTenantTables(users, rooms, tenantId, newRoomId, newStart);
            r.Ok? && CurrentRoom(rooms, FindUser(users, tenantId).value).Some? ==>
              var left := CurrentRoom(rooms, FindUser(users, tenantId).value).value.roomId;
              !HasCurrentTenant(r.value.0, left) && FindRoom(r.value.1, left).Some? &&
              !FindRoom(r.value.1, left).value.isOccupied
  {
    var r := MoveTenantTables(users, rooms, tenantId, newRoomId, newStart);
    if r.Ok? {
      var ui := UserIndex(users, tenantId).value;
      var ni := RoomIndex(rooms, newRoomId).value;
      var t := users[ui];
      var (us, rs) := r.value;
      // The new room is free, so nobody (the mover included) is in it.
      assert forall k :: 0 <= k < |users| ==> users[k].roomId != Some(newRoomId);
      var old_: Option<nat> := if CurrentRoom(rooms, t).Some? then RoomIndex(rooms, t.roomId.value) else None;
      MoveKeepsConsistent(users, rooms, ui, ni, old_, us[ui], rs);
      SameUserIdsLookup(users, us, tenantId);
      SameRoomIdsLookup(rooms, rs, newRoomId);
      if old_.Some? {
        SameRoomIdsLookup(rooms, rs, rooms[old_.value].roomId);
      }
    }
  }

  /** `MoveTenant`: the move is saved as `MoveTenantTables` says; then a new
      initial bill is generated, and if that fails the error is reported
      while the move stays saved. */
  method MoveTenant(db: Database, tenantId: string, newRoomId: int, newStart: Option<Date>, stamp: string)
    returns (r: Result<(), TenancyError>)
    modifies db`users, db`rooms, db`bills
    ensures var t := MoveTenantTables(old(db.users), old(db.rooms), tenantId, newRoomId, newStart);
            (t.Err? ==> r == Err(t.error) &&
                        db.users == old(db.users) && db.rooms == old(db.rooms) && db.bills == old(db.bills)) &&
            (t.Ok? ==> db.users == t.value.0 && db.rooms == t.value.1 &&
                       var bill := InitialBillForTenant(t.value.0, t.value.1, tenantId, stamp);
                       (bill.Ok? ==> r == Ok(()) && db.bills == old(db.bills) + [bill.value]) &&
                       (bill.Err? ==> r == Err(InitialBillFailed(bill.error)) && db.bills == old(db.bills)))
  {
    var t := MoveTenantTables(db.users, db.rooms, tenantId, newRoomId, newStart);
    if t.Err? {
      return Err(t.error);
    }
    db.users := t.value.0;
    db.rooms := t.value.1;
    var bill := GenerateInitialBillForTenant(db, tenantId, stamp);
    if bill.Err? {
      return Err(InitialBillFailed(bill.error));
    }
    r := Ok(());
  }

  // ---------------------------------------------------------------------------
  // ArchiveTenant
  // ---------------------------------------------------------------------------

  /** `ArchiveTenant`'s effect: the tenant's room, when it exists, is flagged
      free; the tenant loses its room and building and is archived. */
  function ArchiveTenantTables(users: seq<Tenant>, rooms: seq<Room>, tenantId: string)
    : (r: Result<Tables, TenancyError>)
    ensures r.Err? <==> FindUser(users, tenantId).None?
    ensures r.Err? ==> r.error == TenantNotFound
    ensures r.Ok? ==>
              var ui := UserIndex(users, tenantId).value;
              var t := users[ui];
              r.value.0 == users[ui := t.(roomId := None, buildingId := None, isArchived := true)] &&
              r.value.1 == (if CurrentRoom(rooms, t).Some?
                            then var oi := RoomIndex(rooms, t.roomId.value).value;
                                 rooms[oi := rooms[oi].(isOccupied := false)]
                            else rooms)
  {
    match UserIndex(users, tenantId)
    case None => Err(TenantNotFound)
    case Some(ui) =>
      var t := users[ui];
      var rooms' := if t.roomId.Some? && RoomIndex(rooms, t.roomId.value).Some?
                    then var oi := RoomIndex(rooms, t.roomId.value).value;
                         rooms[oi := rooms[oi].(isOccupied := false)]
                    else rooms;
      Ok((users[ui := t.(roomId := None, buildingId := None, isArchived := true)], rooms'))
  }

  /** Archiving keeps the tables consistent; the archived tenant has no room
      and the room it had is free with no current tenant. */
  lemma ArchiveTenantKeepsConsistent(users: seq<Tenant>, rooms: seq<Room>, tenantId: string)
    requires Consistent(users, rooms)
    ensures var r := ArchiveTenantTables(users, rooms, tenantId);
            r.Ok? ==> Consistent(r.value.0, r.value.1) &&
                      FindUser(r.value.0, tenantId).Some? &&
                      FindUser(r.value.0, tenantId).value.isArchived &&
                      CurrentRoom(r.value.1, FindUser(r.value.0, tenantId).value).None?
    ensures var r := ArchiveTenantTables(users, rooms, tenantId);
            r.Ok? && CurrentRoom(rooms, FindUser(users, tenantId).value).Some? ==>
              var left := CurrentRoom(rooms, FindUser(users, tenantId).value).value.roomId;
              !HasCurrentTenant(r.value.0, left) && FindRoom(r.value.1, left).Some? &&
              !FindRoom(r.value.1, left).value.isOccupied
  {
    var r := ArchiveTenantTables(users, rooms, tenantId);
    if r.Ok? {
      var ui := UserIndex(users, tenantId).value;
      var t := users[ui];
      var (us, rs) := r.value;
      var archived := us[ui];
      var old_: Option<nat> := if CurrentRoom(rooms, t).Some? then RoomIndex(rooms, t.roomId.value) else None;
      assert SameRoomIds(rooms, rs);
      assert forall k :: 0 <= k < |rooms| && (old_.None? || k != old_.value) ==>
                rs[k] == rooms[k] && t.roomId != Some(rooms[k].roomId);
      ReassignKeepsOneTenantPerRoom(users, ui, archived);
      SameUserIdsLookup(users, us, tenantId);
      ReassignKeepsOccupancy(users, rooms, ui, archived, rs);
      if old_.Some? {
        var left := rooms[old_.value].roomId;
        CurrentTenantUpdate(users, ui, archived, left);
        SameRoomIdsLookup(rooms, rs, left);
      }
    }
  }

  /** `ArchiveTenant`. */
  method ArchiveTenant(db: Database, tenantId: string) returns (r: Result<(), TenancyError>)
    modifies db`users, db`rooms
    ensures var t := ArchiveTenantTables(old(db.users), old(db.rooms), tenantId);
            (r.Err? <==> t.Err?) && (r.Err? ==> r.error == t.error) &&
            (t.Ok? ==> db.users == t.value.0 && db.rooms == t.value.1) &&
            (t.Err? ==> db.users == old(db.users) && db.rooms == old(db.rooms))
  {
    var t := ArchiveTenantTables(db.users, db.rooms, tenantId);
    if t.Err? {
      return Err(t.error);
    }
    db.users := t.value.0;
    db.rooms := t.value.1;
    r := Ok(());
  }

  // ---------------------------------------------------------------------------
  // Entering a meter reading by hand
  // ---------------------------------------------------------------------------

  /** The landlord's meter-reading form. A reading already stored for the
      tenant in the same calendar month refuses the entry before anything else
      is looked up; then the tenant and its current room must exist. The
      reading continues from the tenant's latest one and is charged at the
      room's own electricity rate or, lacking one, its building's default;
      without either (no floor or building loaded) the lookup fails. */
  function ManualReading(users: seq<Tenant>, rooms: seq<Room>, readings: seq<MeterReading>, tenantId: string,
                         currentReading: real, readingDate: Date, notes: Option<string>)
    : (r: Result<MeterReading, TenancyError>)
    ensures r == Err(ReadingExistsForMonth) <==> HasReadingInMonth(readings, tenantId, readingDate)
    ensures r == Err(TenantOrRoomNotFound) <==>
              !HasReadingInMonth(readings, tenantId, readingDate) &&
              (FindUser(users, tenantId).None? || CurrentRoom(rooms, FindUser(users, tenantId).value).None?)
    ensures r == Err(RateUnavailable) <==>
              !HasReadingInMonth(readings, tenantId, readingDate) && FindUser(users, tenantId).Some? &&
              CurrentRoom(rooms, FindUser(users, tenantId).value).Some? &&
              CurrentRoom(rooms, FindUser(users, tenantId).value).value.customElectricityFee.None? &&
              RoomBuilding(CurrentRoom(rooms, FindUser(users, tenantId).value).value).None?
    ensures r.Ok? ==>
              var room := CurrentRoom(rooms, FindUser(users, tenantId).value).value;
              r.value.tenantId == tenantId && r.value.roomId == room.roomId && r.value.billId.None? &&
              r.value.readingDate == readingDate && r.value.currentReading == currentReading &&
              r.value.notes == notes &&
              (room.customElectricityFee.Some? ==> r.value.ratePerKwh == room.customElectricityFee.value) &&
              (room.customElectricityFee.None? ==>
                 r.value.ratePerKwh == RoomBuilding(room).value.defaultElectricityFee)
    ensures r.Ok? ==> (r.value.previousReading.None? <==> forall m :: m in readings ==> m.tenantId != tenantId)
    ensures r.Ok? && r.value.previousReading.Some? ==>
              exists m :: m in readings && m.tenantId == tenantId && r.value.previousReading.value == m.currentReading &&
                forall m' :: m' in readings && m'.tenantId == tenantId ==> AtOrBefore(m'.readingDate, m.readingDate)
  {
    if HasReadingInMonth(readings, tenantId, readingDate) then Err(ReadingExistsForMonth)
    else match FindUser(users, tenantId)
      case None => Err(TenantOrRoomNotFound)
      case Some(t) =>
        match CurrentRoom(rooms, t)
        case None => Err(TenantOrRoomNotFound)
        case Some(room) =>
          if room.customElectricityFee.None? && RoomBuilding(room).None? then Err(RateUnavailable)
          else
            var rate := if room.customElectricityFee.Some? then room.customElectricityFee.value
                        else RoomBuilding(room).value.defaultElectricityFee;
            var previous := GetLatestReading(readings, tenantId);
            Ok(NewReading(tenantId, room.roomId, readingDate, currentReading,
                          if previous.Some? then Some(previous.value.currentReading) else None, rate, notes))
  }

  /** Where the room's building is loaded, the form records exactly the
      reading the meter-reading service would record for the tenant's room. */
  lemma ManualReadingMatchesService(users: seq<Tenant>, rooms: seq<Room>, readings: seq<MeterReading>,
                                    tenantId: string, currentReading: real, readingDate: Date, notes: Option<string>)
    requires !HasReadingInMonth(readings, tenantId, readingDate)
    requires ResolveChain(users, rooms, tenantId).Ok?
    ensures var roomId := ResolveChain(users, rooms, tenantId).value.1.roomId;
            ManualReading(users, rooms, readings, tenantId, currentReading, readingDate, notes) ==
            Ok(ReadingToRecord(users, rooms, readings, tenantId, roomId, currentReading, readingDate, notes).value)
  {
  }

  /** A tenant has at most one reading per calendar month. */
  predicate OneReadingPerMonth(readings: seq<MeterReading>) {
    forall i, j :: 0 <= i < j < |readings| ==>
      !(readings[i].tenantId == readings[j].tenantId && SameMonth(readings[i].readingDate, readings[j].readingDate))
  }

  /** Once a reading is stored, a second one for the same tenant and month is refused. */
  lemma SecondReadingInMonthRefused(users: seq<Tenant>, rooms: seq<Room>, readings: seq<MeterReading>,
                                    tenantId: string, currentReading: real, readingDate: Date, notes: Option<string>,
                                    laterReading: real, laterDate: Date, laterNotes: Option<string>)
    requires ManualReading(users, rooms, readings, tenantId, currentReading, readingDate, notes).Ok?
    requires SameMonth(laterDate, readingDate)
    ensures var stored := readings + [ManualReading(users, rooms, readings, tenantId, currentReading, readingDate, notes).value];
            ManualReading(users, rooms, stored, tenantId, laterReading, laterDate, laterNotes) == Err(ReadingExistsForMonth)
  {
    var m := ManualReading(users, rooms, readings, tenantId, currentReading, readingDate, notes).value;
    var stored := readings + [m];
    assert m in stored;
    assert HasReadingInMonth(stored, tenantId, laterDate);
  }

  /** Readings entered through the form never give a tenant two readings in one month. */
  lemma ManualReadingKeepsOnePerMonth(users: seq<Tenant>, rooms: seq<Room>, readings: seq<MeterReading>,
                                      tenantId: string, currentReading: real, readingDate: Date, notes: Option<string>)
    requires OneReadingPerMonth(readings)
    ensures var r := ManualReading(users, rooms, readings, tenantId, currentReading, readingDate, notes);
            r.Ok? ==> OneReadingPerMonth(readings + [r.value])
  {
    var r := ManualReading(users, rooms, readings, tenantId, currentReading, readingDate, notes);
    if r.Ok? {
      var all := readings + [r.value];
      forall i, j | 0 <= i < j < |all|
        ensures !(all[i].tenantId == all[j].tenantId && SameMonth(all[i].readingDate, all[j].readingDate))
      {
        if j == |readings| {
          assert all[i] in readings;
        }
      }
    }
  }

  /** The form's POST: the reading is stored, or nothing is. */
  method RecordManualReading(db: Database, tenantId: string, currentReading: real, readingDate: Date,
                             notes: Option<string>) returns (r: Result<MeterReading, TenancyError>)
    modifies db`readings
    ensures r == ManualReading(db.users, db.rooms, old(db.readings), tenantId, currentReading, readingDate, notes)
    ensures r.Ok? ==> db.readings == old(db.readings) + [r.value]
    ensures r.Err? ==> db.readings == old(db.readings)
  {
    r := ManualReading(db.users, db.rooms, db.readings, tenantId, currentReading, readingDate, notes);
    if r.Ok? {
      db.readings := db.readings + [r.value];
    }
  }
}

/** The room handlers: create a listing, apply to a single-tenant room, the owner's
    selection of a tenant or a party, deletion, and the listing of available rooms.
    Each handler is one atomic step on the store; it either refuses with an error and
    leaves the store as it was, or performs its update. */
module RoomController {
  import opened Types
  import opened Membership
  import opened PartyRules
  import opened Store

  /** `getRooms`: the rooms whose isAvailable flag is set. None of them is Taken. */
  method GetRooms(db: Db) returns (r: map<RoomId, Room>)
    requires db.Valid()
    ensures forall id :: id in r <==> id in db.rooms && db.rooms[id].isAvailable
    ensures forall id :: id in r ==> r[id] == db.rooms[id] && r[id].status != Taken
  {
    r := map id | id in db.rooms && db.rooms[id].isAvailable :: db.rooms[id];
  }

  /** `createRoom`: only a room owner may list a room. The owner, the status and both
      application lists are set by the handler whatever the request body says; the
      remaining fields come from the body. */
  method CreateRoom(db: Db, caller: Option<UserId>, isRoomOwner: bool, body: RoomRequest)
    returns (r: Result<RoomId>)
    requires db.Valid()
    modifies db
    ensures db.Valid()
    ensures r.Ok? <==> caller.Some? && isRoomOwner
    ensures caller.None? ==> r == Err(Unauthenticated)
    ensures caller.Some? && !isRoomOwner ==> r == Err(Forbidden)
    ensures r.Err? ==> unchanged(db)
    ensures r.Ok? ==>
      && r.value !in old(db.rooms)
      && db.rooms == old(db.rooms)[r.value := Room(caller.value, body.roomType, Available,
           body.isAvailable, body.maxRoommates, [], [], body.selectedApplicant)]
      && db.parties == old(db.parties)
    ensures RoomsEvolve(old(db.rooms), db.rooms)
  {
    if caller.None? {
      return Err(Unauthenticated);
    }
    if !isRoomOwner {
      return Err(Forbidden);
    }
    var room := Room(caller.value, body.roomType, Available, body.isAvailable, body.maxRoommates,
                     [], [], body.selectedApplicant);
    var id := db.nextId;
    db.nextId := db.nextId + 1;
    db.rooms := db.rooms[id := room];
    r := Ok(id);
  }

  /** `applyForRoom`: an individual application. The room must be isAvailable with status
      Available and of type Single-Tenant, and the caller must not have applied already.
      On success the caller is added to the applications exactly once and the room becomes
      Pending; nothing else changes. Since the guard demands Available and success leaves
      Pending, a second application to the same room is always refused. */
  method ApplyForRoom(db: Db, caller: Option<UserId>, roomId: RoomId) returns (r: Result<Room>)
    requires db.Valid()
    modifies db
    ensures db.Valid()
    ensures caller.None? ==> r == Err(Unauthenticated)
    ensures caller.Some? && roomId !in old(db.rooms) ==> r == Err(NotFound)
    ensures caller.Some? && roomId in old(db.rooms) ==>
      var room := old(db.rooms)[roomId];
      && (!room.isAvailable || room.status != Available ==> r == Err(BadRequest(NotAvailable)))
      && (room.isAvailable && room.status == Available && room.roomType != SingleTenant ==>
            r == Err(BadRequest(WrongRoomType)))
      && ((room.isAvailable && room.status == Available && room.roomType == SingleTenant &&
           caller.value in room.singleTenantApplications) ==> r == Err(BadRequest(AlreadyApplied)))
      && (r.Ok? <==> room.isAvailable && room.status == Available && room.roomType == SingleTenant &&
                     caller.value !in room.singleTenantApplications)
    ensures r.Err? ==> unchanged(db)
    ensures r.Ok? ==>
      var room := old(db.rooms)[roomId];
      && r.value == room.(singleTenantApplications := room.singleTenantApplications + [caller.value],
                          status := Pending)
      && db.rooms == old(db.rooms)[roomId := r.value]
      && db.parties == old(db.parties) && db.nextId == old(db.nextId)
    ensures r.Ok? ==> caller.value in r.value.singleTenantApplications && NoDup(r.value.singleTenantApplications)
    ensures RoomsEvolve(old(db.rooms), db.rooms)
  {
    if caller.None? {
      return Err(Unauthenticated);
    }
    var user := caller.value;
    if roomId !in db.rooms {
      return Err(NotFound);
    }
    var room := db.rooms[roomId];
    if !room.isAvailable || room.status != Available {
      return Err(BadRequest(NotAvailable));
    }
    if room.roomType != SingleTenant {
      return Err(BadRequest(WrongRoomType));
    }
    if user in room.singleTenantApplications {
      return Err(BadRequest(AlreadyApplied));
    }
    var updated := room.(singleTenantApplications := AddToSet(room.singleTenantApplications, user),
                         status := Pending);
    db.rooms := db.rooms[roomId := updated];
    r := Ok(updated);
  }

  /** `selectTenant`: the owner picks one of the individual applicants of a Single-Tenant
      room. The room records the tenant, becomes Taken and stops being isAvailable; its
      application list is kept. A room that is already Taken is not refused: a later call
      replaces the selected tenant. */
  method SelectTenant(db: Db, caller: Option<UserId>, roomId: RoomId, tenantId: Option<UserId>)
    returns (r: Result<Room>)
    requires db.Valid()
    modifies db
    ensures db.Valid()
    ensures caller.None? ==> r == Err(Unauthenticated)
    ensures caller.Some? && tenantId.None? ==> r == Err(BadRequest(MissingId))
    ensures caller.Some? && tenantId.Some? && roomId !in old(db.rooms) ==> r == Err(NotFound)
    ensures caller.Some? && tenantId.Some? && roomId in old(db.rooms) ==>
      var room := old(db.rooms)[roomId];
      && (room.owner != caller.value ==> r == Err(Forbidden))
      && (room.owner == caller.value && room.roomType != SingleTenant ==> r == Err(BadRequest(WrongRoomType)))
      && ((room.owner == caller.value && room.roomType == SingleTenant &&
           tenantId.value !in room.singleTenantApplications) ==> r == Err(BadRequest(NotApplied)))
      && (r.Ok? <==> room.owner == caller.value && room.roomType == SingleTenant &&
                     tenantId.value in room.singleTenantApplications)
    ensures r.Err? ==> unchanged(db)
    ensures r.Ok? ==>
      var room := old(db.rooms)[roomId];
      && r.value == room.(selectedApplicant := Some(tenantId.value), status := Taken, isAvailable := false)
      && db.rooms == old(db.rooms)[roomId := r.value]
      && db.parties == old(db.parties) && db.nextId == old(db.nextId)
    ensures RoomsEvolve(old(db.rooms), db.rooms)
  {
    if caller.None? {
      return Err(Unauthenticated);
    }
    if tenantId.None? {
      return Err(BadRequest(MissingId));
    }
    if roomId !in db.rooms {
      return Err(NotFound);
    }
    var room := db.rooms[roomId];
    if room.owner != caller.value {
      return Err(Forbidden);
    }
    if room.roomType != SingleTenant {
      return Err(BadRequest(WrongRoomType));
    }
    if tenantId.value !in room.singleTenantApplications {
      return Err(BadRequest(NotApplied));
    }
    var updated := room.(selectedApplicant := Some(tenantId.value), status := Taken, isAvailable := false);
    db.rooms := db.rooms[roomId := updated];
    r := Ok(updated);
  }

  /** `selectParty`: the owner picks a party that applied for a Multi-Tenant room and whose
      size is exactly the room's maxRoommates. The chosen party is Closed, the room records
      it, becomes Taken and stops being isAvailable; every other party is left as it was. */
  method SelectParty(db: Db, caller: Option<UserId>, roomId: RoomId, partyId: Option<PartyId>)
    returns (r: Result<Room>)
    requires db.Valid()
    modifies db
    ensures db.Valid()
    ensures caller.None? ==> r == Err(Unauthenticated)
    ensures caller.Some? && partyId.None? ==> r == Err(BadRequest(MissingId))
    ensures caller.Some? && partyId.Some? && roomId !in old(db.rooms) ==> r == Err(NotFound)
    ensures caller.Some? && partyId.Some? && roomId in old(db.rooms) ==>
      var room := old(db.rooms)[roomId];
      var pid := partyId.value;
      && (room.owner != caller.value ==> r == Err(Forbidden))
      && (room.owner == caller.value && room.roomType != MultiTenant ==> r == Err(BadRequest(WrongRoomType)))
      && (room.owner == caller.value && room.roomType == MultiTenant && pid !in room.partyApplications ==>
            r == Err(BadRequest(NotApplied)))
      && ((room.owner == caller.value && room.roomType == MultiTenant && pid in room.partyApplications &&
           pid !in old(db.parties)) ==> r == Err(NotFound))
      && ((room.owner == caller.value && room.roomType == MultiTenant && pid in room.partyApplications &&
           pid in old(db.parties) && |old(db.parties)[pid].members| != room.maxRoommates) ==>
            r == Err(BadRequest(WrongPartySize)))
      && (r.Ok? <==> room.owner == caller.value && room.roomType == MultiTenant &&
                     pid in room.partyApplications && pid in old(db.parties) &&
                     |old(db.parties)[pid].members| == room.maxRoommates)
    ensures r.Err? ==> unchanged(db)
    ensures r.Ok? ==>
      var room := old(db.rooms)[roomId];
      var pid := partyId.value;
      && r.value == room.(selectedApplicant := Some(pid), status := Taken, isAvailable := false)
      && db.rooms == old(db.rooms)[roomId := r.value]
      && db.parties == old(db.parties)[pid := old(db.parties)[pid].(status := Closed)]
      && db.nextId == old(db.nextId)
    ensures r.Ok? ==> forall p :: p in old(db.parties) && p != partyId.value ==> p in db.parties && db.parties[p] == old(db.parties)[p]
    ensures RoomsEvolve(old(db.rooms), db.rooms)
  {
    if caller.None? {
      return Err(Unauthenticated);
    }
    if partyId.None? {
      return Err(BadRequest(MissingId));
    }
    if roomId !in db.rooms {
      return Err(NotFound);
    }
    var room := db.rooms[roomId];
    var pid := partyId.value;
    if room.owner != caller.value {
      return Err(Forbidden);
    }
    if room.roomType != MultiTenant {
      return Err(BadRequest(WrongRoomType));
    }
    if pid !in room.partyApplications {
      return Err(BadRequest(NotApplied));
    }
    if pid !in db.parties {
      return Err(NotFound);
    }
    var party := db.parties[pid];
    if |party.members| != room.maxRoommates {
      return Err(BadRequest(WrongPartySize));
    }
    var closed := party.(status := Closed);
    ReplaceKeepsOneParty(db.parties, pid, closed);
    PutPartyKeepsStoreOk(db.rooms, db.parties, db.nextId, pid, closed);
    db.parties := db.parties[pid := closed];
    var updated := room.(selectedApplicant := Some(pid), status := Taken, isAvailable := false);
    PutRoomKeepsStoreOk(db.rooms, db.parties, db.nextId, roomId, updated);
    db.rooms := db.rooms[roomId := updated];
    r := Ok(updated);
  }

  /** `deleteRoom`: only the owner may delete, and the deletion is refused exactly when the
      room is Pending with at least one application; otherwise the room is removed. Parties
      that applied for it stay in the store. */
  method DeleteRoom(db: Db, caller: Option<UserId>, roomId: RoomId) returns (r: Result<()>)
    requires db.Valid()
    modifies db
    ensures db.Valid()
    ensures caller.None? ==> r == Err(Unauthenticated)
    ensures caller.Some? && roomId !in old(db.rooms) ==> r == Err(NotFound)
    ensures caller.Some? && roomId in old(db.rooms) ==>
      var room := old(db.rooms)[roomId];
      var pending := room.status == Pending &&
                     (|room.singleTenantApplications| > 0 || |room.partyApplications| > 0);
      && (room.owner != caller.value ==> r == Err(Forbidden))
      && (room.owner == caller.value && pending ==> r == Err(BadRequest(PendingApplications)))
      && (r.Ok? <==> room.owner == caller.value && !pending)
    ensures r.Err? ==> unchanged(db)
    ensures r.Ok? ==>
      && db.rooms == old(db.rooms) - {roomId}
      && db.parties == old(db.parties) && db.nextId == old(db.nextId)
    ensures RoomsEvolve(old(db.rooms), db.rooms)
  {
    if caller.None? {
      return Err(Unauthenticated);
    }
    if roomId !in db.rooms {
      return Err(NotFound);
    }
    var room := db.rooms[roomId];
    if room.owner != caller.value {
      return Err(Forbidden);
    }
    if room.status == Pending && (|room.singleTenantApplications| > 0 || |room.partyApplications| > 0) {
      return Err(BadRequest(PendingApplications));
    }
    db.rooms := db.rooms - {roomId};
    r := Ok(());
  }
}

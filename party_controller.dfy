/** The party handlers: create a party for a Multi-Tenant room, join it, leave it. Each
    handler is one atomic step on the store; it either refuses with an error and leaves
    the store as it was, or performs its update. */
module PartyController {
  import opened Types
  import opened Membership
  import opened PartyRules
  import opened Store

  /** `createParty`: the room must exist, be Multi-Tenant, isAvailable and Available, and
      the caller must be in no party for that room (of any status). The new party has the
      caller as sole member and leader, takes the room's maxRoommates as its maximum, and
      its id is added to the room's party applications; the room becomes Pending. */
  method CreateParty(db: Db, caller: Option<UserId>, roomId: RoomId) returns (r: Result<PartyId>)
    requires db.Valid()
    modifies db
    ensures db.Valid()
    ensures caller.None? ==> r == Err(Unauthenticated)
    ensures caller.Some? && roomId !in old(db.rooms) ==> r == Err(NotFound)
    ensures caller.Some? && roomId in old(db.rooms) ==>
      var room := old(db.rooms)[roomId];
      var inParty := InPartyForRoom(old(db.parties), roomId, caller.value, {});
      && (room.roomType != MultiTenant ==> r == Err(BadRequest(WrongRoomType)))
      && ((room.roomType == MultiTenant && !(room.isAvailable && room.status == Available)) ==>
            r == Err(BadRequest(NotAvailable)))
      && ((room.roomType == MultiTenant && room.isAvailable && room.status == Available && inParty) ==>
            r == Err(BadRequest(AlreadyInParty)))
      && (r.Ok? <==> room.roomType == MultiTenant && room.isAvailable && room.status == Available && !inParty)
    ensures r.Err? ==> unchanged(db)
    ensures r.Ok? ==>
      var room := old(db.rooms)[roomId];
      var user := caller.value;
      && r.value !in old(db.parties)
      && db.parties == old(db.parties)[r.value := Party(roomId, user, [user], room.maxRoommates,
                                                        UpdatePartyStatus(1, room.maxRoommates))]
      && db.rooms == old(db.rooms)[roomId := room.(partyApplications := AddToSet(room.partyApplications, r.value),
                                                   status := Pending)]
    ensures r.Ok? ==> r.value in db.rooms[roomId].partyApplications && NoDup(db.rooms[roomId].partyApplications)
    ensures RoomsEvolve(old(db.rooms), db.rooms)
  {
    if caller.None? {
      return Err(Unauthenticated);
    }
    var user := caller.value;
    if roomId !in db.rooms {
      return Err(NotFound);
    }
    var room := db.rooms[roomId];
    if room.roomType != MultiTenant {
      return Err(BadRequest(WrongRoomType));
    }
    if !room.isAvailable || room.status != Available {
      return Err(BadRequest(NotAvailable));
    }
    if InPartyForRoom(db.parties, roomId, user, {}) {
      return Err(BadRequest(AlreadyInParty));
    }
    var id := db.nextId;
    db.nextId := db.nextId + 1;
    var party := Party(roomId, user, [user], room.maxRoommates, UpdatePartyStatus(1, room.maxRoommates));
    AddKeepsOneParty(db.parties, id, party);
    db.parties := db.parties[id := party];
    db.rooms := db.rooms[roomId := room.(partyApplications := AddToSet(room.partyApplications, id),
                                         status := Pending)];
    r := Ok(id);
  }

  /** `joinParty`: the party must be Open, and the caller neither a member of it nor of any
      other party for the same room. The caller is appended to the members and the status
      is recomputed from the new count; since an Open party is below its maximum, the party
      never grows past it. */
  method JoinParty(db: Db, caller: Option<UserId>, partyId: PartyId) returns (r: Result<Party>)
    requires db.Valid()
    modifies db
    ensures db.Valid()
    ensures caller.None? ==> r == Err(Unauthenticated)
    ensures caller.Some? && partyId !in old(db.parties) ==> r == Err(NotFound)
    ensures caller.Some? && partyId in old(db.parties) ==>
      var party := old(db.parties)[partyId];
      var user := caller.value;
      var elsewhere := InPartyForRoom(old(db.parties), party.room, user, {partyId});
      && (party.status != Open ==> r == Err(BadRequest(NotOpen)))
      && ((party.status == Open && user in party.members) ==> r == Err(BadRequest(AlreadyMember)))
      && ((party.status == Open && user !in party.members && elsewhere) ==> r == Err(BadRequest(AlreadyInParty)))
      && (r.Ok? <==> party.status == Open && user !in party.members && !elsewhere)
    ensures r.Err? ==> unchanged(db)
    ensures r.Ok? ==>
      var party := old(db.parties)[partyId];
      && r.value == party.(members := party.members + [caller.value],
                           status := UpdatePartyStatus(|party.members| + 1, party.maxMembers))
      && db.parties == old(db.parties)[partyId := r.value]
      && db.rooms == old(db.rooms) && db.nextId == old(db.nextId)
    ensures r.Ok? ==> |r.value.members| <= r.value.maxMembers
    ensures r.Ok? ==> (r.value.status == Full <==> |r.value.members| == r.value.maxMembers)
    ensures RoomsEvolve(old(db.rooms), db.rooms)
  {
    if caller.None? {
      return Err(Unauthenticated);
    }
    var user := caller.value;
    if partyId !in db.parties {
      return Err(NotFound);
    }
    var party := db.parties[partyId];
    if party.status != Open {
      return Err(BadRequest(NotOpen));
    }
    if user in party.members {
      return Err(BadRequest(AlreadyMember));
    }
    if InPartyForRoom(db.parties, party.room, user, {partyId}) {
      return Err(BadRequest(AlreadyInParty));
    }
    var newMemberCount := |party.members| + 1;
    var updated := party.(members := AddToSet(party.members, user),
                          status := UpdatePartyStatus(newMemberCount, party.maxMembers));
    ReplaceKeepsOneParty(db.parties, partyId, updated);
    db.parties := db.parties[partyId := updated];
    r := Ok(updated);
  }

  /** `leaveParty`: only a member may leave. The caller is pulled from the members, the
      others keep their order, and the status is recomputed from the old count minus one,
      so leaving never yields Closed (a Closed party is reopened). A leader who leaves
      hands the lead to the first other member in list order; a leader who is the sole
      member deletes the party and withdraws its application from the room, whose status
      is left as it was. Ok(None) reports the deletion. */
  method LeaveParty(db: Db, caller: Option<UserId>, partyId: PartyId) returns (r: Result<Option<Party>>)
    requires db.Valid()
    modifies db
    ensures db.Valid()
    ensures caller.None? ==> r == Err(Unauthenticated)
    ensures caller.Some? && partyId !in old(db.parties) ==> r == Err(NotFound)
    ensures caller.Some? && partyId in old(db.parties) ==>
      var party := old(db.parties)[partyId];
      && (caller.value !in party.members ==> r == Err(BadRequest(NotMember)))
      && (r.Ok? <==> caller.value in party.members)
    ensures r.Err? ==> unchanged(db)
    ensures r.Ok? ==>
      var party := old(db.parties)[partyId];
      var user := caller.value;
      if party.leader == user && |party.members| <= 1 then
        && r.value.None?
        && db.parties == old(db.parties) - {partyId}
        && db.rooms == (if party.room in old(db.rooms)
                        then var room := old(db.rooms)[party.room];
                             old(db.rooms)[party.room := room.(partyApplications := Pull(room.partyApplications, partyId))]
                        else old(db.rooms))
        && db.nextId == old(db.nextId)
      else
        && r.value.Some?
        && r.value.value == LeaveUpdate(party, user)
        && db.parties == old(db.parties)[partyId := r.value.value]
        && db.rooms == old(db.rooms) && db.nextId == old(db.nextId)
    ensures r.Ok? && r.value.Some? ==>
      var party := old(db.parties)[partyId];
      var left := r.value.value;
      && |left.members| == |party.members| - 1
      && left.leader in left.members
      && (party.leader == caller.value ==> Some(left.leader) == FindOther(party.members, caller.value))
      && (party.leader == caller.value ==>
            forall j :: 0 <= j < |party.members| && party.members[j] != caller.value ==>
              left.leader in party.members[..j + 1])
      && left.status != Closed
      && (left.status == Open <==> |left.members| < left.maxMembers)
      && forall i :: 0 <= i < |party.members| && party.members[i] == caller.value ==>
           left.members == party.members[..i] + party.members[i + 1..]
    ensures RoomsEvolve(old(db.rooms), db.rooms)
  {
    if caller.None? {
      return Err(Unauthenticated);
    }
    var user := caller.value;
    if partyId !in db.parties {
      return Err(NotFound);
    }
    var party := db.parties[partyId];
    if user !in party.members {
      return Err(BadRequest(NotMember));
    }
    if party.leader == user && |party.members| <= 1 {
      DeleteParty(db, partyId);
      return Ok(None);
    }
    LeaveKeepsParty(party, user);
    forall j | 0 <= j < |party.members| && party.members[j] != user
      ensures FindOther(party.members, user).Some? && FindOther(party.members, user).value in party.members[..j + 1]
    {
      FindOtherIsFirst(party.members, user, j);
    }
    forall j | 0 <= j < |party.members| && party.members[j] == user
      ensures LeaveUpdate(party, user).members == party.members[..j] + party.members[j + 1..]
    {
      NoDupSplit(party.members, j);
      PullAt(party.members, user, j);
    }
    var updated := StoreLeaveUpdate(db, partyId, user);
    r := Ok(Some(updated));
  }

  /** The last leader's departure: the party is deleted and its id pulled from the
      applications of its room, if that room still exists; the room's status is kept. */
  method DeleteParty(db: Db, partyId: PartyId)
    requires db.Valid() && partyId in db.parties
    modifies db
    ensures db.Valid()
    ensures db.parties == old(db.parties) - {partyId}
    ensures var roomId := old(db.parties)[partyId].room;
      db.rooms == (if roomId in old(db.rooms)
                   then var room := old(db.rooms)[roomId];
                        old(db.rooms)[roomId := room.(partyApplications := Pull(room.partyApplications, partyId))]
                   else old(db.rooms))
    ensures db.nextId == old(db.nextId)
    ensures RoomsEvolve(old(db.rooms), db.rooms)
  {
    var roomId := db.parties[partyId].room;
    db.parties := db.parties - {partyId};
    if roomId in db.rooms {
      var room := db.rooms[roomId];
      db.rooms := db.rooms[roomId := room.(partyApplications := Pull(room.partyApplications, partyId))];
    }
  }

  /** The departure of a member who is not the sole leader: the party is stored with the
      caller pulled, its status recomputed and, if needed, a new leader. */
  method StoreLeaveUpdate(db: Db, partyId: PartyId, user: UserId) returns (updated: Party)
    requires db.Valid() && partyId in db.parties
    requires user in db.parties[partyId].members
    requires db.parties[partyId].leader != user || |db.parties[partyId].members| > 1
    modifies db
    ensures db.Valid()
    ensures updated == LeaveUpdate(old(db.parties)[partyId], user)
    ensures db.parties == old(db.parties)[partyId := updated]
    ensures db.rooms == old(db.rooms) && db.nextId == old(db.nextId)
  {
    var party := db.parties[partyId];
    LeaveKeepsParty(party, user);
    updated := LeaveUpdate(party, user);
    ReplaceKeepsOneParty(db.parties, partyId, updated);
    PutPartyKeepsStoreOk(db.rooms, db.parties, db.nextId, partyId, updated);
    db.parties := db.parties[partyId := updated];
  }
}

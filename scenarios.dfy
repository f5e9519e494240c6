/** Sequences of handler calls, showing what the contracts of the handlers guarantee
    across several requests. */
module Scenarios {
  import opened Types
  import opened PartyRules
  import opened Store
  import opened RoomController
  import opened PartyController

  /** Once an application to a room has succeeded, every further application to that
      room is refused, whoever makes it. */
  method ApplyTwice(db: Db, first: Option<UserId>, second: Option<UserId>, roomId: RoomId)
    returns (r1: Result<Room>, r2: Result<Room>)
    requires db.Valid()
    modifies db
    ensures db.Valid()
    ensures r1.Ok? ==> r2.Err?
    ensures r1.Ok? && second.Some? ==> r2 == Err(BadRequest(NotAvailable))
  {
    r1 := ApplyForRoom(db, first, roomId);
    r2 := ApplyForRoom(db, second, roomId);
  }

  /** Once a party creation for a room has succeeded, every further creation for that
      room is refused, whoever makes it: the room is Pending from then on, so a room
      never has rival parties. */
  method CreateTwice(db: Db, first: Option<UserId>, second: Option<UserId>, roomId: RoomId)
    returns (r1: Result<PartyId>, r2: Result<PartyId>)
    requires db.Valid()
    modifies db
    ensures db.Valid()
    ensures r1.Ok? ==> r2.Err?
    ensures r1.Ok? && second.Some? ==> r2 == Err(BadRequest(NotAvailable))
  {
    r1 := CreateParty(db, first, roomId);
    r2 := CreateParty(db, second, roomId);
  }

  /** A Single-Tenant room: A applies, the owner selects A, and a later application by C
      is refused because the room is no longer Available. */
  method SingleTenantScenario(owner: UserId, a: UserId, c: UserId)
    returns (selected: Result<Room>, late: Result<Room>)
    ensures selected.Ok? && selected.value.status == Taken && selected.value.selectedApplicant == Some(a)
    ensures selected.value.singleTenantApplications == [a]
    ensures late == Err(BadRequest(NotAvailable))
  {
    var db := new Db();
    var created := CreateRoom(db, Some(owner), true, RoomRequest(SingleTenant, true, 1, None));
    var roomId := created.value;
    var applied := ApplyForRoom(db, Some(a), roomId);
    assert applied.Ok? && applied.value.status == Pending;
    selected := SelectTenant(db, Some(owner), roomId, Some(a));
    late := ApplyForRoom(db, Some(c), roomId);
  }

  /** A Multi-Tenant room for two with a party that A has just created. */
  method FreshParty(owner: UserId, a: UserId) returns (db: Db, roomId: RoomId, partyId: PartyId)
    ensures fresh(db) && db.Valid()
    ensures roomId in db.rooms && db.rooms[roomId].owner == owner
    ensures db.rooms[roomId].roomType == MultiTenant && db.rooms[roomId].maxRoommates == 2
    ensures db.rooms[roomId].partyApplications == [partyId]
    ensures db.parties == map[partyId := Party(roomId, a, [a], 2, Open)]
  {
    db := new Db();
    var created := CreateRoom(db, Some(owner), true, RoomRequest(MultiTenant, true, 2, None));
    roomId := created.value;
    var party := CreateParty(db, Some(a), roomId);
    partyId := party.value;
  }

  /** A Multi-Tenant room for two: A creates a party, B joins and fills it, and the owner
      selects it; the party is Closed and the room Taken by it, with the party as its
      selected applicant. */
  method MultiTenantScenario(owner: UserId, a: UserId, b: UserId)
    returns (partyId: PartyId, joined: Result<Party>, selected: Result<Room>, closed: PartyStatus)
    requires a != b
    ensures joined.Ok? && joined.value.members == [a, b] && joined.value.status == Full
    ensures selected.Ok? && selected.value.status == Taken && !selected.value.isAvailable
    ensures selected.value.selectedApplicant == Some(partyId)
    ensures closed == Closed
  {
    var db, roomId;
    db, roomId, partyId := FreshParty(owner, a);
    assert !InPartyForRoom(db.parties, roomId, b, {partyId});
    joined := JoinParty(db, Some(b), partyId);
    assert db.parties[partyId].members == [a, b];
    selected := SelectParty(db, Some(owner), roomId, Some(partyId));
    closed := db.parties[partyId].status;
  }

  /** A Multi-Tenant room for three with a party led by A that B has joined. */
  method PartyOfTwo(owner: UserId, a: UserId, b: UserId) returns (db: Db, roomId: RoomId, partyId: PartyId)
    requires a != b
    ensures fresh(db) && db.Valid()
    ensures roomId in db.rooms && db.rooms[roomId].partyApplications == [partyId]
    ensures partyId in db.parties && db.parties[partyId] == Party(roomId, a, [a, b], 3, Open)
  {
    db := new Db();
    var created := CreateRoom(db, Some(owner), true, RoomRequest(MultiTenant, true, 3, None));
    roomId := created.value;
    var party := CreateParty(db, Some(a), roomId);
    partyId := party.value;
    assert db.rooms[roomId].partyApplications == [partyId];
    assert !InPartyForRoom(db.parties, roomId, b, {partyId});
    var joined := JoinParty(db, Some(b), partyId);
  }

  /** Leader succession: A leads a party that B joined. When A leaves, B becomes leader
      of a one-member party; when B leaves too, the party is deleted and withdrawn from
      the room's applications. */
  method SuccessionScenario(owner: UserId, a: UserId, b: UserId)
    returns (afterA: Result<Option<Party>>, afterB: Result<Option<Party>>, applications: seq<PartyId>)
    requires a != b
    ensures afterA.Ok? && afterA.value.Some?
    ensures afterA.value.value.leader == b && afterA.value.value.members == [b]
    ensures afterA.value.value.status == Open
    ensures afterB == Ok(None)
    ensures applications == []
  {
    var db, roomId, partyId := PartyOfTwo(owner, a, b);
    afterA := LeaveParty(db, Some(a), partyId);
    assert [a, b][..0] + [a, b][1..] == [b];
    assert afterA.value.value.members == [b];
    assert db.parties[partyId] == Party(roomId, b, [b], 3, Open);
    assert db.rooms[roomId].partyApplications == [partyId];
    afterB := LastLeaves(db, roomId, partyId, b);
    applications := db.rooms[roomId].partyApplications;
  }

  /** The last member, who is the leader, leaves: the party is gone from the store and
      from its room's applications. */
  method LastLeaves(db: Db, roomId: RoomId, partyId: PartyId, b: UserId) returns (r: Result<Option<Party>>)
    requires db.Valid() && roomId in db.rooms && db.rooms[roomId].partyApplications == [partyId]
    requires partyId in db.parties && db.parties[partyId].room == roomId
    requires db.parties[partyId].members == [b] && db.parties[partyId].leader == b
    modifies db
    ensures r == Ok(None)
    ensures roomId in db.rooms && db.rooms[roomId].partyApplications == []
  {
    r := LeaveParty(db, Some(b), partyId);
  }
}

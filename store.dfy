/** The document store the controllers read and write: rooms and parties by id. */
module Store {
  import opened Types
  import opened Membership
  import opened PartyRules

  /** What every stored room satisfies: its application lists hold no duplicates
      (`$addToSet` is the only way in), a Taken room has a selected applicant and is
      no longer isAvailable, and an Available room has no applications yet. */
  ghost predicate RoomOk(r: Room)
  {
    && NoDup(r.singleTenantApplications)
    && NoDup(r.partyApplications)
    && (r.status == Taken ==> r.selectedApplicant.Some? && !r.isAvailable)
    && (r.status == Available ==> r.singleTenantApplications == [] && r.partyApplications == [])
  }

  /** Between two states of the store, every room that is still there keeps its owner,
      type and capacity, and its status never moves back (Pending never returns to
      Available, Taken is final). */
  ghost predicate RoomsEvolve(before: map<RoomId, Room>, after: map<RoomId, Room>)
  {
    forall id :: id in before && id in after ==>
      && after[id].owner == before[id].owner
      && after[id].roomType == before[id].roomType
      && after[id].maxRoommates == before[id].maxRoommates
      && Rank(before[id].status) <= Rank(after[id].status)
  }

  /** The invariant of the whole store: every id was handed out by the store, every room
      and party keeps its own invariant, and no user is in two parties for one room. */
  ghost predicate StoreOk(rooms: map<RoomId, Room>, parties: map<PartyId, Party>, nextId: nat)
  {
    && (forall id :: id in rooms ==> id < nextId && RoomOk(rooms[id]))
    && (forall id :: id in parties ==> id < nextId && PartyOk(parties[id]))
    && OnePartyPerUserPerRoom(parties)
  }

  /** Storing a new version of an existing party keeps the store invariant when the new
      version keeps the party invariant and the one-party rule. */
  lemma PutPartyKeepsStoreOk(rooms: map<RoomId, Room>, parties: map<PartyId, Party>, nextId: nat,
                             id: PartyId, p: Party)
    requires StoreOk(rooms, parties, nextId)
    requires id in parties && PartyOk(p)
    requires OnePartyPerUserPerRoom(parties[id := p])
    ensures StoreOk(rooms, parties[id := p], nextId)
  {
  }

  /** Storing a new version of an existing room keeps the store invariant when the new
      version keeps the room invariant. */
  lemma PutRoomKeepsStoreOk(rooms: map<RoomId, Room>, parties: map<PartyId, Party>, nextId: nat,
                            id: RoomId, r: Room)
    requires StoreOk(rooms, parties, nextId)
    requires id in rooms && RoomOk(r)
    ensures StoreOk(rooms[id := r], parties, nextId)
  {
  }

  class Db {
    var rooms: map<RoomId, Room>
    var parties: map<PartyId, Party>
    /** The next id the store hands out; ids are never reused. */
    var nextId: nat

    ghost predicate Valid()
      reads this
    {
      StoreOk(rooms, parties, nextId)
    }

    constructor ()
      ensures Valid()
      ensures rooms == map[] && parties == map[]
    {
      rooms := map[];
      parties := map[];
      nextId := 0;
    }
  }
}

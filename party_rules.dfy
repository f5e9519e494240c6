/** The pure rules of the party controller: the status a member count implies, the
    "already in a party for this room" lookup, and the invariants a party keeps. */
module PartyRules {
  import opened Types
  import opened Membership

  /** `updatePartyStatus`: a party is Full once its member count reaches its maximum,
      Open below it, and this helper never yields Closed. */
  function UpdatePartyStatus(memberCount: int, maxMembers: int): (s: PartyStatus)
    ensures s != Closed
    ensures s == Full <==> memberCount >= maxMembers
    ensures s == Open <==> memberCount < maxMembers
  {
    if memberCount >= maxMembers then Full else Open
  }

  /** `Party.findOne({ room, members: user, _id: { $nin: except } })` succeeds. The lookup
      looks at every party of the room, whatever its status. */
  predicate InPartyForRoom(parties: map<PartyId, Party>, roomId: RoomId, user: UserId, except: set<PartyId>)
  {
    exists p :: p in parties && p !in except && parties[p].room == roomId && user in parties[p].members
  }

  /** The lookup looks only at each party's room and members: replacing a party by a
      version with the same room and members, whatever its leader, maximum or status
      (a Closed party included), gives the same answer for every user. */
  lemma InPartyForRoomIgnoresStatus(parties: map<PartyId, Party>, id: PartyId, q: Party,
                                    roomId: RoomId, user: UserId, except: set<PartyId>)
    requires id in parties && q.room == parties[id].room && q.members == parties[id].members
    ensures InPartyForRoom(parties[id := q], roomId, user, except) <==> InPartyForRoom(parties, roomId, user, except)
  {
    var after := parties[id := q];
    if InPartyForRoom(after, roomId, user, except) {
      var p :| p in after && p !in except && after[p].room == roomId && user in after[p].members;
      assert parties[p].room == roomId && user in parties[p].members;
    }
    if InPartyForRoom(parties, roomId, user, except) {
      var p :| p in parties && p !in except && parties[p].room == roomId && user in parties[p].members;
      assert after[p].room == roomId && user in after[p].members;
    }
  }

  /** What every stored party satisfies: members are distinct and include the leader, a
      party that is not Closed has the status its size implies, and a party is never larger
      than its maximum unless it is the one-member party its creator started. */
  ghost predicate PartyOk(p: Party)
  {
    && NoDup(p.members)
    && p.leader in p.members
    && (p.status != Closed ==> p.status == UpdatePartyStatus(|p.members|, p.maxMembers))
    && (|p.members| <= p.maxMembers || |p.members| == 1)
  }

  ghost predicate Disjoint(a: seq<UserId>, b: seq<UserId>)
  {
    forall u :: u in a ==> u !in b
  }

  /** A user belongs to at most one party per room. */
  ghost predicate OnePartyPerUserPerRoom(parties: map<PartyId, Party>)
  {
    forall p, q :: p in parties && q in parties && p != q && parties[p].room == parties[q].room
      ==> Disjoint(parties[p].members, parties[q].members)
  }

  /** Replacing a party by one for the same room keeps the one-party rule, provided every
      member of the new version was a member before or is in no other party of the room. */
  lemma ReplaceKeepsOneParty(parties: map<PartyId, Party>, id: PartyId, p: Party)
    requires OnePartyPerUserPerRoom(parties)
    requires id in parties && p.room == parties[id].room
    requires forall u :: u in p.members ==> u in parties[id].members || !InPartyForRoom(parties, p.room, u, {id})
    ensures OnePartyPerUserPerRoom(parties[id := p])
  {
    var after := parties[id := p];
    forall a, b | a in after && b in after && a != b && after[a].room == after[b].room
      ensures Disjoint(after[a].members, after[b].members)
    {
      if a == id || b == id {
        var other := if a == id then b else a;
        assert other in parties && other != id && parties[other].room == p.room;
        forall u | u in p.members ensures u !in parties[other].members {
          if u in parties[id].members {
            assert Disjoint(parties[id].members, parties[other].members);
          } else {
            assert !InPartyForRoom(parties, p.room, u, {id});
          }
        }
      } else {
        assert Disjoint(parties[a].members, parties[b].members);
      }
    }
  }

  /** Adding a party under a fresh id keeps the one-party rule when none of its members
      is already in a party of the room. */
  lemma AddKeepsOneParty(parties: map<PartyId, Party>, id: PartyId, p: Party)
    requires OnePartyPerUserPerRoom(parties)
    requires id !in parties
    requires forall u :: u in p.members ==> !InPartyForRoom(parties, p.room, u, {})
    ensures OnePartyPerUserPerRoom(parties[id := p])
  {
    var after := parties[id := p];
    forall a, b | a in after && b in after && a != b && after[a].room == after[b].room
      ensures Disjoint(after[a].members, after[b].members)
    {
      if a == id || b == id {
        var other := if a == id then b else a;
        assert other in parties && parties[other].room == p.room;
        forall u | u in p.members ensures u !in parties[other].members {
          assert !InPartyForRoom(parties, p.room, u, {});
        }
      } else {
        assert Disjoint(parties[a].members, parties[b].members);
      }
    }
  }

  /** The update `leaveParty` applies to a party that survives the departure of `user`:
      pull the user, recompute the status from the old count minus one, and, when the
      leader leaves, hand the lead to the first other member. */
  function LeaveUpdate(p: Party, user: UserId): (q: Party)
    requires p.leader == user ==> FindOther(p.members, user).Some?
    ensures q.room == p.room && q.maxMembers == p.maxMembers
    ensures forall u :: u in q.members <==> u in p.members && u != user
  {
    p.(members := Pull(p.members, user),
       status := UpdatePartyStatus(|p.members| - 1, p.maxMembers),
       leader := if p.leader != user then p.leader else FindOther(p.members, user).value)
  }

  /** A member other than a sole leader leaving keeps the party invariant: one member
      fewer, a leader who is still a member (the first other member when the leader
      left), and a status that is never Closed and is Open exactly when the party is
      below its maximum. */
  lemma LeaveKeepsParty(p: Party, user: UserId)
    requires PartyOk(p) && user in p.members
    requires p.leader != user || |p.members| > 1
    ensures p.leader == user ==> Some(LeaveUpdate(p, user).leader) == FindOther(p.members, user)
    ensures var q := LeaveUpdate(p, user);
      && PartyOk(q)
      && |q.members| == |p.members| - 1
      && q.status != Closed
      && (q.status == Open <==> |q.members| < q.maxMembers)
  {
    if p.leader == user {
      FindOtherInLongList(p.members, user);
    }
  }
}

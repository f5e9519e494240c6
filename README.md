# Room allocation of the room-rental server, in Dafny

This project models the allocation rules of the room-rental server: who may apply for a
room, how groups of applicants ("parties") form, change leader and dissolve, and how a
room owner makes the final choice of a tenant or a party.

The store is a class `Store.Db` holding two maps, rooms by id and parties by id, and the
counter the store hands new ids out from (ids are never reused, like MongoDB ObjectIds).
Each request handler of `roomController.ts` and `partyController.ts` is a method that takes
the store and the caller's id (`None` when the request is not authenticated). It either
refuses with one of the error kinds 401 `Unauthenticated`, 403 `Forbidden`, 404 `NotFound`
or 400 `BadRequest(reason)` and leaves the store untouched, or it updates the maps. Every
handler is one atomic step.

Every handler keeps the store invariant `Db.Valid()`:

- application and member lists hold no duplicates;
- a Taken room has a selected applicant and is no longer `isAvailable`;
- an Available room has no applications;
- a party's leader is one of its members;
- a party that is not Closed has the status `updatePartyStatus` gives for its size;
- a party never has more members than `maxMembers`, except for a one-member party
  created for a room whose `maxRoommates` is below 1;
- a user is in at most one party per room, counting parties of every status.

Every handler also ensures `RoomsEvolve`: a room keeps its owner, type and capacity, and
its status never moves back along Available → Pending → Taken.

Modules:

- `Types` holds the records and enumerations.
- `Membership` holds the list updates: `$addToSet`, `$pull` and the `.find` that picks a
  new leader.
- `PartyRules` holds `updatePartyStatus`, the "already in a party for this room" lookup,
  the party invariants and the update that leaving applies.
- `Store` holds the store and its invariant.
- `RoomController` and `PartyController` hold the handlers.
- `Scenarios` holds sequences of requests.

The model follows the code as written, including these behaviours:

- `selectTenant` and `selectParty` do not refuse a room that is already Taken. A later
  selection replaces the selected applicant, and the room stays Taken.
- `leaveParty` does not refuse a Closed party. Leaving recomputes the status from the size,
  so it reopens the party.
- The "already in a party for this room" lookup ignores party status.
- At most one application or party creation ever succeeds per room. Both refuse unless
  the room is Available, and success sets it to Pending. None of the modelled handlers
  sets a room back to Available. So a Single-Tenant room takes one individual
  application, and a Multi-Tenant room only ever gets one party: `createParty` never
  produces rival parties. `ApplyTwice` and `CreateTwice` state this.
- Conflicts and state errors are all 400 responses. In `roomController.ts`, the 404 for a
  missing party in `selectParty` is the only 404 not about the room. `joinParty` and
  `leaveParty` also answer 404 for a missing party.
- `maxRoommates` is not validated. A room may have a capacity below 1, and the capacity
  invariant above accounts for it.
- None of the modelled handlers moves a room from Pending back to Available. This holds
  even when the last party is withdrawn. `updateRoom`, which is not modelled, can do it.

## Model

| member | source | states |
|---|---|---|
| `Membership.AddToSet` | server/src/controllers/roomController.ts:266 | `$addToSet`: the result holds exactly the old elements plus `x`. `x` is appended at the end when it was absent, the list is unchanged when it was present, and a duplicate-free list stays duplicate-free. |
| `Membership.Pull` | server/src/controllers/partyController.ts:215 | `$pull`: the result holds exactly the elements other than `x`. It is unchanged when `x` is absent and stays duplicate-free. In a duplicate-free list holding `x` it is exactly one shorter. |
| `Membership.PullAt` | server/src/controllers/partyController.ts:215 | Pulling an element that occurs only at index `i` gives the list with that index cut out, so the other members keep their order. |
| `Membership.FindOther` | server/src/controllers/partyController.ts:220 | `.find(m => m !== u)`: it finds nothing exactly when every element is `u`, and otherwise finds a member other than `u`. |
| `Membership.FindOtherIsFirst` | server/src/controllers/partyController.ts:220 | For every element other than `u`, the search finds something, and what it finds occurs no later in the list. So it finds the first member other than `u` in list order. |
| `Membership.FindOtherInLongList` | server/src/controllers/partyController.ts:219-221 | In a duplicate-free list of more than one member, the search for a successor always finds one. |
| `PartyRules.InPartyForRoom` | server/src/controllers/partyController.ts:52-55 | The "already in a party for this room" lookup of `createParty`: it holds exactly when some stored party for the room, other than those in `except`, has the user as a member, whatever its status. |
| `PartyRules.InPartyForRoomIgnoresStatus` | server/src/controllers/partyController.ts:140-144 | The lookup of `joinParty` depends only on each party's room and members. Replacing a party by one with the same room and members gives the same answer for every user and every exclusion set, whatever the new status, leader or maximum. |
| `PartyRules.UpdatePartyStatus` | server/src/controllers/partyController.ts:9-11 | The result is Full exactly when the count reaches the maximum and Open exactly when it is below it. It is never Closed. |
| `PartyRules.AddKeepsOneParty` | server/src/controllers/partyController.ts:51-72 | Storing a new party under a fresh id keeps every user in at most one party per room, provided no member of the new party already belongs to a party for that room. |
| `PartyRules.ReplaceKeepsOneParty` | server/src/controllers/partyController.ts:139-160 | Replacing a party by a version for the same room keeps the one-party-per-room rule, provided each member of the new version either was a member already or is in no other party for the room. This covers join, leave and close. |
| `PartyRules.LeaveUpdate` | server/src/controllers/partyController.ts:213-221 | The update leaving applies keeps the party's room and maximum. Its members are exactly the old ones minus the caller. |
| `PartyRules.LeaveKeepsParty` | server/src/controllers/partyController.ts:205-221 | When a member who is not the sole leader leaves, the party invariant still holds and the party has one member fewer. A leaving leader is replaced by what `FindOther` finds. The new status is not Closed and is Open exactly when the party is below its maximum. |
| `RoomController.GetRooms` | server/src/controllers/roomController.ts:9-15 | Returns exactly the stored rooms whose `isAvailable` is true, each unchanged. No returned room is Taken. |
| `RoomController.CreateRoom` | server/src/controllers/roomController.ts:66-92 | 401 without a caller and 403 for a caller who is not a room owner; otherwise success. The new room has a fresh id, owner = caller, status Available and both application lists empty, whatever the body held. Its other fields come from the body, and nothing else changes. |
| `RoomController.ApplyForRoom` | server/src/controllers/roomController.ts:210-268 | The errors come in the code's order: 401, 404, then 400 for a room that is not isAvailable-and-Available, not Single-Tenant, or already applied for. Success holds exactly when none applies. On success the caller is appended once, the room becomes Pending, no other field or document changes and the store invariant holds. |
| `RoomController.SelectTenant` | server/src/controllers/roomController.ts:289-352 | The errors come in the code's order: 401, 400 missing tenantId, 404, 403 non-owner, 400 non-Single-Tenant, 400 tenant not among the applicants. On success the room has selectedApplicant = tenant, status Taken and isAvailable false, and its applications are kept. Nothing else changes. |
| `RoomController.SelectParty` | server/src/controllers/roomController.ts:374-458 | The errors come in the code's order: 401, 400 missing partyId, 404 room, 403, 400 non-Multi-Tenant, 400 party not among the applications, 404 party missing, 400 size ≠ maxRoommates. On success the chosen party is Closed and every other party is unchanged. The room has selectedApplicant = party, status Taken and isAvailable false. |
| `RoomController.DeleteRoom` | server/src/controllers/roomController.ts:486-524 | 401, then 404, then 403 for any non-owner. For the owner the deletion is refused exactly when the room is Pending with a non-empty application list. Otherwise the room is removed and parties are untouched. |
| `PartyController.CreateParty` | server/src/controllers/partyController.ts:14-78 | The errors come in the code's order: 401, 404, 400 non-Multi-Tenant, 400 not isAvailable-and-Available, 400 caller already in a party of any status for the room. On success the new party is stored under a fresh id, with members [caller], leader caller, maxMembers = maxRoommates and status `UpdatePartyStatus(1, maxRoommates)`. Its id is added to the room's party applications, the room becomes Pending, and the one-party-per-room rule still holds. |
| `PartyController.JoinParty` | server/src/controllers/partyController.ts:101-161 | The errors come in the code's order: 401, 404, 400 not Open, 400 already a member, 400 in another party for the room. On success the caller is appended and the status is `UpdatePartyStatus(old size + 1, maxMembers)`. The party then has at most maxMembers members and is Full exactly at maxMembers, and nothing else changes. |
| `PartyController.LeaveParty` | server/src/controllers/partyController.ts:184-237 | 401, 404, then 400 for a non-member; success exactly for a member. A sole leader's leaving deletes the party and pulls it from its room's applications, leaving the room status alone. Otherwise the caller is cut out with the others in order, and the status is recomputed from the old size minus one, never Closed. A Full party that drops below its maximum becomes Open, and a leaving leader is succeeded by the first other member, who is still a member. |
| `PartyController.DeleteParty` | server/src/controllers/partyController.ts:222-227 | The party is removed, its id is pulled from its room's party applications if the room still exists, and the store invariant holds. |
| `PartyController.StoreLeaveUpdate` | server/src/controllers/partyController.ts:213-240 | The surviving party is stored as `LeaveUpdate` of the old one, and the store invariant still holds. |
| `Scenarios.ApplyTwice` | server/src/controllers/roomController.ts:232-267 | After one successful application to a room, any second application to it fails. With a caller, it fails as not available. |
| `Scenarios.CreateTwice` | server/src/controllers/partyController.ts:43-78 | After one successful party creation for a room, any second creation for it fails. With a caller, it fails as not available, so a room never has two parties. |
| `Scenarios.SingleTenantScenario` | server/src/controllers/roomController.ts:210-352 | A applies and the owner selects A. The room is then Taken by A with applications [A], and a later application by C is refused as not available. |
| `Scenarios.MultiTenantScenario` | server/src/controllers/partyController.ts:14-161 | For a room of two, A creates a party and B joins, giving members [A, B] and status Full. The owner's selection makes the room Taken, with that party as its selected applicant, and closes the party. |
| `Scenarios.SuccessionScenario` | server/src/controllers/partyController.ts:184-237 | In a party led by A with member B, A leaving makes B the leader of the party [B] (Open). B leaving then deletes the party and withdraws it from the room. |

## Left out

- HTTP and Express: response bodies, the wire form of status codes, and Mongoose `populate`. Handlers return the error kind or the updated record.
- The 500 path. Store failures, invalid ObjectId strings and schema validation errors all end in the catch-all 500, and none of them is modelled.
- Concurrency. Every handler is one atomic step. The read-then-write races of the original, between `findById` and the later update, are not modelled.
- `searchRooms`: regular expressions, geo queries and float parsing. `updateRoom`: an arbitrary `$set` of the request body. `getRoomById`: a plain read. `updateRoom` `$set`s the owner's request body as it is (roomController.ts:187-190). It can rewrite `status`, `isAvailable`, the application lists, `selectedApplicant`, `roomType` and `owner`. So `RoomOk`, `RoomsEvolve` and "a Taken room is not isAvailable" hold only over the modelled handlers, and `updateRoom` can break them.
- Authentication, users, payments, messages and the client. The caller's id and `isRoomOwner` are inputs.
- `RoomController.GetRooms`: does not model the sort by `createdAt`, since creation timestamps come from the clock. The result is a map by id, not an ordered list.
- `RoomController.CreateRoom`: the request body is reduced to the fields the allocation rules read (`roomType`, `isAvailable`, `maxRoommates`, `selectedApplicant`). An absent `isAvailable` is taken as false, like the controller's falsy test. An absent `maxRoommates` is not modelled. The Mongoose schemas' handling of undeclared fields is not modelled either. The model follows the fields the controllers read and write. For rooms, `isAvailable` and `maxRoommates` are stored as the controllers use them. For parties, the Party schema (Party.model.ts:4-10) declares no `leader`, `maxMembers` or `status`. It requires `creator` and `description`, which `createParty` never supplies. The model stores the party record `createParty` builds (partyController.ts:66-72).
- `PartyRules.LeaveUpdate`: requires that a leaving leader has a successor. A sole leader takes the deletion branch (partyController.ts:222-233). The original's `find` returns `undefined` only for a list of more than one entry that are all the leader, which needs duplicate members. That case is excluded here, and `LeaveKeepsParty` with `FindOtherInLongList` proves that it never arises in a valid store.
- `maxRoommates` is an integer here. A fractional JSON value such as 2.5 is not modelled. With 2.5, a party becomes Full only at 3 members, and `selectParty`'s `!==` test (roomController.ts:440) can then never select it. An absent `maxRoommates` is not modelled either. It would make `n >= undefined` false and leave the party Open forever. Both cases would break the capacity invariant `PartyOk` states.
- `Membership.AddToSet`: the model fixes `$addToSet` to append at the end of the list. MongoDB does not document the position an added element takes. Appending is what the server does in practice. Leader succession depends on this order: the "first other member" is the earliest to join.
- Parties of a deleted room stay in the store, as in the original. Nothing cleans them up.
- Ids are natural numbers. The `!tenantId` and `!partyId` tests are modelled as the id being absent from the body.

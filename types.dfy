/** Records and enumerations read and written by the room and party controllers. */
module Types {

  /** Document ids. User ids come from the authenticated caller; room and party ids are
      generated by the store when a document is created and are never reused. */
  type UserId = nat
  type RoomId = nat
  type PartyId = nat

  datatype Option<T> = None | Some(value: T)

  /** "Single-Tenant" and "Multi-Tenant". */
  datatype RoomType = SingleTenant | MultiTenant

  datatype RoomStatus = Available | Pending | Taken

  datatype PartyStatus = Open | Full | Closed

  /** The room fields the controllers use. `selectedApplicant` is a user id for a
      single-tenant room and a party id for a multi-tenant one. */
  datatype Room = Room(
    owner: UserId,
    roomType: RoomType,
    status: RoomStatus,
    isAvailable: bool,
    maxRoommates: int,
    singleTenantApplications: seq<UserId>,
    partyApplications: seq<PartyId>,
    selectedApplicant: Option<nat>)

  /** The party fields the controllers use. */
  datatype Party = Party(
    room: RoomId,
    leader: UserId,
    members: seq<UserId>,
    maxMembers: int,
    status: PartyStatus)

  /** The request body of a room creation, reduced to the fields the allocation rules read.
      An `isAvailable` the body leaves out reads as false. */
  datatype RoomRequest = RoomRequest(
    roomType: RoomType,
    isAvailable: bool,
    maxRoommates: int,
    selectedApplicant: Option<nat>)

  /** Why a request was refused with status 400. */
  datatype Reason =
    | MissingId            // tenantId / partyId absent from the body
    | NotAvailable         // room not isAvailable or status not Available
    | WrongRoomType        // operation not allowed for this roomType
    | AlreadyApplied       // caller already in singleTenantApplications
    | NotApplied           // tenant / party never applied for the room
    | WrongPartySize       // party size differs from room.maxRoommates
    | PendingApplications  // delete refused while applications are pending
    | AlreadyInParty       // caller already in a party for the room
    | NotOpen              // party status is not Open
    | AlreadyMember        // caller already a member of the party
    | NotMember            // caller not a member of the party

  /** 401, 403, 404 and 400 responses. */
  datatype Error = Unauthenticated | Forbidden | NotFound | BadRequest(reason: Reason)

  datatype Result<T> = Ok(value: T) | Err(error: Error)

  /** Position of a room status in the lifecycle Available -> Pending -> Taken. */
  function Rank(s: RoomStatus): nat
  {
    match s
    case Available => 0
    case Pending => 1
    case Taken => 2
  }
}

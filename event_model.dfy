/** The event document: the event's own fields and its participants. A participant
    carries the role the registration wrote (owner or player) and a status from the
    schema's enumeration. */
module EventModel {
  import opened Common
  import opened Categories

  datatype Role = PlayerRole | OwnerRole

  const RoleNames: seq<string> := ["player", "owner"]

  /** Reads a role; anything other than "player" or "owner" is refused. */
  function ParseRole(s: string): (r: Option<Role>)
    ensures r.Some? <==> s in RoleNames
    ensures r == Some(PlayerRole) <==> s == "player"
    ensures r == Some(OwnerRole) <==> s == "owner"
  {
    if s == "player" then Some(PlayerRole)
    else if s == "owner" then Some(OwnerRole)
    else None
  }

  datatype ParticipantStatus = Confirmed | Pending | Rejected

  const DefaultParticipantStatus: ParticipantStatus := Pending

  /** One participant; `joinedAt` is the registration time. */
  datatype Participant = Participant(
    userId: string,
    role: Role,
    status: ParticipantStatus,
    joinedAt: int)

  /** The fields fixed when the event is created. `date` is a time stamp. */
  datatype EventInfo = EventInfo(
    name: string,
    description: string,
    category: Category,
    date: int,
    location: string,
    createdBy: string,
    maxTeams: int,
    maxPlayersPerTeam: int)

  /** Every participant has a user id. */
  predicate ValidParticipant(p: Participant) {
    Given(p.userId)
  }

  /** The name, location and creator are required (the category and date are required
      too, and are always present in this representation). */
  predicate ValidEventInfo(info: EventInfo) {
    Given(info.name) && Given(info.location) && Given(info.createdBy)
  }

  /** The stored event document. */
  class Event {
    const info: EventInfo
    var participants: seq<Participant>

    /** The schema's validation: every required field is present. */
    ghost predicate Valid()
      reads this
    {
      ValidEventInfo(info) && forall p | p in participants :: ValidParticipant(p)
    }

    /** A new event, with nobody registered. */
    constructor (info: EventInfo)
      requires ValidEventInfo(info)
      ensures this.info == info && participants == [] && Valid()
    {
      this.info := info;
      participants := [];
    }
  }
}

/** The event controller: registering a user as an owner or a player under the event's
    caps, listing the owners or players with their names from the user service, and
    creating an event. The user service's answer is a parameter (`None` when it did not
    answer with a list); a database lookup is a parameter holding the document, or null. */
module EventRegistration {
  import opened Common
  import opened Categories
  import opened EventModel

  // ---------------------------------------------------------------------------
  // Participants by role

  /** The participants with the given role, in their order. */
  function FilterRole(ps: seq<Participant>, role: Role): (r: seq<Participant>)
    ensures |r| <= |ps|
    ensures forall p | p in r :: p in ps && p.role == role
    ensures forall p | p in ps && p.role == role :: p in r
    decreases |ps|
  {
    if ps == [] then []
    else if ps[0].role == role then [ps[0]] + FilterRole(ps[1..], role)
    else FilterRole(ps[1..], role)
  }

  /** Filtering commutes with appending, so a role's list keeps registration order. */
  lemma {:induction false} FilterRoleAppend(ps: seq<Participant>, p: Participant, role: Role)
    ensures FilterRole(ps + [p], role) == FilterRole(ps, role) + (if p.role == role then [p] else [])
    decreases |ps|
  {
    if ps == [] {
      assert ps + [p] == [p];
      assert [p][1..] == [];
    } else {
      assert (ps + [p])[0] == ps[0];
      assert (ps + [p])[1..] == ps[1..] + [p];
      FilterRoleAppend(ps[1..], p, role);
    }
  }

  /** Every participant is either an owner or a player. */
  lemma {:induction false} RolesPartition(ps: seq<Participant>)
    ensures |FilterRole(ps, OwnerRole)| + |FilterRole(ps, PlayerRole)| == |ps|
    decreases |ps|
  {
    if ps != [] {
      RolesPartition(ps[1..]);
    }
  }

  function UserIds(ps: seq<Participant>): (ids: seq<string>)
    ensures |ids| == |ps| && forall i :: 0 <= i < |ps| ==> ids[i] == ps[i].userId
  {
    seq(|ps|, i requires 0 <= i < |ps| => ps[i].userId)
  }

  // ---------------------------------------------------------------------------
  // registerForEvent

  /** The number of players the event admits. */
  function PlayerCap(info: EventInfo): int {
    info.maxTeams * info.maxPlayersPerTeam
  }

  /** The event's caps: at most `maxTeams` owners and at most `PlayerCap` players. */
  predicate WithinCaps(info: EventInfo, ps: seq<Participant>) {
    |FilterRole(ps, OwnerRole)| <= info.maxTeams
    && |FilterRole(ps, PlayerRole)| <= PlayerCap(info)
  }

  /** Room for one more participant of the role. */
  predicate HasRoom(info: EventInfo, ps: seq<Participant>, role: Role) {
    match role
    case OwnerRole => |FilterRole(ps, OwnerRole)| < info.maxTeams
    case PlayerRole => |FilterRole(ps, PlayerRole)| < PlayerCap(info)
  }

  /** The participant list after registering `userId` with a valid role on a found event:
      refused (400) if the user is already a participant or the role is full; refused by
      the schema (500) if the user id is empty; otherwise one pending participant is
      appended. */
  function Registration(info: EventInfo, ps: seq<Participant>, userId: string, role: Role, now: int)
    : (r: Result<seq<Participant>>)
    ensures r.Err? ==> r.error == BadRequest || r.error == ServerError
    ensures userId in UserIds(ps) ==> r == Err(BadRequest)
    ensures !HasRoom(info, ps, role) ==> r == Err(BadRequest)
    ensures r.Ok? <==> userId !in UserIds(ps) && HasRoom(info, ps, role) && Given(userId)
    ensures r.Ok? ==> r.value == ps + [Participant(userId, role, Pending, now)]
  {
    if userId in UserIds(ps) then Err(BadRequest)
    else if !HasRoom(info, ps, role) then Err(BadRequest)
    else if !Given(userId) then Err(ServerError)
    else Ok(ps + [Participant(userId, role, DefaultParticipantStatus, now)])
  }

  /** Registration keeps user ids unique. */
  lemma RegistrationKeepsIdsDistinct(info: EventInfo, ps: seq<Participant>, userId: string, role: Role, now: int)
    requires Distinct(UserIds(ps))
    ensures var r := Registration(info, ps, userId, role, now);
      r.Ok? ==> Distinct(UserIds(r.value))
  {
    var r := Registration(info, ps, userId, role, now);
    if r.Ok? {
      assert UserIds(r.value) == UserIds(ps) + [userId];
      DistinctAppend(UserIds(ps), userId);
    }
  }

  /** Registration keeps both caps, and adds to its own role's list only, at the end. */
  lemma RegistrationKeepsCaps(info: EventInfo, ps: seq<Participant>, userId: string, role: Role, now: int)
    ensures var r := Registration(info, ps, userId, role, now);
      r.Ok? ==> (WithinCaps(info, ps) ==> WithinCaps(info, r.value))
    ensures var r := Registration(info, ps, userId, role, now);
      r.Ok? ==> FilterRole(r.value, role) == FilterRole(ps, role) + [Participant(userId, role, Pending, now)]
    ensures var r := Registration(info, ps, userId, role, now);
      forall other | other != role :: r.Ok? ==> FilterRole(r.value, other) == FilterRole(ps, other)
  {
    var p := Participant(userId, role, Pending, now);
    FilterRoleAppend(ps, p, OwnerRole);
    FilterRoleAppend(ps, p, PlayerRole);
  }

  /** A user who registered cannot register again, under either role. */
  lemma RegisterOnce(info: EventInfo, ps: seq<Participant>, userId: string, role: Role, again: Role, now: int, later: int)
    requires Registration(info, ps, userId, role, now).Ok?
    ensures Registration(info, Registration(info, ps, userId, role, now).value, userId, again, later) == Err(BadRequest)
  {
    var ps' := Registration(info, ps, userId, role, now).value;
    assert UserIds(ps')[|ps|] == userId;
  }

  /** Registers the signed-in user for an event with the requested role: the role must be
      "player" or "owner" (400) before the event is looked up (404); then the user must
      not be registered yet and the role must have room (400), and the new pending
      participant is appended and saved. */
  method RegisterForEvent(event: Event?, userId: string, role: string, now: int) returns (r: Outcome)
    requires event != null ==> event.Valid()
    modifies event
    ensures event != null ==> event.Valid()
    ensures ParseRole(role).None? ==> r == Failure(BadRequest)
    ensures ParseRole(role).Some? && event == null ==> r == Failure(NotFound)
    ensures ParseRole(role).Some? && event != null ==>
      match Registration(event.info, old(event.participants), userId, ParseRole(role).value, now)
      case Ok(ps) => r == Success && event.participants == ps
      case Err(e) => r == Failure(e) && event.participants == old(event.participants)
    ensures event != null && r.Failure? ==> event.participants == old(event.participants)
    ensures event != null && old(Distinct(UserIds(event.participants))) ==> Distinct(UserIds(event.participants))
    ensures event != null && old(WithinCaps(event.info, event.participants)) ==> WithinCaps(event.info, event.participants)
  {
    var parsed := ParseRole(role);
    if parsed.None? {
      return Failure(BadRequest);
    }
    if event == null {
      return Failure(NotFound);
    }
    var newRole := parsed.value;
    ghost var before := event.participants;
    ghost var expected := Registration(event.info, before, userId, newRole, now);

    var alreadyRegistered := userId in UserIds(event.participants);
    if alreadyRegistered {
      assert expected == Err(BadRequest);
      return Failure(BadRequest);
    }

    var owners := FilterRole(event.participants, OwnerRole);
    var players := FilterRole(event.participants, PlayerRole);
    if newRole == OwnerRole && |owners| >= event.info.maxTeams {
      assert !HasRoom(event.info, before, newRole);
      return Failure(BadRequest);
    }
    if newRole == PlayerRole && |players| >= PlayerCap(event.info) {
      assert !HasRoom(event.info, before, newRole);
      return Failure(BadRequest);
    }
    assert HasRoom(event.info, before, newRole);
    if !Given(userId) {
      // the schema refuses to save a participant without a user id
      assert expected == Err(ServerError);
      return Failure(ServerError);
    }

    event.participants := event.participants + [Participant(userId, newRole, DefaultParticipantStatus, now)];
    if Distinct(UserIds(before)) {
      RegistrationKeepsIdsDistinct(event.info, before, userId, newRole, now);
    }
    RegistrationKeepsCaps(event.info, before, userId, newRole, now);
    assert expected == Ok(event.participants);
    r := Success;
  }

  // ---------------------------------------------------------------------------
  // getEventOwners / getEventPlayers

  /** A user as the user service returns them. */
  datatype UserInfo = UserInfo(id: string, name: string)

  /** The id-to-name table built from the users in order; a later user with the same id
      overwrites an earlier one. */
  function UserMapOf(users: seq<UserInfo>): map<string, string>
    decreases |users|
  {
    if users == [] then map[]
    else UserMapOf(users[..|users| - 1])[users[|users| - 1].id := users[|users| - 1].name]
  }

  /** An id is in the table exactly when some user has it, and its name is that of the
      last user with the id. */
  lemma {:induction false} UserMapLookup(users: seq<UserInfo>, id: string)
    ensures id in UserMapOf(users) <==> exists k :: 0 <= k < |users| && users[k].id == id
    ensures id in UserMapOf(users) ==> exists k ::
      0 <= k < |users| && users[k].id == id && UserMapOf(users)[id] == users[k].name
      && forall k' :: k < k' < |users| ==> users[k'].id != id
    decreases |users|
  {
    if users != [] {
      var n := |users| - 1;
      var init := users[..n];
      UserMapLookup(init, id);
      if users[n].id != id {
        if id in UserMapOf(users) {
          var k :| 0 <= k < |init| && init[k].id == id && UserMapOf(init)[id] == init[k].name
            && forall k' :: k < k' < |init| ==> init[k'].id != id;
          assert users[k] == init[k];
        } else {
          forall k | 0 <= k < |users|
            ensures users[k].id != id
          {
            if k < n { assert users[k] == init[k]; }
          }
        }
      }
    }
  }

  /** Builds the id-to-name table one user at a time. */
  method BuildUserMap(users: seq<UserInfo>) returns (m: map<string, string>)
    ensures m == UserMapOf(users)
  {
    m := map[];
    var i := 0;
    while i < |users|
      invariant 0 <= i <= |users|
      invariant m == UserMapOf(users[..i])
    {
      assert users[..i + 1][..i] == users[..i];
      m := m[users[i].id := users[i].name];
      i := i + 1;
    }
    assert users[..|users|] == users;
  }

  /** The name shown for a participant: the user service's name, or "Unknown" when the
      id is not in the table or its name is empty. */
  function DisplayName(m: map<string, string>, id: string): (name: string)
    ensures id in m && Given(m[id]) ==> name == m[id]
    ensures !(id in m && Given(m[id])) ==> name == "Unknown"
  {
    if id in m && Given(m[id]) then m[id] else "Unknown"
  }

  /** A participant as listed. */
  datatype DetailedParticipant = DetailedParticipant(
    userId: string,
    name: string,
    joinedAt: int,
    status: ParticipantStatus,
    role: Role)

  function Detailed(p: Participant, m: map<string, string>): DetailedParticipant {
    DetailedParticipant(p.userId, DisplayName(m, p.userId), p.joinedAt, p.status, p.role)
  }

  /** The listing of one role: its participants in order, each with its display name. */
  function Listing(ps: seq<Participant>, role: Role, users: seq<UserInfo>): (r: seq<DetailedParticipant>)
    ensures |r| == |FilterRole(ps, role)|
    ensures forall k :: 0 <= k < |r| ==> r[k].role == role
    ensures forall k :: 0 <= k < |r| ==>
      r[k] == Detailed(FilterRole(ps, role)[k], UserMapOf(users))
  {
    var selected := FilterRole(ps, role);
    var m := UserMapOf(users);
    assert forall k :: 0 <= k < |selected| ==> selected[k] in selected;
    seq(|selected|, k requires 0 <= k < |selected| => Detailed(selected[k], m))
  }

  /** A listed participant is shown with the name of the last user carrying their id
      when that name is non-empty, and as "Unknown" otherwise, including when no user
      carries their id. */
  lemma ListingNames(ps: seq<Participant>, role: Role, users: seq<UserInfo>, k: nat)
    requires k < |Listing(ps, role, users)|
    ensures var d := Listing(ps, role, users)[k];
      (forall j :: 0 <= j < |users| ==> users[j].id != d.userId) ==> d.name == "Unknown"
    ensures var d := Listing(ps, role, users)[k];
      forall j | 0 <= j < |users| && users[j].id == d.userId
                 && (forall j' :: j < j' < |users| ==> users[j'].id != d.userId) ::
        d.name == (if Given(users[j].name) then users[j].name else "Unknown")
  {
    var d := Listing(ps, role, users)[k];
    UserMapLookup(users, d.userId);
  }

  /** Registering one more participant extends its role's listing by one entry at the
      end and leaves the other role's listing as it was. */
  lemma ListingAfterRegistration(info: EventInfo, ps: seq<Participant>, userId: string, role: Role, now: int,
                                 users: seq<UserInfo>)
    requires Registration(info, ps, userId, role, now).Ok?
    ensures var ps' := Registration(info, ps, userId, role, now).value;
      Listing(ps', role, users)
        == Listing(ps, role, users) + [Detailed(Participant(userId, role, Pending, now), UserMapOf(users))]
    ensures var ps' := Registration(info, ps, userId, role, now).value;
      forall other | other != role :: Listing(ps', other, users) == Listing(ps, other, users)
  {
    RegistrationKeepsCaps(info, ps, userId, role, now);
  }

  /** Lists the participants of one role with their names: 404 when the event is
      missing, 500 when the user service did not answer with a list. */
  method ListByRole(event: Event?, role: Role, users: Option<seq<UserInfo>>) returns (r: Result<seq<DetailedParticipant>>)
    ensures event == null ==> r == Err(NotFound)
    ensures event != null && users.None? ==> r == Err(ServerError)
    ensures event != null && users.Some? ==> r == Ok(Listing(event.participants, role, users.value))
  {
    if event == null {
      return Err(NotFound);
    }
    var selected := FilterRole(event.participants, role);
    if users.None? {
      return Err(ServerError);
    }
    var userMap := BuildUserMap(users.value);
    var detailed := seq(|selected|, k requires 0 <= k < |selected| => Detailed(selected[k], userMap));
    r := Ok(detailed);
  }

  // ---------------------------------------------------------------------------
  // createEvent

  /** The request body of event creation. Numbers and the date are `None` when absent. */
  datatype CreateEventRequest = CreateEventRequest(
    name: string,
    description: string,
    category: string,
    date: Option<int>,
    location: string,
    maxTeams: Option<int>,
    maxPlayersPerTeam: Option<int>)

  /** A number is truthy in JavaScript when present and not zero. */
  predicate Truthy(n: Option<int>) {
    n.Some? && n.value != 0
  }

  predicate RequiredGiven(req: CreateEventRequest) {
    Given(req.name) && Given(req.category) && Truthy(req.date) && Given(req.location)
    && Truthy(req.maxTeams) && Truthy(req.maxPlayersPerTeam)
  }

  /** The event created by `createdBy` from a request: 400 when a required field is
      missing or zero, or the category is outside the enumeration; the schema refuses
      (500) an event without a creator. */
  function CreateEvent(req: CreateEventRequest, createdBy: string): (r: Result<EventInfo>)
    ensures !RequiredGiven(req) ==> r == Err(BadRequest)
    ensures RequiredGiven(req) && req.category !in CategoryNames ==> r == Err(BadRequest)
    ensures r.Ok? <==> RequiredGiven(req) && req.category in CategoryNames && Given(createdBy)
    ensures r.Err? ==> r.error == BadRequest || r.error == ServerError
    ensures r.Ok? ==> (
      && ValidEventInfo(r.value)
      && r.value.name == req.name && r.value.description == req.description
      && CategoryName(r.value.category) == req.category
      && Some(r.value.date) == req.date && r.value.location == req.location
      && r.value.createdBy == createdBy
      && Some(r.value.maxTeams) == req.maxTeams && Some(r.value.maxPlayersPerTeam) == req.maxPlayersPerTeam)
  {
    if !RequiredGiven(req) then Err(BadRequest)
    else match ParseCategory(req.category)
      case None => Err(BadRequest)
      case Some(c) =>
        NameOfParsed(req.category);
        if !Given(createdBy) then Err(ServerError)
        else Ok(EventInfo(req.name, req.description, c, req.date.value, req.location, createdBy,
                          req.maxTeams.value, req.maxPlayersPerTeam.value))
  }
}

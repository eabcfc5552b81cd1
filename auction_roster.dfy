/** The auction controller's document operations: creating the auction record,
    taking registrations from the message queue into the player and team lists,
    finalising a sold player onto a team, and looking a team up.

    A database lookup (`findById`, `findOne`) is a parameter holding the document it
    returned, or null when there was none. */
module AuctionRoster {
  import opened Common
  import opened Categories
  import opened AuctionModel

  // ---------------------------------------------------------------------------
  // Sold players and team rosters

  /** The ids of the players already sold, one occurrence per sold record. */
  function SoldIds(ps: seq<AuctionPlayer>): multiset<string>
    decreases |ps|
  {
    if ps == [] then multiset{}
    else (if ps[0].bidStatus == Bidded then multiset{ps[0].playerId} else multiset{}) + SoldIds(ps[1..])
  }

  /** The ids on all team rosters, one occurrence per roster entry. */
  function RosteredIds(ts: seq<Team>): multiset<string>
    decreases |ts|
  {
    if ts == [] then multiset{}
    else multiset(RosterIds(ts[0].players)) + RosteredIds(ts[1..])
  }

  /** What the controller keeps true of a stored auction: player ids and team owners are
      unique, and the team rosters hold exactly the sold players. */
  ghost predicate Consistent(a: Auction)
    reads a
  {
    Distinct(PlayerIds(a.players))
    && Distinct(OwnerIds(a.teams))
    && RosteredIds(a.teams) == SoldIds(a.players)
  }

  /** A player registered as available adds nobody to the sold players. */
  lemma {:induction false} SoldIdsAppendAvailable(ps: seq<AuctionPlayer>, p: AuctionPlayer)
    requires p.bidStatus == Available
    ensures SoldIds(ps + [p]) == SoldIds(ps)
    decreases |ps|
  {
    if ps == [] {
      assert ([p])[1..] == [];
    } else {
      assert (ps + [p])[1..] == ps[1..] + [p];
      SoldIdsAppendAvailable(ps[1..], p);
    }
  }

  /** Selling one available record adds exactly its id to the sold players. */
  lemma {:induction false} SoldIdsSell(ps: seq<AuctionPlayer>, i: nat, p: AuctionPlayer)
    requires i < |ps| && ps[i].bidStatus == Available
    requires p.bidStatus == Bidded && p.playerId == ps[i].playerId
    ensures SoldIds(ps[i := p]) == SoldIds(ps) + multiset{p.playerId}
    decreases |ps|
  {
    if i == 0 {
      assert ps[i := p][1..] == ps[1..];
    } else {
      assert ps[i := p][1..] == ps[1..][i - 1 := p];
      SoldIdsSell(ps[1..], i - 1, p);
    }
  }

  /** A new team with an empty roster adds nobody to the rosters. */
  lemma {:induction false} RosteredIdsAppendEmpty(ts: seq<Team>, t: Team)
    requires t.players == []
    ensures RosteredIds(ts + [t]) == RosteredIds(ts)
    decreases |ts|
  {
    if ts == [] {
      assert ([t])[1..] == [];
      assert RosterIds(t.players) == [];
    } else {
      assert (ts + [t])[1..] == ts[1..] + [t];
      RosteredIdsAppendEmpty(ts[1..], t);
    }
  }

  /** Adding one entry to one team's roster adds exactly its id to the rosters. */
  lemma {:induction false} RosteredIdsAddEntry(ts: seq<Team>, j: nat, e: TeamPlayer)
    requires j < |ts|
    ensures RosteredIds(ts[j := ts[j].(players := ts[j].players + [e])]) == RosteredIds(ts) + multiset{e.playerId}
    decreases |ts|
  {
    var t' := ts[j].(players := ts[j].players + [e]);
    if j == 0 {
      assert ts[j := t'][1..] == ts[1..];
      assert RosterIds(t'.players) == RosterIds(ts[0].players) + [e.playerId];
    } else {
      assert ts[j := t'][1..] == ts[1..][j - 1 := t'];
      RosteredIdsAddEntry(ts[1..], j - 1, e);
    }
  }

  /** With unique player ids, an id is sold at most once. */
  lemma {:induction false} SoldAtMostOnce(ps: seq<AuctionPlayer>, id: string)
    requires Distinct(PlayerIds(ps))
    ensures SoldIds(ps)[id] <= 1
    ensures id !in PlayerIds(ps) ==> SoldIds(ps)[id] == 0
    decreases |ps|
  {
    if ps != [] {
      assert PlayerIds(ps[1..]) == PlayerIds(ps)[1..];
      SoldAtMostOnce(ps[1..], id);
      if ps[0].playerId == id {
        assert id !in PlayerIds(ps[1..]);
      }
    }
  }

  /** No player of a consistent auction sits on two rosters, or twice on one. */
  lemma OnAtMostOneRoster(a: Auction, id: string)
    requires Consistent(a)
    ensures RosteredIds(a.teams)[id] <= 1
  {
    SoldAtMostOnce(a.players, id);
  }

  /** The live-bidding fields are left to the bidding engine. */
  twostate predicate BidFieldsUnchanged(a: Auction)
    reads a
  {
    a.currentBid == old(a.currentBid)
    && a.currentBidderId == old(a.currentBidderId)
    && a.currentBidderName == old(a.currentBidderName)
  }

  // ---------------------------------------------------------------------------
  // createAuction

  /** What fetching the event gave the controller. `FetchFailed`: the call to the event
      service threw. Every error answer ends here, including the 404 the event service
      gives for an unknown event id, and so does an empty body, because the fetch helper
      turns whatever it throws into a 500. `IncompleteAnswer`: a successful answer whose
      body lacks the success flag or the event. `EventFound`: the event itself. */
  datatype EventLookup = FetchFailed | IncompleteAnswer | EventFound(details: EventDetails)

  datatype EventDetails = EventDetails(id: string, category: string, name: string, description: string)

  datatype CreateAuctionRequest = CreateAuctionRequest(
    eventId: string,
    auctionDate: Option<int>,
    auctionTime: string,
    auctionLocation: string)

  /** The record a new auction is created from; saving it fails (a server error) unless
      the event's category is in the enumeration and every required field is present.
      The new document then starts empty, at bid 0 and without a bidder (the `Auction`
      constructor). */
  function CreateAuction(req: CreateAuctionRequest, lookup: EventLookup): (r: Result<AuctionInfo>)
    ensures !Given(req.eventId) ==> r == Err(BadRequest)
    ensures Given(req.eventId) && lookup.FetchFailed? ==> r == Err(ServerError)
    ensures Given(req.eventId) && lookup.IncompleteAnswer? ==> r == Err(NotFound)
    ensures Given(req.eventId) && lookup.EventFound? ==>
      var e := lookup.details;
      (r.Ok? <==> (ParseCategory(e.category).Some? && req.auctionDate.Some?
                   && Given(e.id) && Given(e.name) && Given(e.description)
                   && Given(req.auctionTime) && Given(req.auctionLocation)))
      && (r.Err? ==> r.error == ServerError)
    ensures r.Ok? ==> (
      && lookup.EventFound? && ValidAuctionInfo(r.value)
      && r.value.eventId == lookup.details.id
      && CategoryName(r.value.eventCategory) == lookup.details.category
      && r.value.eventName == lookup.details.name
      && r.value.eventDescription == lookup.details.description
      && req.auctionDate == Some(r.value.auctionDate)
      && r.value.auctionTime == req.auctionTime
      && r.value.auctionLocation == req.auctionLocation)
  {
    if !Given(req.eventId) then Err(BadRequest)
    else match lookup
      case FetchFailed => Err(ServerError)
      case IncompleteAnswer => Err(NotFound)
      case EventFound(e) =>
        match ParseCategory(e.category)
        case None => Err(ServerError)
        case Some(category) =>
          if req.auctionDate.None? then Err(ServerError)
          else
            var info := AuctionInfo(e.id, category, e.name, e.description,
                                    req.auctionDate.value, req.auctionTime, req.auctionLocation);
            if ValidAuctionInfo(info) then Ok(info) else Err(ServerError)
  }

  // ---------------------------------------------------------------------------
  // getTeamById

  /** The first team with the given document id. */
  function GetTeamById(auction: Auction?, teamId: string): (r: Result<Team>)
    reads auction
    ensures r.Err? ==> r.error == NotFound
    ensures auction == null ==> r.Err?
    ensures auction != null ==> (r.Ok? <==> teamId in TeamIds(auction.teams))
    ensures r.Ok? ==> auction != null && r.value.id == teamId
    ensures r.Ok? && auction != null ==>
      exists j | 0 <= j < |auction.teams| ::
        r.value == auction.teams[j] && forall k | 0 <= k < j :: auction.teams[k].id != teamId
  {
    if auction == null then Err(NotFound)
    else match FirstIndexOf(TeamIds(auction.teams), teamId)
      case None => Err(NotFound)
      case Some(j) => Ok(auction.teams[j])
  }

  // ---------------------------------------------------------------------------
  // addPlayerOrTeamToAuction

  /** A registration taken off the queue. */
  datatype RegistrationMessage = RegistrationMessage(
    eventId: string,
    role: string,
    userId: string,
    username: string,
    teamName: string)

  datatype AddOutcome = Added | AlreadyRegistered | Rejected(error: Error)

  predicate MessageComplete(data: RegistrationMessage) {
    Given(data.eventId) && Given(data.role) && Given(data.userId) && Given(data.username)
  }

  /** Adds a registered player, or an owner's new team, to the auction of the event;
      a user already present is skipped. `auction` is the auction found for the event,
      `newTeamId` the id the database gives a new team. */
  method AddPlayerOrTeamToAuction(auction: Auction?, data: RegistrationMessage, newTeamId: string)
    returns (r: AddOutcome)
    requires auction != null ==> auction.Valid()
    modifies auction
    ensures auction != null ==> auction.Valid() && BidFieldsUnchanged(auction)
    ensures auction != null && old(Consistent(auction)) ==> Consistent(auction)
    ensures r != Added && auction != null ==> unchanged(auction)
    ensures !MessageComplete(data) ==> r == Rejected(BadRequest)
    ensures MessageComplete(data) && auction == null ==> r == Rejected(NotFound)
    ensures MessageComplete(data) && auction != null && data.role == "player" ==>
      if data.userId in PlayerIds(old(auction.players)) then r == AlreadyRegistered
      else (r == Added && auction.teams == old(auction.teams)
            && auction.players == old(auction.players) + [NewAuctionPlayer(data.userId, data.username)])
    ensures MessageComplete(data) && auction != null && data.role == "owner" ==>
      if !Given(data.teamName) then r == Rejected(BadRequest)
      else if data.userId in OwnerIds(old(auction.teams)) then r == AlreadyRegistered
      else (r == Added && auction.players == old(auction.players)
            && auction.teams == old(auction.teams) + [Team(newTeamId, data.userId, data.username, data.teamName, [])])
    ensures MessageComplete(data) && auction != null && data.role != "player" && data.role != "owner" ==>
      r == Rejected(BadRequest)
  {
    if !MessageComplete(data) {
      return Rejected(BadRequest);
    }
    if auction == null {
      return Rejected(NotFound);
    }
    if data.role == "player" {
      var newPlayer := NewAuctionPlayer(data.userId, data.username);
      if data.userId in PlayerIds(auction.players) {
        return AlreadyRegistered;
      }
      SoldIdsAppendAvailable(auction.players, newPlayer);
      assert PlayerIds(auction.players + [newPlayer]) == PlayerIds(auction.players) + [data.userId];
      auction.players := auction.players + [newPlayer];
      r := Added;
    } else if data.role == "owner" {
      if !Given(data.teamName) {
        return Rejected(BadRequest);
      }
      var newTeam := Team(newTeamId, data.userId, data.username, data.teamName, []);
      if data.userId in OwnerIds(auction.teams) {
        return AlreadyRegistered;
      }
      RosteredIdsAppendEmpty(auction.teams, newTeam);
      assert OwnerIds(auction.teams + [newTeam]) == OwnerIds(auction.teams) + [data.userId];
      auction.teams := auction.teams + [newTeam];
      r := Added;
    } else {
      r := Rejected(BadRequest);
    }
  }

  /** Delivering the same registration twice changes nothing the second time. */
  method RegistrationIsIdempotent(auction: Auction, data: RegistrationMessage, newTeamId: string)
    returns (first: AddOutcome, second: AddOutcome)
    requires auction.Valid()
    modifies auction
    ensures first == Added ==> second == AlreadyRegistered
    ensures auction.players == old(auction.players) + (if first == Added && data.role == "player" then [NewAuctionPlayer(data.userId, data.username)] else [])
    ensures auction.teams == old(auction.teams) + (if first == Added && data.role == "owner" then [Team(newTeamId, data.userId, data.username, data.teamName, [])] else [])
  {
    first := AddPlayerOrTeamToAuction(auction, data, newTeamId);
    ghost var playersAfterFirst, teamsAfterFirst := auction.players, auction.teams;
    second := AddPlayerOrTeamToAuction(auction, data, newTeamId);
    if first == Added && data.role == "player" {
      assert data.userId in PlayerIds(playersAfterFirst) by {
        assert playersAfterFirst[|playersAfterFirst| - 1].playerId == data.userId;
      }
    }
    if first == Added && data.role == "owner" {
      assert data.userId in OwnerIds(teamsAfterFirst) by {
        assert teamsAfterFirst[|teamsAfterFirst| - 1].ownerId == data.userId;
      }
    }
  }

  // ---------------------------------------------------------------------------
  // finalizePlayerBid

  datatype FinalizeRequest = FinalizeRequest(
    auctionId: string,
    playerId: string,
    finalBid: Option<int>,
    teamName: string)

  /** The sold player and the team that bought them, as the response reports them. */
  datatype Sale = Sale(player: AuctionPlayer, team: Team)

  predicate FinalizeComplete(req: FinalizeRequest) {
    Given(req.auctionId) && Given(req.playerId) && req.finalBid.Some? && Given(req.teamName)
  }

  /** A player record once sold to `teamName` for `finalBid`. */
  function SoldPlayer(p: AuctionPlayer, finalBid: int, teamName: string): AuctionPlayer {
    p.(finalBid := finalBid, teamName := teamName, bidStatus := Bidded, currentStatus := Inactive)
  }

  /** A team with `p` added at the end of its roster. */
  function WithRosterEntry(t: Team, p: AuctionPlayer): Team {
    t.(players := t.players + [TeamPlayer(p.playerId, p.playerName)])
  }

  /** A sale of an unsold player to a named team keeps every record valid, keeps the
      player and owner ids, and keeps the rosters equal to the sold players. */
  lemma SaleKeepsInvariants(ps: seq<AuctionPlayer>, ts: seq<Team>, i: nat, j: nat, finalBid: int, teamName: string)
    requires i < |ps| && j < |ts| && ps[i].bidStatus != Bidded && Given(teamName)
    requires (forall q | q in ps :: ValidPlayer(q)) && (forall t | t in ts :: ValidTeam(t))
    ensures var p := SoldPlayer(ps[i], finalBid, teamName);
      var ps' := ps[i := p];
      var ts' := ts[j := WithRosterEntry(ts[j], p)];
      && (forall q | q in ps' :: ValidPlayer(q))
      && (forall t | t in ts' :: ValidTeam(t))
      && PlayerIds(ps') == PlayerIds(ps)
      && OwnerIds(ts') == OwnerIds(ts)
      && (RosteredIds(ts) == SoldIds(ps) ==> RosteredIds(ts') == SoldIds(ps'))
  {
    var p := SoldPlayer(ps[i], finalBid, teamName);
    assert ValidPlayer(ps[i]);
    SoldKeepsValid(ps, i, p);
    RosterEntryKeepsValid(ts, j, p);
    SoldIdsSell(ps, i, p);
    RosteredIdsAddEntry(ts, j, TeamPlayer(p.playerId, p.playerName));
    assert PlayerIds(ps[i := p]) == PlayerIds(ps);
    assert OwnerIds(ts[j := WithRosterEntry(ts[j], p)]) == OwnerIds(ts);
  }

  /** Selling a valid player record to a named team keeps every record valid. */
  lemma SoldKeepsValid(ps: seq<AuctionPlayer>, i: nat, p: AuctionPlayer)
    requires i < |ps| && (forall q | q in ps :: ValidPlayer(q))
    requires p.playerId == ps[i].playerId && p.playerName == ps[i].playerName && Given(p.teamName)
    ensures forall q | q in ps[i := p] :: ValidPlayer(q)
  {
    assert ValidPlayer(ps[i]);
    forall q | q in ps[i := p] ensures ValidPlayer(q) {
      var k :| 0 <= k < |ps| && ps[i := p][k] == q;
      if k != i {
        assert q == ps[k];
      }
    }
  }

  /** Adding a valid player to a valid team's roster keeps every team valid. */
  lemma RosterEntryKeepsValid(ts: seq<Team>, j: nat, p: AuctionPlayer)
    requires j < |ts| && (forall t | t in ts :: ValidTeam(t)) && Given(p.playerId) && Given(p.playerName)
    ensures forall t | t in ts[j := WithRosterEntry(ts[j], p)] :: ValidTeam(t)
  {
    assert ValidTeam(ts[j]);
    var t' := WithRosterEntry(ts[j], p);
    assert ValidTeam(t') by {
      forall e | e in t'.players ensures ValidTeamPlayer(e) {
        if e !in ts[j].players {
          assert e == TeamPlayer(p.playerId, p.playerName);
        }
      }
    }
    forall t | t in ts[j := t'] ensures ValidTeam(t) {
      var k :| 0 <= k < |ts| && ts[j := t'][k] == t;
      if k != j {
        assert t == ts[k];
      }
    }
  }

  /** Marks a player as sold and puts them on the first team with the given name. Nothing
      is saved unless the player exists, is still available and the team exists. */
  method FinalizePlayerBid(auction: Auction?, req: FinalizeRequest) returns (r: Result<Sale>)
    requires auction != null ==> auction.Valid()
    modifies auction
    ensures auction != null ==> auction.Valid() && BidFieldsUnchanged(auction)
    ensures auction != null && old(Consistent(auction)) ==> Consistent(auction)
    ensures r.Err? && auction != null ==> unchanged(auction)
    ensures !FinalizeComplete(req) ==> r == Err(BadRequest)
    ensures FinalizeComplete(req) && auction == null ==> r == Err(NotFound)
    ensures FinalizeComplete(req) && auction != null ==>
      var players := old(auction.players);
      var teams := old(auction.teams);
      var i := FirstIndexOf(PlayerIds(players), req.playerId);
      var j := FirstIndexOf(TeamNames(teams), req.teamName);
      if i.None? then r == Err(NotFound)
      else if players[i.value].bidStatus == Bidded then r == Err(BadRequest)
      else if j.None? then r == Err(NotFound)
      else
        var p := SoldPlayer(players[i.value], req.finalBid.value, req.teamName);
        var t := WithRosterEntry(teams[j.value], p);
        r == Ok(Sale(p, t)) && auction.players == players[i.value := p] && auction.teams == teams[j.value := t]
  {
    if !FinalizeComplete(req) {
      return Err(BadRequest);
    }
    if auction == null {
      return Err(NotFound);
    }
    var i := FirstIndexOf(PlayerIds(auction.players), req.playerId);
    if i.None? {
      return Err(NotFound);
    }
    var player := auction.players[i.value];
    if player.bidStatus == Bidded {
      return Err(BadRequest);
    }
    player := SoldPlayer(player, req.finalBid.value, req.teamName);
    var j := FirstIndexOf(TeamNames(auction.teams), req.teamName);
    if j.None? {
      return Err(NotFound);
    }
    var team := WithRosterEntry(auction.teams[j.value], player);
    SaleKeepsInvariants(auction.players, auction.teams, i.value, j.value, req.finalBid.value, req.teamName);
    auction.players := auction.players[i.value := player];
    auction.teams := auction.teams[j.value := team];
    r := Ok(Sale(player, team));
  }

  /** A player once finalised cannot be finalised again, to any team. */
  method FinalizeTwiceRefused(auction: Auction, req: FinalizeRequest, again: FinalizeRequest)
    returns (first: Result<Sale>, second: Result<Sale>)
    requires auction.Valid()
    requires FinalizeComplete(again) && again.playerId == req.playerId
    modifies auction
    ensures first.Ok? ==> second == Err(BadRequest)
  {
    ghost var before := auction.players;
    first := FinalizePlayerBid(auction, req);
    if first.Ok? {
      var i := FirstIndexOf(PlayerIds(before), req.playerId).value;
      assert PlayerIds(auction.players) == PlayerIds(before);
      assert auction.players[i].bidStatus == Bidded;
    }
    second := FinalizePlayerBid(auction, again);
  }
}

/** The auction document: the event it belongs to, the live-bidding fields, the
    registered players and the teams with their bought players. Enumerated string
    fields are datatypes, so a value outside an enumeration cannot be written. */
module AuctionModel {
  import opened Common
  import opened Categories

  datatype BidStatus = Available | Bidded

  datatype CurrentStatus = Active | Inactive

  /** A player registered for the auction. */
  datatype AuctionPlayer = AuctionPlayer(
    playerId: string,
    playerName: string,
    teamName: string,
    finalBid: int,
    bidStatus: BidStatus,
    currentStatus: CurrentStatus)

  /** A player on a team's roster. */
  datatype TeamPlayer = TeamPlayer(playerId: string, playerName: string)

  /** A team, keyed by its generated document id. */
  datatype Team = Team(
    id: string,
    ownerId: string,
    ownerName: string,
    teamName: string,
    players: seq<TeamPlayer>)

  /** The fields fixed when the auction is created. */
  datatype AuctionInfo = AuctionInfo(
    eventId: string,
    eventCategory: Category,
    eventName: string,
    eventDescription: string,
    auctionDate: int,
    auctionTime: string,
    auctionLocation: string)

  /** Schema defaults of a player record. */
  const DefaultTeamName: string := "N/A"
  const DefaultFinalBid: int := 0
  const DefaultBidStatus: BidStatus := Available
  const DefaultCurrentStatus: CurrentStatus := Inactive

  /** Schema defaults of the live-bidding fields. */
  const DefaultCurrentBid: int := 0

  /** A player record with every defaulted field at its default. */
  function NewAuctionPlayer(playerId: string, playerName: string): (p: AuctionPlayer)
    ensures p.playerId == playerId && p.playerName == playerName
    ensures p.teamName == "N/A" && p.finalBid == 0
    ensures p.bidStatus == Available && p.currentStatus == Inactive
  {
    AuctionPlayer(playerId, playerName, DefaultTeamName, DefaultFinalBid, DefaultBidStatus, DefaultCurrentStatus)
  }

  /** Required string fields of a player are non-empty. */
  predicate ValidPlayer(p: AuctionPlayer) {
    Given(p.playerId) && Given(p.playerName) && Given(p.teamName)
  }

  predicate ValidTeamPlayer(p: TeamPlayer) {
    Given(p.playerId) && Given(p.playerName)
  }

  predicate ValidTeam(t: Team) {
    Given(t.ownerId) && Given(t.ownerName) && Given(t.teamName)
    && forall p | p in t.players :: ValidTeamPlayer(p)
  }

  /** Required string fields of the auction are non-empty. */
  predicate ValidAuctionInfo(info: AuctionInfo) {
    Given(info.eventId) && Given(info.eventName) && Given(info.eventDescription)
    && Given(info.auctionTime) && Given(info.auctionLocation)
  }

  function PlayerIds(ps: seq<AuctionPlayer>): (ids: seq<string>)
    ensures |ids| == |ps| && forall i :: 0 <= i < |ps| ==> ids[i] == ps[i].playerId
  {
    seq(|ps|, i requires 0 <= i < |ps| => ps[i].playerId)
  }

  function OwnerIds(ts: seq<Team>): (ids: seq<string>)
    ensures |ids| == |ts| && forall i :: 0 <= i < |ts| ==> ids[i] == ts[i].ownerId
  {
    seq(|ts|, i requires 0 <= i < |ts| => ts[i].ownerId)
  }

  function TeamIds(ts: seq<Team>): (ids: seq<string>)
    ensures |ids| == |ts| && forall i :: 0 <= i < |ts| ==> ids[i] == ts[i].id
  {
    seq(|ts|, i requires 0 <= i < |ts| => ts[i].id)
  }

  function TeamNames(ts: seq<Team>): (names: seq<string>)
    ensures |names| == |ts| && forall i :: 0 <= i < |ts| ==> names[i] == ts[i].teamName
  {
    seq(|ts|, i requires 0 <= i < |ts| => ts[i].teamName)
  }

  function RosterIds(ps: seq<TeamPlayer>): (ids: seq<string>)
    ensures |ids| == |ps| && forall i :: 0 <= i < |ps| ==> ids[i] == ps[i].playerId
  {
    seq(|ps|, i requires 0 <= i < |ps| => ps[i].playerId)
  }

  /** The stored auction document. */
  class Auction {
    const info: AuctionInfo
    var currentBid: int
    var currentBidderId: Option<string>
    var currentBidderName: Option<string>
    var players: seq<AuctionPlayer>
    var teams: seq<Team>

    /** The schema's validation: every required field is present. */
    ghost predicate Valid()
      reads this
    {
      ValidAuctionInfo(info)
      && (forall p | p in players :: ValidPlayer(p))
      && (forall t | t in teams :: ValidTeam(t))
    }

    /** A new auction document: no players, no teams, bid 0 and no bidder yet. */
    constructor (info: AuctionInfo)
      requires ValidAuctionInfo(info)
      ensures this.info == info && Valid()
      ensures players == [] && teams == []
      ensures currentBid == 0 && currentBidderId == None && currentBidderName == None
    {
      this.info := info;
      currentBid := DefaultCurrentBid;
      currentBidderId := None;
      currentBidderName := None;
      players := [];
      teams := [];
    }
  }
}

/** The cricket match document: two teams, two innings of batting and bowling
    tables, and which innings is being played. */
module MatchModel {
  import opened Common

  /** A player as the match stores them in teams and as current batsmen or bowler. */
  datatype PlayerRef = PlayerRef(playerId: string, playerName: string)

  datatype MatchTeam = MatchTeam(teamId: string, teamName: string, players: seq<PlayerRef>)

  datatype BattingEntry = BattingEntry(
    playerId: string,
    playerName: string,
    runs: int,
    ballsFaced: int,
    fours: int,
    sixes: int,
    out: bool)

  /** A bowler's line. `overs` counts sixths of an over as fractions. */
  datatype BowlingEntry = BowlingEntry(
    playerId: string,
    playerName: string,
    overs: real,
    maidens: int,
    runsConceded: int,
    wickets: int)

  datatype MatchType = T20 | ODI | Test

  datatype MatchStatus = NotStarted | Live | Paused | Finished

  const DefaultMatchType: MatchType := T20
  const DefaultMatchStatus: MatchStatus := NotStarted
  const DefaultCurrentInnings: int := 1
  const MaxCurrentBatsmen: nat := 2

  const MatchTypeNames: seq<string> := ["T20", "ODI", "Test"]

  /** Reads a match type; anything outside the enumeration is refused. */
  function ParseMatchType(s: string): (r: Option<MatchType>)
    ensures r.Some? <==> s in MatchTypeNames
  {
    if s == "T20" then Some(T20)
    else if s == "ODI" then Some(ODI)
    else if s == "Test" then Some(Test)
    else None
  }

  /** The stored name of a match type, which reads back as the same type. */
  function MatchTypeName(t: MatchType): (s: string)
    ensures s in MatchTypeNames && ParseMatchType(s) == Some(t)
  {
    match t
    case T20 => "T20"
    case ODI => "ODI"
    case Test => "Test"
  }

  /** A batting line as it starts: no runs, no balls, no boundaries, not out. */
  function NewBattingEntry(p: PlayerRef): (e: BattingEntry)
    ensures e.playerId == p.playerId && e.playerName == p.playerName
    ensures e.runs == 0 && e.ballsFaced == 0 && e.fours == 0 && e.sixes == 0 && !e.out
  {
    BattingEntry(p.playerId, p.playerName, 0, 0, 0, 0, false)
  }

  /** A bowling line as it starts: nothing bowled. */
  function NewBowlingEntry(p: PlayerRef): (e: BowlingEntry)
    ensures e.playerId == p.playerId && e.playerName == p.playerName
    ensures e.overs == 0.0 && e.maidens == 0 && e.runsConceded == 0 && e.wickets == 0
  {
    BowlingEntry(p.playerId, p.playerName, 0.0, 0, 0, 0)
  }

  /** A stored player has both required fields. */
  predicate ValidRef(p: PlayerRef) {
    Given(p.playerId) && Given(p.playerName)
  }

  /** A team has its id, its name and at least one player. */
  predicate ValidMatchTeam(t: MatchTeam) {
    Given(t.teamId) && Given(t.teamName) && |t.players| > 0
    && forall p | p in t.players :: ValidRef(p)
  }

  /** The fields fixed when the match is created. */
  datatype MatchInfo = MatchInfo(
    eventId: string,
    matchno: int,
    matchTitle: string,
    matchType: MatchType,
    status: MatchStatus,
    startTime: Option<int>,
    endTime: Option<int>,
    teams: seq<MatchTeam>)

  /** Required fields present; exactly two teams, each valid. */
  predicate ValidMatchInfo(info: MatchInfo) {
    Given(info.eventId) && Given(info.matchTitle)
    && |info.teams| == 2 && forall t | t in info.teams :: ValidMatchTeam(t)
  }

  /** The value of one innings' statistics. */
  datatype InningsStats = InningsStats(
    batting: seq<BattingEntry>,
    bowling: seq<BowlingEntry>,
    totalRuns: int,
    totalWickets: int,
    overs: real,
    currentBatsmen: seq<PlayerRef>,
    currentBowler: Option<PlayerRef>)

  /** The schema's validation of an innings: at most two current batsmen, and the current
      batsmen and bowler carry both required fields. */
  predicate ValidStats(s: InningsStats) {
    |s.currentBatsmen| <= MaxCurrentBatsmen
    && (forall p | p in s.currentBatsmen :: ValidRef(p))
    && (s.currentBowler.Some? ==> ValidRef(s.currentBowler.value))
  }

  /** An innings sub-document, updated in place ball by ball. */
  class Innings {
    var batting: seq<BattingEntry>
    var bowling: seq<BowlingEntry>
    var totalRuns: int
    var totalWickets: int
    var overs: real
    var currentBatsmen: seq<PlayerRef>
    var currentBowler: Option<PlayerRef>

    function Stats(): InningsStats
      reads this
    {
      InningsStats(batting, bowling, totalRuns, totalWickets, overs, currentBatsmen, currentBowler)
    }

    ghost predicate Valid()
      reads this
    {
      ValidStats(Stats())
    }

    /** An innings not yet started: empty tables, zero totals, nobody in. */
    constructor ()
      ensures Valid()
      ensures Stats() == InningsStats([], [], 0, 0, 0.0, [], None)
    {
      batting, bowling := [], [];
      totalRuns, totalWickets, overs := 0, 0, 0.0;
      currentBatsmen, currentBowler := [], None;
    }
  }

  /** The stored match document. */
  class Match {
    const info: MatchInfo
    var currentInnings: int
    const firstInnings: Innings
    const secondInnings: Innings

    /** The innings the next update applies to. */
    function CurrentInnings(): Innings
      reads this
    {
      if currentInnings == 1 then firstInnings else secondInnings
    }

    /** The innings the next update leaves alone. */
    function OtherInnings(): Innings
      reads this
    {
      if currentInnings == 1 then secondInnings else firstInnings
    }

    /** The schema's validation: required fields and exactly two non-empty teams, the
        innings number is 1 or 2, and both innings are valid separate documents. */
    ghost predicate Valid()
      reads this, firstInnings, secondInnings
    {
      ValidMatchInfo(info)
      && (currentInnings == 1 || currentInnings == 2)
      && firstInnings != secondInnings
      && firstInnings.Valid() && secondInnings.Valid()
    }

    /** A new match: first innings current, both innings empty. */
    constructor (info: MatchInfo)
      requires ValidMatchInfo(info)
      ensures Valid() && this.info == info && currentInnings == 1
      ensures fresh(firstInnings) && fresh(secondInnings)
      ensures firstInnings.Stats() == secondInnings.Stats() == InningsStats([], [], 0, 0, 0.0, [], None)
    {
      this.info := info;
      currentInnings := DefaultCurrentInnings;
      firstInnings := new Innings();
      secondInnings := new Innings();
    }
  }
}

/** The live-score controller: creating a match between two teams, and applying one
    score update (totals, a new batsman, a new bowler, one ball) to the innings being
    played. A database lookup is a parameter holding the document it returned, or
    null when there was none. */
module LiveScore {
  import opened Common
  import opened MatchModel

  // ---------------------------------------------------------------------------
  // Identifiers and sums over the tables

  function RefIds(ps: seq<PlayerRef>): (ids: seq<string>)
    ensures |ids| == |ps| && forall i :: 0 <= i < |ps| ==> ids[i] == ps[i].playerId
  {
    seq(|ps|, i requires 0 <= i < |ps| => ps[i].playerId)
  }

  function BattingIds(bs: seq<BattingEntry>): (ids: seq<string>)
    ensures |ids| == |bs| && forall i :: 0 <= i < |bs| ==> ids[i] == bs[i].playerId
  {
    seq(|bs|, i requires 0 <= i < |bs| => bs[i].playerId)
  }

  function BowlingIds(ws: seq<BowlingEntry>): (ids: seq<string>)
    ensures |ids| == |ws| && forall i :: 0 <= i < |ws| ==> ids[i] == ws[i].playerId
  {
    seq(|ws|, i requires 0 <= i < |ws| => ws[i].playerId)
  }

  function Sum(xs: seq<int>): int
    decreases |xs|
  {
    if xs == [] then 0 else xs[0] + Sum(xs[1..])
  }

  /** Changing one element changes the sum by the difference. */
  lemma {:induction false} SumUpdate(xs: seq<int>, i: nat, v: int)
    requires i < |xs|
    ensures Sum(xs[i := v]) == Sum(xs) - xs[i] + v
    decreases |xs|
  {
    if i == 0 {
      assert xs[i := v][1..] == xs[1..];
    } else {
      assert xs[i := v][1..] == xs[1..][i - 1 := v];
      SumUpdate(xs[1..], i - 1, v);
    }
  }

  function RunsColumn(bs: seq<BattingEntry>): (col: seq<int>)
    ensures |col| == |bs| && forall i :: 0 <= i < |bs| ==> col[i] == bs[i].runs
  {
    seq(|bs|, i requires 0 <= i < |bs| => bs[i].runs)
  }

  function BallsFacedColumn(bs: seq<BattingEntry>): (col: seq<int>)
    ensures |col| == |bs| && forall i :: 0 <= i < |bs| ==> col[i] == bs[i].ballsFaced
  {
    seq(|bs|, i requires 0 <= i < |bs| => bs[i].ballsFaced)
  }

  function ConcededColumn(ws: seq<BowlingEntry>): (col: seq<int>)
    ensures |col| == |ws| && forall i :: 0 <= i < |ws| ==> col[i] == ws[i].runsConceded
  {
    seq(|ws|, i requires 0 <= i < |ws| => ws[i].runsConceded)
  }

  function WicketsColumn(ws: seq<BowlingEntry>): (col: seq<int>)
    ensures |col| == |ws| && forall i :: 0 <= i < |ws| ==> col[i] == ws[i].wickets
  {
    seq(|ws|, i requires 0 <= i < |ws| => ws[i].wickets)
  }

  /** The current batsmen without the one who is out, in their order. */
  function WithoutPlayer(ps: seq<PlayerRef>, id: string): (r: seq<PlayerRef>)
    ensures |r| <= |ps|
    ensures forall p | p in r :: p in ps && p.playerId != id
    ensures forall p | p in ps && p.playerId != id :: p in r
    decreases |ps|
  {
    if ps == [] then []
    else if ps[0].playerId == id then WithoutPlayer(ps[1..], id)
    else [ps[0]] + WithoutPlayer(ps[1..], id)
  }

  /** The removal is an order-preserving filter: a concatenation is filtered part by
      part, so the kept players stay in their order and none is repeated
      (`WithoutPlayerOne` gives the one-player case). */
  lemma {:induction false} WithoutPlayerFilters(a: seq<PlayerRef>, b: seq<PlayerRef>, id: string)
    ensures WithoutPlayer(a + b, id) == WithoutPlayer(a, id) + WithoutPlayer(b, id)
    decreases |a|
  {
    if a == [] {
      assert a + b == b;
    } else {
      assert (a + b)[0] == a[0];
      assert (a + b)[1..] == a[1..] + b;
      WithoutPlayerFilters(a[1..], b, id);
    }
  }

  /** On one player the removal keeps them exactly when their id differs. */
  lemma WithoutPlayerOne(p: PlayerRef, id: string)
    ensures WithoutPlayer([p], id) == (if p.playerId == id then [] else [p])
  {
    assert [p][1..] == [];
  }

  /** Removing a batsman keeps the current batsmen's ids distinct. */
  lemma {:induction false} WithoutPlayerKeepsDistinct(ps: seq<PlayerRef>, id: string)
    ensures Distinct(RefIds(ps)) ==> Distinct(RefIds(WithoutPlayer(ps, id)))
    decreases |ps|
  {
    if ps != [] && Distinct(RefIds(ps)) {
      DistinctRefsTail(ps);
      WithoutPlayerKeepsDistinct(ps[1..], id);
      WithoutPlayerStep(ps, id);
    }
  }

  /** The players after the first have distinct ids, none of them the first's. */
  lemma DistinctRefsTail(ps: seq<PlayerRef>)
    requires ps != [] && Distinct(RefIds(ps))
    ensures Distinct(RefIds(ps[1..])) && ps[0].playerId !in RefIds(ps[1..])
  {
    assert RefIds(ps) == [ps[0].playerId] + RefIds(ps[1..]);
    DistinctTail(RefIds(ps[1..]), ps[0].playerId);
  }

  /** One step of the removal: the first player, when kept, goes in front of a list
      that does not hold their id. */
  lemma WithoutPlayerStep(ps: seq<PlayerRef>, id: string)
    requires ps != [] && ps[0].playerId !in RefIds(ps[1..])
    requires Distinct(RefIds(WithoutPlayer(ps[1..], id)))
    ensures Distinct(RefIds(WithoutPlayer(ps, id)))
  {
    var rest := WithoutPlayer(ps[1..], id);
    if ps[0].playerId != id {
      WithoutPlayerKeepsFirst(ps, id);
      WithoutPlayerIdsFromList(ps[1..], id, ps[0].playerId);
      DistinctPrepend(RefIds(rest), ps[0].playerId);
    } else {
      assert WithoutPlayer(ps, id) == rest;
    }
  }

  /** A first player whose id differs stays first, ahead of the rest's removal. */
  lemma WithoutPlayerKeepsFirst(ps: seq<PlayerRef>, id: string)
    requires ps != [] && ps[0].playerId != id
    ensures RefIds(WithoutPlayer(ps, id)) == [ps[0].playerId] + RefIds(WithoutPlayer(ps[1..], id))
  {
    var rest := WithoutPlayer(ps[1..], id);
    assert WithoutPlayer(ps, id) == [ps[0]] + rest;
    RefIdsPrepend(ps[0], rest);
  }

  /** The ids of a list with a player in front. */
  lemma RefIdsPrepend(p: PlayerRef, ps: seq<PlayerRef>)
    ensures RefIds([p] + ps) == [p.playerId] + RefIds(ps)
  {
    assert |RefIds([p] + ps)| == |[p.playerId] + RefIds(ps)|;
    forall k | 0 <= k < |RefIds([p] + ps)|
      ensures RefIds([p] + ps)[k] == ([p.playerId] + RefIds(ps))[k]
    {
      if k > 0 {
        assert ([p] + ps)[k] == ps[k - 1];
      }
    }
  }

  /** An id absent from the list is absent after a removal too. */
  lemma WithoutPlayerIdsFromList(ps: seq<PlayerRef>, id: string, x: string)
    requires x !in RefIds(ps)
    ensures x !in RefIds(WithoutPlayer(ps, id))
  {
    var r := WithoutPlayer(ps, id);
    forall k | 0 <= k < |r|
      ensures RefIds(r)[k] != x
    {
      assert r[k] in ps;
    }
  }

  // ---------------------------------------------------------------------------
  // What an innings update keeps true

  /** What the update keeps true of an innings: at most two current batsmen, no player
      twice in the batting table, the bowling table or the current batsmen, every current
      batsman in the batting table, and the current bowler in the bowling table. */
  predicate Consistent(s: InningsStats) {
    |s.currentBatsmen| <= 2
    && Distinct(RefIds(s.currentBatsmen))
    && Distinct(BattingIds(s.batting))
    && Distinct(BowlingIds(s.bowling))
    && (forall p | p in s.currentBatsmen :: p.playerId in BattingIds(s.batting))
    && (s.currentBowler.Some? ==> s.currentBowler.value.playerId in BowlingIds(s.bowling))
  }

  /** A player given with both an id and a name. */
  predicate Named(p: Option<PlayerRef>) {
    p.Some? && Given(p.value.playerId) && Given(p.value.playerName)
  }

  /** Totals are overwritten only by the ones sent as numbers. */
  function WithTotals(s: InningsStats, score: Option<int>, wickets: Option<int>, overs: Option<real>): (r: InningsStats)
    ensures r.batting == s.batting && r.bowling == s.bowling
    ensures r.currentBatsmen == s.currentBatsmen && r.currentBowler == s.currentBowler
    ensures r.totalRuns == score.GetOr(s.totalRuns)
    ensures r.totalWickets == wickets.GetOr(s.totalWickets)
    ensures r.overs == overs.GetOr(s.overs)
    ensures Consistent(s) ==> Consistent(r)
    ensures ValidStats(s) ==> ValidStats(r)
  {
    s.(totalRuns := score.GetOr(s.totalRuns),
       totalWickets := wickets.GetOr(s.totalWickets),
       overs := overs.GetOr(s.overs))
  }

  /** A new batsman comes in only when not already in and fewer than two are in; they
      get a fresh batting line unless they already have one. */
  function WithNewBatsman(s: InningsStats, newBatsman: Option<PlayerRef>): (r: InningsStats)
    ensures r.bowling == s.bowling && r.currentBowler == s.currentBowler
    ensures r.totalRuns == s.totalRuns && r.totalWickets == s.totalWickets && r.overs == s.overs
    ensures |s.currentBatsmen| <= 2 ==> |r.currentBatsmen| <= 2
    ensures Consistent(s) ==> Consistent(r)
    ensures ValidStats(s) ==> ValidStats(r)
    ensures r.currentBatsmen != s.currentBatsmen <==>
      Named(newBatsman) && newBatsman.value.playerId !in RefIds(s.currentBatsmen) && |s.currentBatsmen| < 2
    ensures r.currentBatsmen != s.currentBatsmen ==> r.currentBatsmen == s.currentBatsmen + [newBatsman.value]
    ensures r.batting == s.batting
      || (r.currentBatsmen != s.currentBatsmen && newBatsman.value.playerId !in BattingIds(s.batting)
          && r.batting == s.batting + [NewBattingEntry(newBatsman.value)])
    ensures Named(newBatsman) && newBatsman.value.playerId !in RefIds(s.currentBatsmen)
      && |s.currentBatsmen| < 2 && newBatsman.value.playerId !in BattingIds(s.batting)
      ==> r.batting == s.batting + [NewBattingEntry(newBatsman.value)]
  {
    if Named(newBatsman) then
      var nb := newBatsman.value;
      if nb.playerId !in RefIds(s.currentBatsmen) && |s.currentBatsmen| < 2 then
        assert RefIds(s.currentBatsmen + [nb]) == RefIds(s.currentBatsmen) + [nb.playerId];
        assert |s.currentBatsmen + [nb]| > |s.currentBatsmen|;
        if nb.playerId !in BattingIds(s.batting) then
          assert BattingIds(s.batting + [NewBattingEntry(nb)]) == BattingIds(s.batting) + [nb.playerId];
          s.(currentBatsmen := s.currentBatsmen + [nb], batting := s.batting + [NewBattingEntry(nb)])
        else
          s.(currentBatsmen := s.currentBatsmen + [nb])
      else s
    else s
  }

  /** A named new bowler always becomes the current bowler, and gets a fresh bowling line
      unless they already have one. */
  function WithNewBowler(s: InningsStats, newBowler: Option<PlayerRef>): (r: InningsStats)
    ensures r.batting == s.batting && r.currentBatsmen == s.currentBatsmen
    ensures r.totalRuns == s.totalRuns && r.totalWickets == s.totalWickets && r.overs == s.overs
    ensures Consistent(s) ==> Consistent(r)
    ensures ValidStats(s) ==> ValidStats(r)
    ensures Named(newBowler) ==> r.currentBowler == newBowler
    ensures !Named(newBowler) ==> r == s
    ensures r.bowling == s.bowling
      || (Named(newBowler) && newBowler.value.playerId !in BowlingIds(s.bowling)
          && r.bowling == s.bowling + [NewBowlingEntry(newBowler.value)])
    ensures Named(newBowler) && newBowler.value.playerId !in BowlingIds(s.bowling)
      ==> r.bowling == s.bowling + [NewBowlingEntry(newBowler.value)]
  {
    if Named(newBowler) then
      var nb := newBowler.value;
      if nb.playerId !in BowlingIds(s.bowling) then
        assert BowlingIds(s.bowling + [NewBowlingEntry(nb)]) == BowlingIds(s.bowling) + [nb.playerId];
        s.(currentBowler := Some(nb), bowling := s.bowling + [NewBowlingEntry(nb)])
      else
        s.(currentBowler := Some(nb))
    else s
  }

  /** One ball as the scorer sends it. Runs and extras default to 0 when not sent. */
  datatype BallData = BallData(
    batsmanId: string,
    runsScored: Option<int>,
    isBoundary: bool,
    isSix: bool,
    isWicket: bool,
    bowlerId: string,
    extras: Option<int>)

  /** The batting line after facing a ball. */
  function FacedBall(b: BattingEntry, ball: BallData): BattingEntry {
    b.(runs := b.runs + ball.runsScored.GetOr(0),
       ballsFaced := b.ballsFaced + 1,
       fours := if ball.isBoundary then b.fours + 1 else b.fours,
       sixes := if ball.isSix then b.sixes + 1 else b.sixes,
       out := if ball.isWicket then true else b.out)
  }

  /** The bowling line after bowling a ball. */
  function BowledBall(w: BowlingEntry, ball: BallData): BowlingEntry {
    w.(runsConceded := w.runsConceded + ball.runsScored.GetOr(0) + ball.extras.GetOr(0),
       wickets := if ball.isWicket then w.wickets + 1 else w.wickets,
       overs := w.overs + 1.0 / 6.0)
  }

  /** The batsman's side of a ball: their line (found by id) is updated, and on a wicket
      they leave the crease. An id with no line leaves the batting side alone. */
  function BatsmanFacesBall(s: InningsStats, ball: BallData): (r: InningsStats)
    ensures r.bowling == s.bowling && r.currentBowler == s.currentBowler
    ensures r.totalRuns == s.totalRuns && r.totalWickets == s.totalWickets && r.overs == s.overs
    ensures BattingIds(r.batting) == BattingIds(s.batting)
    ensures Consistent(s) ==> Consistent(r)
    ensures ValidStats(s) ==> ValidStats(r)
    ensures var i := FirstIndexOf(BattingIds(s.batting), ball.batsmanId);
      && (i.None? ==> r.batting == s.batting && r.currentBatsmen == s.currentBatsmen)
      && (i.Some? ==> r.batting == s.batting[i.value := FacedBall(s.batting[i.value], ball)])
      && (i.Some? && ball.isWicket ==> r.currentBatsmen == WithoutPlayer(s.currentBatsmen, ball.batsmanId))
      && (!ball.isWicket ==> r.currentBatsmen == s.currentBatsmen)
  {
    match FirstIndexOf(BattingIds(s.batting), ball.batsmanId)
    case None => s
    case Some(i) =>
      var batting := s.batting[i := FacedBall(s.batting[i], ball)];
      assert BattingIds(batting) == BattingIds(s.batting);
      if ball.isWicket then
        WithoutPlayerKeepsDistinct(s.currentBatsmen, ball.batsmanId);
        s.(batting := batting, currentBatsmen := WithoutPlayer(s.currentBatsmen, ball.batsmanId))
      else s.(batting := batting)
  }

  /** The bowler's side of a ball: their line (found by id) is updated. An id with no
      line leaves the bowling side alone. */
  function BowlerBowlsBall(s: InningsStats, ball: BallData): (r: InningsStats)
    ensures r.batting == s.batting && r.currentBatsmen == s.currentBatsmen && r.currentBowler == s.currentBowler
    ensures r.totalRuns == s.totalRuns && r.totalWickets == s.totalWickets && r.overs == s.overs
    ensures BowlingIds(r.bowling) == BowlingIds(s.bowling)
    ensures Consistent(s) ==> Consistent(r)
    ensures ValidStats(s) ==> ValidStats(r)
    ensures var j := FirstIndexOf(BowlingIds(s.bowling), ball.bowlerId);
      && (j.None? ==> r.bowling == s.bowling)
      && (j.Some? ==> r.bowling == s.bowling[j.value := BowledBall(s.bowling[j.value], ball)])
  {
    match FirstIndexOf(BowlingIds(s.bowling), ball.bowlerId)
    case None => s
    case Some(j) =>
      var bowling := s.bowling[j := BowledBall(s.bowling[j], ball)];
      assert BowlingIds(bowling) == BowlingIds(s.bowling);
      s.(bowling := bowling)
  }

  /** One ball: first the batsman's side, then the bowler's. */
  function WithBall(s: InningsStats, ball: BallData): (r: InningsStats)
    ensures r.totalRuns == s.totalRuns && r.totalWickets == s.totalWickets && r.overs == s.overs
    ensures r.currentBowler == s.currentBowler
    ensures BattingIds(r.batting) == BattingIds(s.batting) && BowlingIds(r.bowling) == BowlingIds(s.bowling)
    ensures Consistent(s) ==> Consistent(r)
    ensures ValidStats(s) ==> ValidStats(r)
  {
    BowlerBowlsBall(BatsmanFacesBall(s, ball), ball)
  }

  /** A ball adds its runs to the batting table's total and one ball faced when the
      batsman has a line, and adds runs plus extras to the runs conceded, and the wicket
      to the bowlers' wickets, when the bowler has a line. */
  lemma BallTotals(s: InningsStats, ball: BallData)
    ensures var r := WithBall(s, ball);
      var batted := ball.batsmanId in BattingIds(s.batting);
      var bowled := ball.bowlerId in BowlingIds(s.bowling);
      && Sum(RunsColumn(r.batting)) == Sum(RunsColumn(s.batting)) + (if batted then ball.runsScored.GetOr(0) else 0)
      && Sum(BallsFacedColumn(r.batting)) == Sum(BallsFacedColumn(s.batting)) + (if batted then 1 else 0)
      && Sum(ConcededColumn(r.bowling)) == Sum(ConcededColumn(s.bowling))
           + (if bowled then ball.runsScored.GetOr(0) + ball.extras.GetOr(0) else 0)
      && Sum(WicketsColumn(r.bowling)) == Sum(WicketsColumn(s.bowling)) + (if bowled && ball.isWicket then 1 else 0)
  {
    var r := WithBall(s, ball);
    var i := FirstIndexOf(BattingIds(s.batting), ball.batsmanId);
    if i.Some? {
      var b := FacedBall(s.batting[i.value], ball);
      assert RunsColumn(r.batting) == RunsColumn(s.batting)[i.value := b.runs];
      assert BallsFacedColumn(r.batting) == BallsFacedColumn(s.batting)[i.value := b.ballsFaced];
      SumUpdate(RunsColumn(s.batting), i.value, b.runs);
      SumUpdate(BallsFacedColumn(s.batting), i.value, b.ballsFaced);
    } else {
      assert r.batting == s.batting;
    }
    var j := FirstIndexOf(BowlingIds(s.bowling), ball.bowlerId);
    if j.Some? {
      var w := BowledBall(s.bowling[j.value], ball);
      assert ConcededColumn(r.bowling) == ConcededColumn(s.bowling)[j.value := w.runsConceded];
      assert WicketsColumn(r.bowling) == WicketsColumn(s.bowling)[j.value := w.wickets];
      SumUpdate(ConcededColumn(s.bowling), j.value, w.runsConceded);
      SumUpdate(WicketsColumn(s.bowling), j.value, w.wickets);
    } else {
      assert r.bowling == s.bowling;
    }
  }

  /** Everything a score update can carry; absent parts are `None`. */
  datatype ScoreUpdate = ScoreUpdate(
    score: Option<int>,
    wickets: Option<int>,
    overs: Option<real>,
    newBatsman: Option<PlayerRef>,
    newBowler: Option<PlayerRef>,
    ballData: Option<BallData>)

  /** The innings after an update: totals, then the new batsman, then the new bowler,
      then the ball. */
  function AfterUpdate(s: InningsStats, upd: ScoreUpdate): (r: InningsStats)
    ensures Consistent(s) ==> Consistent(r)
    ensures ValidStats(s) ==> ValidStats(r)
    ensures |s.currentBatsmen| <= 2 ==> |r.currentBatsmen| <= 2
  {
    var t := WithTotals(s, upd.score, upd.wickets, upd.overs);
    var b := WithNewBatsman(t, upd.newBatsman);
    var w := WithNewBowler(b, upd.newBowler);
    if upd.ballData.Some? then WithBall(w, upd.ballData.value) else w
  }

  // ---------------------------------------------------------------------------
  // updateLiveScore

  /** Overwrites the totals that were sent. */
  method ApplyTotals(innings: Innings, score: Option<int>, wickets: Option<int>, overs: Option<real>)
    modifies innings
    ensures innings.Stats() == WithTotals(old(innings.Stats()), score, wickets, overs)
  {
    if score.Some? { innings.totalRuns := score.value; }
    if wickets.Some? { innings.totalWickets := wickets.value; }
    if overs.Some? { innings.overs := overs.value; }
  }

  /** Brings a named new batsman in when there is room and they are not already in. */
  method AddBatsman(innings: Innings, newBatsman: Option<PlayerRef>)
    modifies innings
    ensures innings.Stats() == WithNewBatsman(old(innings.Stats()), newBatsman)
  {
    if Named(newBatsman) {
      var nb := newBatsman.value;
      var alreadyPresent := nb.playerId in RefIds(innings.currentBatsmen);
      if !alreadyPresent && |innings.currentBatsmen| < 2 {
        innings.currentBatsmen := innings.currentBatsmen + [nb];
        var existsInBatting := nb.playerId in BattingIds(innings.batting);
        if !existsInBatting {
          innings.batting := innings.batting + [NewBattingEntry(nb)];
        }
      }
    }
  }

  /** Makes a named new bowler the current bowler, with a bowling line. */
  method ChangeBowler(innings: Innings, newBowler: Option<PlayerRef>)
    modifies innings
    ensures innings.Stats() == WithNewBowler(old(innings.Stats()), newBowler)
  {
    if Named(newBowler) {
      var nb := newBowler.value;
      innings.currentBowler := Some(nb);
      var existsInBowling := nb.playerId in BowlingIds(innings.bowling);
      if !existsInBowling {
        innings.bowling := innings.bowling + [NewBowlingEntry(nb)];
      }
    }
  }

  /** The batsman's side of a ball, on their line found by id. */
  method FaceBall(innings: Innings, ball: BallData)
    modifies innings
    ensures innings.Stats() == BatsmanFacesBall(old(innings.Stats()), ball)
  {
    var batsmanAt := FirstIndexOf(BattingIds(innings.batting), ball.batsmanId);
    if batsmanAt.Some? {
      var i := batsmanAt.value;
      var batsman := innings.batting[i];
      batsman := batsman.(runs := batsman.runs + ball.runsScored.GetOr(0));
      batsman := batsman.(ballsFaced := batsman.ballsFaced + 1);
      if ball.isBoundary { batsman := batsman.(fours := batsman.fours + 1); }
      if ball.isSix { batsman := batsman.(sixes := batsman.sixes + 1); }
      if ball.isWicket {
        batsman := batsman.(out := true);
        innings.currentBatsmen := WithoutPlayer(innings.currentBatsmen, ball.batsmanId);
      }
      innings.batting := innings.batting[i := batsman];
    }
  }

  /** The bowler's side of a ball, on their line found by id. */
  method BowlBall(innings: Innings, ball: BallData)
    modifies innings
    ensures innings.Stats() == BowlerBowlsBall(old(innings.Stats()), ball)
  {
    var bowlerAt := FirstIndexOf(BowlingIds(innings.bowling), ball.bowlerId);
    if bowlerAt.Some? {
      var j := bowlerAt.value;
      var bowler := innings.bowling[j];
      bowler := bowler.(runsConceded := bowler.runsConceded + ball.runsScored.GetOr(0) + ball.extras.GetOr(0));
      if ball.isWicket { bowler := bowler.(wickets := bowler.wickets + 1); }
      bowler := bowler.(overs := bowler.overs + 1.0 / 6.0);
      innings.bowling := innings.bowling[j := bowler];
    }
  }

  /** Applies one score update, in place, to the innings being played (the first when
      the innings number is 1, the second otherwise); the other innings is untouched. */
  method UpdateLiveScore(m: Match?, upd: ScoreUpdate) returns (r: Outcome)
    requires m != null ==> m.Valid()
    modifies if m == null then {} else {m.firstInnings, m.secondInnings}
    ensures m == null ==> r == Failure(NotFound)
    ensures m != null ==> r == Success && m.Valid()
    ensures m != null ==>
      m.CurrentInnings().Stats() == AfterUpdate(old(m.CurrentInnings().Stats()), upd)
      && unchanged(m.OtherInnings())
    ensures m != null && old(Consistent(m.CurrentInnings().Stats())) ==> Consistent(m.CurrentInnings().Stats())
  {
    if m == null {
      return Failure(NotFound);
    }
    var innings := if m.currentInnings == 1 then m.firstInnings else m.secondInnings;
    ApplyTotals(innings, upd.score, upd.wickets, upd.overs);
    AddBatsman(innings, upd.newBatsman);
    ChangeBowler(innings, upd.newBowler);
    if upd.ballData.Some? {
      FaceBall(innings, upd.ballData.value);
      BowlBall(innings, upd.ballData.value);
    }
    r := Success;
  }

  // ---------------------------------------------------------------------------
  // createMatch

  datatype CreateMatchRequest = CreateMatchRequest(
    eventId: string,
    auctionId: string,
    team1Name: string,
    team1Id: string,
    team2Name: string,
    team2Id: string,
    matchno: Option<int>,
    matchTitle: string,
    matchType: Option<string>,
    startTime: Option<int>,
    endTime: Option<int>)

  predicate TeamsNamed(req: CreateMatchRequest) {
    Given(req.team1Name) && Given(req.team2Name) && Given(req.team1Id) && Given(req.team2Id)
  }

  /** The record a new match is created from. `team1Players` and `team2Players` are the
      rosters the auction service returned (`None` when that call failed). Saving fails
      (a server error) unless both rosters are non-empty and every required field is
      present and well-formed; the new match then starts in its first innings with both
      innings empty (the `Match` constructor). */
  function CreateMatch(req: CreateMatchRequest, team1Players: Option<seq<PlayerRef>>,
                       team2Players: Option<seq<PlayerRef>>): (r: Result<MatchInfo>)
    ensures !TeamsNamed(req) ==> r == Err(BadRequest)
    ensures TeamsNamed(req) && r.Err? ==> r.error == ServerError
    ensures TeamsNamed(req) && (team1Players.None? || team2Players.None?) ==> r.Err?
    ensures TeamsNamed(req) && team1Players.Some? && team2Players.Some? ==>
      (r.Ok? <==> (ValidMatchTeam(MatchTeam(req.team1Id, req.team1Name, team1Players.value))
                   && ValidMatchTeam(MatchTeam(req.team2Id, req.team2Name, team2Players.value))
                   && Given(req.eventId) && Given(req.matchTitle) && req.matchno.Some?
                   && (req.matchType.None? || ParseMatchType(req.matchType.value).Some?)))
    ensures r.Ok? ==> (
      && ValidMatchInfo(r.value)
      && team1Players.Some? && team2Players.Some?
      && r.value.teams == [MatchTeam(req.team1Id, req.team1Name, team1Players.value),
                           MatchTeam(req.team2Id, req.team2Name, team2Players.value)]
      && r.value.eventId == req.eventId && req.matchno == Some(r.value.matchno)
      && r.value.matchTitle == req.matchTitle
      && r.value.startTime == req.startTime && r.value.endTime == req.endTime
      && r.value.status == NotStarted
      && (req.matchType.None? ==> r.value.matchType == T20)
      && (req.matchType.Some? ==> MatchTypeName(r.value.matchType) == req.matchType.value))
  {
    if !TeamsNamed(req) then Err(BadRequest)
    else if team1Players.None? || team2Players.None? then Err(ServerError)
    else
      var teams := [MatchTeam(req.team1Id, req.team1Name, team1Players.value),
                    MatchTeam(req.team2Id, req.team2Name, team2Players.value)];
      var matchType := if req.matchType.None? then Some(DefaultMatchType) else ParseMatchType(req.matchType.value);
      if matchType.None? || req.matchno.None? then Err(ServerError)
      else
        var info := MatchInfo(req.eventId, req.matchno.value, req.matchTitle, matchType.value,
                              DefaultMatchStatus, req.startTime, req.endTime, teams);
        if ValidMatchInfo(info) then Ok(info) else Err(ServerError)
  }
}

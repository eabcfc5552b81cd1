# SportSync core in Dafny

SportSync is a sports-event platform split into services. This project models the
parts of it that carry logic of their own, and proves properties of them:

- **Live bidding** (`bid_cache.dfy`). Each auction's current bid lives in a key/value
  store under `auction:<id>`. A bid is committed by a compare-and-swap script. The
  script reads the stored bid (a missing record counts as 0). It refuses with 0 when
  that bid is not the one the bidder saw. Otherwise it writes the new bid, the bidder
  and a time stamp with a one-hour expiry, and answers 1. The store is a class with a
  map field, and one script run is one atomic step. Lemmas over any sequence of
  attempts show first-come-first-served (one winner per remembered price),
  monotone prices while records do not expire, and that auctions never disturb one
  another. In the store a record vanishes after an idle hour; it then reads as 0, and
  a bid that expects 0 is accepted at any price, so the price can fall back. The model
  keeps every record.
- **Auction roster** (`auction_model.dfy`, `auction_roster.dfy`). The auction document
  holds registered players and teams. Registrations arrive from the event service's
  message queue and are appended idempotently when they are handled one at a time.
  Finalising a sale marks the player sold and appends them to the team named in the
  request. The model proves that the team rosters hold exactly the sold players, so a
  player is never on two teams, again for requests that do not overlap (the queue
  consumer does not wait for one registration before starting the next).
  Creating an auction from the event service's answer, and looking a team up, are
  modelled as functions.
- **Cricket innings** (`match_model.dfy`, `live_score.dfy`). A match has two innings.
  Each innings has batting and bowling tables, totals, at most two current batsmen and
  a current bowler. A score update changes the innings being played in place: first
  the totals, then a new batsman, then a new bowler, then one ball. The update is
  proved equal to a step function on innings values. Those step functions keep the
  schema's validation and the table invariants: no duplicate lines, and current
  players have lines. Lemmas give the ball's effect on the tables' sums.
- **Event registration** (`event_model.dfy`, `event_registration.dfy`). A user
  registers as an owner or a player. The role is checked, then the user must not
  already be registered, then owners are capped at `maxTeams` and players at
  `maxTeams * maxPlayersPerTeam`. A pending participant is then appended. Listing the
  owners or players joins them with the user service's names, falling back to
  "Unknown". Creating an event validates the required fields and the category.

`common.dfy` holds the shared vocabulary: `Option`, `Result`, the HTTP error kinds
(400, 404 and 500), JavaScript truthiness of strings, and `find`.
`categories.dfy` holds the category enumeration shared by auctions and events.

Conventions used throughout:

- An absent, null or empty string field is the empty string. A string is "given" when
  it is non-empty, which is JavaScript truthiness.
- Absent numbers and dates are `None`.
- A database lookup is a parameter that holds the found document, or null.
- Answers of other services are parameters, and so are clocks and generated ids.
- An error answer is modelled by its status class only.
- A save that the schema would refuse is a 500. That matches the `catch` blocks and
  the async error handler.

## Model

| member | source | states |
|---|---|---|
| Common.FirstIndexOf | auction-service/src/controllers/auction.controller.js:209-212 | `find` by id: none exactly when the id is absent; otherwise the first position holding it |
| Categories.ParseCategory | auction-service/src/models/auction.model.js:4-10 | a category string is accepted exactly when it is one of the five enumerated names |
| Categories.CategoryName | event-service/src/models/event.model.js:5 | every category has an enumerated name, which parses back to the same category |
| Categories.NameOfParsed | event-service/src/controllers/event.controller.js:158-160 | an accepted category string is the stored category's name |
| AuctionModel.NewAuctionPlayer | auction-service/src/models/auction.model.js:24-44 | a new player record has team "N/A", final bid 0, status available and inactive |
| AuctionModel.Auction.constructor | auction-service/src/models/auction.model.js:116-131 | a new auction has no players or teams, bid 0 and no bidder |
| BidCache.AuctionKey | auction-service/src/utils/redisLua.js:67 | the key is the prefix `auction:` followed by exactly the auction id |
| BidCache.AuctionKeyInjective | auction-service/src/utils/redisLua.js:67 | two auctions share a key exactly when they are the same auction |
| BidCache.StoredBid | auction-service/src/utils/redisLua.js:37-44 | a missing record reads as bid 0, a present one as its stored bid |
| BidCache.CompareAndSwap | auction-service/src/utils/redisLua.js:30-64 | answers 1 exactly when the stored bid equals the expected bid; on 0 the store is unchanged; on 1 the key holds the new bid, bidder, time stamp and a 3600-second expiry; other keys are untouched |
| BidCache.BidStore.RunBidScript | auction-service/src/utils/redisLua.js:37-63 | the in-place script run leaves the store and answer that `CompareAndSwap` describes |
| BidCache.BidStore.ExecuteAtomicBid | auction-service/src/utils/redisLua.js:66-82 | commits under the auction's own key with the same 0/1 rule; records of other auctions keep their values |
| BidCache.BidStore.SameExpectedBidRace | auction-service/src/utils/redisLua.js:46-49 | two bidders who saw the same price and propose the same new price: the first wins, the second is refused and leaves the first's record |
| BidCache.RunAttempts | auction-service/src/utils/redisLua.js:46-63 | attempts committed one after another each get one answer, and every answer is 0 (refused) or 1 (accepted) |
| BidCache.OtherAuctionsUntouched | auction-service/src/utils/redisLua.js:61 | any run of attempts on other auctions leaves an auction's record exactly as it was |
| BidCache.SingleWinnerPerPrice | auction-service/src/utils/redisLua.js:46-49 | among attempts on one auction that all saw price c and propose another price, at most one wins, and none once the stored price is no longer c |
| BidCache.PriceNeverDecreases | auction-service/src/utils/redisLua.js:46-61 | when every attempt on the auction proposes more than it saw and records do not expire, the stored price never falls, and rises strictly once an attempt wins |
| AuctionRoster.SoldIdsAppendAvailable | auction-service/src/controllers/auction.controller.js:146-161 | appending an available player adds no sold id |
| AuctionRoster.SoldIdsSell | auction-service/src/controllers/auction.controller.js:218-222 | marking one available record sold adds exactly its id to the sold ids |
| AuctionRoster.RosteredIdsAppendEmpty | auction-service/src/controllers/auction.controller.js:171-184 | appending a team with an empty roster adds no rostered id |
| AuctionRoster.RosteredIdsAddEntry | auction-service/src/controllers/auction.controller.js:229-232 | pushing one entry onto one team's roster adds exactly that id to the rostered ids |
| AuctionRoster.SoldAtMostOnce | auction-service/src/controllers/auction.controller.js:155-161 | with unique player ids, an id is sold at most once, and never when it is not registered |
| AuctionRoster.OnAtMostOneRoster | auction-service/src/controllers/auction.controller.js:214-232 | in a consistent auction no player appears twice across all rosters |
| AuctionRoster.CreateAuction | auction-service/src/controllers/auction.controller.js:6-46 | 400 without an event id; 500 when fetching the event fails, which includes an unknown event id (the event service's 404 and an empty body both become 500 in the fetch helper, auction-service/src/cross-services/auction.cross-service.js:15-22); 404 only when the event service answers successfully with a body lacking the success flag or the event; otherwise the record copies the event's id, category, name and description and the request's date, time and location, and it is 500 exactly when a required field is missing or the category is not enumerated |
| AuctionRoster.GetTeamById | auction-service/src/controllers/auction.controller.js:91-110 | 404 when the auction is missing; otherwise found exactly when some team has the id, and the team found is the first in the list with that id, as `find` returns |
| AuctionRoster.AddPlayerOrTeamToAuction | auction-service/src/controllers/auction.controller.js:133-192 | 400 on a missing field; 404 without an auction; a player is appended with the defaults unless the id is present; an owner needs a team name and gets a new empty team unless they own one; other roles are 400; any failure changes nothing; bid fields untouched; consistency and validity are kept |
| AuctionRoster.RegistrationIsIdempotent | auction-service/src/controllers/auction.controller.js:155-182 | delivering the same registration twice changes the auction once |
| AuctionRoster.SoldKeepsValid | auction-service/src/controllers/auction.controller.js:219-222 | the sold record keeps every player record valid |
| AuctionRoster.RosterEntryKeepsValid | auction-service/src/controllers/auction.controller.js:229-232 | the roster entry keeps every team valid |
| AuctionRoster.SaleKeepsInvariants | auction-service/src/controllers/auction.controller.js:218-233 | selling an unsold player to a team keeps every record valid, leaves the player and owner ids as they were, and keeps the rosters equal to the sold players |
| AuctionRoster.FinalizePlayerBid | auction-service/src/controllers/auction.controller.js:195-247 | in source order: 400 on a missing field, 404 without an auction, 404 for an unknown player, 400 if already sold, 404 for an unknown team name; otherwise the first matching player is sold and pushed onto the first team with that name; any failure changes nothing; consistency is kept |
| AuctionRoster.FinalizeTwiceRefused | auction-service/src/controllers/auction.controller.js:214-216 | once a player is sold, finalising that player again is refused with 400 |
| MatchModel.ParseMatchType | live-score-service/src/models/match.model.js:86-90 | a match type is accepted exactly when it is T20, ODI or Test |
| MatchModel.MatchTypeName | live-score-service/src/models/match.model.js:86-90 | each match type's stored name parses back to it |
| MatchModel.NewBattingEntry | live-score-service/src/models/match.model.js:33-43 | a new batting line has zero runs, balls, fours and sixes and is not out |
| MatchModel.NewBowlingEntry | live-score-service/src/models/match.model.js:44-53 | a new bowling line has zero overs, maidens, runs conceded and wickets |
| MatchModel.Innings.constructor | live-score-service/src/models/match.model.js:54-67 | a new innings has empty tables, zero totals, no batsmen and no bowler |
| MatchModel.Match.constructor | live-score-service/src/models/match.model.js:105-117 | a new match is in its first innings with two separate empty innings |
| LiveScore.WithoutPlayer | live-score-service/src/controllers/liveScore.controller.js:134 | removing the dismissed batsman keeps every other current batsman and adds nobody |
| LiveScore.WithoutPlayerFilters | live-score-service/src/controllers/liveScore.controller.js:134 | the removal is an order-preserving filter: a concatenation is filtered part by part |
| LiveScore.WithoutPlayerOne | live-score-service/src/controllers/liveScore.controller.js:134 | one player is kept exactly when their id differs from the dismissed one |
| LiveScore.WithoutPlayerKeepsDistinct | live-score-service/src/controllers/liveScore.controller.js:134 | removing a batsman from current batsmen whose ids are distinct keeps them distinct |
| LiveScore.WithTotals | live-score-service/src/controllers/liveScore.controller.js:80-82 | each total becomes the value sent when one is sent and keeps its old value otherwise; the tables and current players stay; the invariants are kept |
| LiveScore.WithNewBatsman | live-score-service/src/controllers/liveScore.controller.js:85-102 | a named batsman comes in exactly when not already in and fewer than two are in, and then gets a fresh line exactly when they have none; at most two batsmen remain |
| LiveScore.WithNewBowler | live-score-service/src/controllers/liveScore.controller.js:105-119 | a named bowler always becomes current and gets a fresh line exactly when they have none; otherwise nothing changes |
| LiveScore.BatsmanFacesBall | live-score-service/src/controllers/liveScore.controller.js:126-136 | the first line with the batsman's id gets the ball's runs, one ball faced, the boundary counts and the dismissal; a dismissed batsman leaves the crease; an unknown id changes nothing |
| LiveScore.BowlerBowlsBall | live-score-service/src/controllers/liveScore.controller.js:139-146 | the first line with the bowler's id gets runs plus extras conceded, the wicket and a sixth of an over; an unknown id changes nothing |
| LiveScore.WithBall | live-score-service/src/controllers/liveScore.controller.js:122-147 | a ball keeps the totals, the current bowler and the ids in both tables, and keeps the invariants |
| LiveScore.SumUpdate | live-score-service/src/controllers/liveScore.controller.js:128-141 | replacing one counter changes the column's sum by the difference |
| LiveScore.BallTotals | live-score-service/src/controllers/liveScore.controller.js:122-147 | a ball adds its runs and one ball faced to the batting sums, and runs plus extras and its wicket to the bowling sums, each only when that player has a line |
| LiveScore.AfterUpdate | live-score-service/src/controllers/liveScore.controller.js:79-147 | an update keeps the schema's validation and the table invariants of an innings |
| LiveScore.ApplyTotals | live-score-service/src/controllers/liveScore.controller.js:80-82 | the in-place totals update is `WithTotals` |
| LiveScore.AddBatsman | live-score-service/src/controllers/liveScore.controller.js:85-102 | the in-place batsman update is `WithNewBatsman` |
| LiveScore.ChangeBowler | live-score-service/src/controllers/liveScore.controller.js:105-119 | the in-place bowler update is `WithNewBowler` |
| LiveScore.FaceBall | live-score-service/src/controllers/liveScore.controller.js:126-136 | the in-place batting update is `BatsmanFacesBall` |
| LiveScore.BowlBall | live-score-service/src/controllers/liveScore.controller.js:139-146 | the in-place bowling update is `BowlerBowlsBall` |
| LiveScore.UpdateLiveScore | live-score-service/src/controllers/liveScore.controller.js:61-149 | 404 without a match; otherwise the first innings is updated when the innings number is 1 and the second otherwise, the result is `AfterUpdate`, the other innings is untouched, and the match stays valid |
| LiveScore.CreateMatch | live-score-service/src/controllers/liveScore.controller.js:6-57 | 400 unless both team names and ids are given; 500 when a roster could not be fetched; otherwise it succeeds exactly when both rosters are non-empty with named players and the event id, title, number and match type are valid; the match holds the request's event id, number, title, start and end times and the two teams in order, type T20 by default, not started |
| EventModel.ParseRole | event-service/src/controllers/event.controller.js:13-15 | a role is accepted exactly when it is "player" or "owner" |
| EventModel.Event.constructor | event-service/src/models/event.model.js:7-50 | a new event has no participants |
| EventRegistration.FilterRole | event-service/src/controllers/event.controller.js:31-32 | the filtered list holds exactly the participants of that role, and no more than the whole list |
| EventRegistration.FilterRoleAppend | event-service/src/controllers/event.controller.js:49-54 | filtering after an append is filtering before it, plus the new participant when it has the role, so order is kept |
| EventRegistration.RolesPartition | event-service/src/controllers/event.controller.js:31-32 | owners and players together are all the participants |
| EventRegistration.Registration | event-service/src/controllers/event.controller.js:22-54 | 400 when the user is already registered or the role is full; otherwise one pending participant with the user, role and time is appended, unless the schema refuses an empty user id |
| EventRegistration.RegistrationKeepsIdsDistinct | event-service/src/controllers/event.controller.js:23-28 | registration keeps user ids unique |
| EventRegistration.RegistrationKeepsCaps | event-service/src/controllers/event.controller.js:34-46 | registration keeps owners within `maxTeams` and players within `maxTeams * maxPlayersPerTeam`, extends only its own role's list, at the end |
| EventRegistration.RegisterOnce | event-service/src/controllers/event.controller.js:23-28 | a user who registered is refused with 400 on any later registration, whatever the role |
| EventRegistration.RegisterForEvent | event-service/src/controllers/event.controller.js:8-61 | 400 for a bad role before the lookup, 404 without an event, then `Registration` on the stored list; failures change nothing; unique ids and caps are kept |
| EventRegistration.UserMapLookup | event-service/src/controllers/event.controller.js:83-86 | an id is in the name table exactly when some user has it, with the name of the last such user |
| EventRegistration.BuildUserMap | event-service/src/controllers/event.controller.js:83-86 | the loop builds the table `UserMapOf` describes |
| EventRegistration.DisplayName | event-service/src/controllers/event.controller.js:90 | the table's name when present and non-empty, otherwise "Unknown" |
| EventRegistration.Listing | event-service/src/controllers/event.controller.js:88-94 | one entry per participant of the role, in order, with their id, time, status, role and display name |
| EventRegistration.ListingNames | event-service/src/controllers/event.controller.js:122-133 | a listed participant is named after the last user with their id if that name is non-empty, and "Unknown" otherwise or when no user has the id |
| EventRegistration.ListingAfterRegistration | event-service/src/controllers/event.controller.js:49-54 | after a registration the role's listing gains one entry at the end and the other role's listing is unchanged |
| EventRegistration.ListByRole | event-service/src/controllers/event.controller.js:104-138 | 404 without an event, 500 when the user service did not return a list, otherwise the role's `Listing` |
| EventRegistration.CreateEvent | event-service/src/controllers/event.controller.js:143-176 | 400 when name, category, date, location, maxTeams or maxPlayersPerTeam is missing or zero, or the category is not enumerated; otherwise the event copies the request's fields and the creator |

## Left out

- The bid coordinator, the increment policy, cache priming, write-back and broadcast:
  the auction routes refer to `placeAutoBid`, but its code is not part of this model.
  `PriceNeverDecreases` states as a premise that every attempt on the auction bids
  above the price it saw.
- Store connection set-up and the script's argument encoding (`toString`, `tonumber`,
  `parseInt`, JSON encoding). Bids are integers. A stored record whose bid is not a
  number is not modelled.
- AuctionRoster.AddPlayerOrTeamToAuction, AuctionRoster.RegistrationIsIdempotent,
  AuctionRoster.FinalizePlayerBid, EventRegistration.RegisterForEvent: each request is
  one atomic step, so the duplicate checks, the caps and "never on two teams" hold only
  for requests that do not overlap. The queue consumer starts
  `addPlayerOrTeamToAuction` without waiting for it and acknowledges the message at once
  (auction-service/src/rabbitmq/rabbitmq.consumer.js:29-31), and every handler waits on
  the database between its lookup and its save, so two overlapping requests can both
  pass a duplicate or cap check. Interleaved requests are not modelled.
- BidCache.PriceNeverDecreases: holds only while records do not expire. The store drops
  a record after an idle hour; the script then reads 0 and accepts a bid that expects 0
  at any price (auction-service/src/utils/redisLua.js:37-44 and 61). Expiry is not
  modelled.
- Clocks and generated ids. `os.time()`, `new Date()` and new document ids are
  parameters. The one-hour expiry is a stored value; records never expire here.
- BidCache.CompareAndSwap: the time stamp is whatever the caller passes, not the
  store's clock.
- Floating point. A bowler's `overs += 1/6` is exact rational arithmetic here, and
  runs and wickets are unbounded integers. Rounding of repeated sixths is not modelled.
- Persistence and side effects. Saves, finds, the live-score cache write and the
  socket broadcast are left out. A found document is the object passed in, and a
  successful operation leaves it in its final state.
- In `finalizePlayerBid` the loaded player is changed before the team lookup. When the
  team is then not found, nothing is saved. The model's object is the stored document,
  so that failure leaves it unchanged.
- Network calls to the event, auction and user services are inputs: the event's
  details, a team's roster and the list of users.
- The event schema declares no `role`, `maxTeams` or `maxPlayersPerTeam`. With
  Mongoose's strict mode those fields would not be stored. The model follows the
  controller, which writes and reads them as stored fields.
- Error message texts; only the status class is modelled.
- JavaScript values of the wrong type in request bodies (a string where a number is
  expected, for example). User ids that collide with built-in object keys such as
  `constructor` in the name table are not modelled either.
- EventRegistration.CreateEvent: maxTeams and maxPlayersPerTeam are integers; a
  fractional, negative or non-numeric value is not modelled.
- The thin read and write handlers are left out: `getAuctionById`, `getAllAuctions`,
  `getAllPlayers`, `getAllTeams`, `getLiveScore`, `getAllEvents`, `getEventById`,
  `updateEvent` and `deleteEvent`. Each is a single lookup or a single database call.
- The auction-team and schema `_id` generation: a new team's id is a parameter.
- Authentication, payments, messaging transport, sockets and the retrieval service
  are outside this model.

/** The live-bidding fast path: a key/value store holding, per auction, the current
    bid and its bidder, and the compare-and-swap script that commits a bid only when
    the stored bid still equals the bid the caller read. The script runs as one
    indivisible step of the store, so each call is one atomic transition here. */
module BidCache {
  import opened Common

  /** The record stored under an auction's key. */
  datatype BidRecord = BidRecord(
    currentBid: int,
    currentBidderId: string,
    currentBidderName: string,
    timestamp: int,
    ttlSeconds: int)

  /** Expiry, in seconds, set on every committed record. */
  const BidTtlSeconds: int := 3600

  const KeyPrefix: string := "auction:"

  /** The store key of an auction's live bid. */
  function AuctionKey(auctionId: string): (key: string)
    ensures |key| == |KeyPrefix| + |auctionId|
    ensures key[..|KeyPrefix|] == KeyPrefix && key[|KeyPrefix|..] == auctionId
  {
    KeyPrefix + auctionId
  }

  /** Distinct auctions never share a key. */
  lemma AuctionKeyInjective(a: string, b: string)
    ensures AuctionKey(a) == AuctionKey(b) <==> a == b
  {
  }

  /** The bid the script compares against: the stored one, or 0 when the key is missing. */
  function StoredBid(store: map<string, BidRecord>, key: string): (bid: int)
    ensures key !in store ==> bid == 0
    ensures key in store ==> bid == store[key].currentBid
  {
    if key in store then store[key].currentBid else 0
  }

  /** The script's effect as a function of the store before it: the new store and the
      script's answer. It answers 0 or 1, and 1 exactly when the stored bid equals the
      expected one; a refused call leaves the store as it was; an accepted call writes
      the new bid, bidder and timestamp with a one-hour expiry under the one key and
      leaves every other key as it was. */
  function CompareAndSwap(store: map<string, BidRecord>, key: string, newBid: int,
                          ownerId: string, ownerName: string, expectedBid: int, now: int)
    : (out: (map<string, BidRecord>, int))
    ensures out.1 == 0 || out.1 == 1
    ensures out.1 == 1 <==> StoredBid(store, key) == expectedBid
    ensures out.1 == 0 ==> out.0 == store
    ensures out.1 == 1 ==> key in out.0 && out.0[key] == BidRecord(newBid, ownerId, ownerName, now, 3600)
    ensures out.1 == 1 ==> StoredBid(out.0, key) == newBid
    ensures out.0.Keys == store.Keys + (if out.1 == 1 then {key} else {})
    ensures forall k | k in store && k != key :: out.0[k] == store[k]
  {
    if StoredBid(store, key) != expectedBid then (store, 0)
    else (store[key := BidRecord(newBid, ownerId, ownerName, now, BidTtlSeconds)], 1)
  }

  /** One bid attempt as the bid coordinator submits it. */
  datatype BidAttempt = BidAttempt(
    auctionId: string,
    newBid: int,
    ownerId: string,
    ownerName: string,
    expectedBid: int,
    now: int)

  /** The store after the attempts are committed one after another, and the
      script's answer to each. */
  function RunAttempts(store: map<string, BidRecord>, attempts: seq<BidAttempt>)
    : (out: (map<string, BidRecord>, seq<int>))
    ensures |out.1| == |attempts|
    ensures forall i | 0 <= i < |out.1| :: out.1[i] == 0 || out.1[i] == 1
    decreases |attempts|
  {
    if attempts == [] then (store, [])
    else
      var a := attempts[0];
      var (next, r) := CompareAndSwap(store, AuctionKey(a.auctionId), a.newBid, a.ownerId, a.ownerName, a.expectedBid, a.now);
      var (final, rs) := RunAttempts(next, attempts[1..]);
      (final, [r] + rs)
  }

  /** How many of the attempts on `auctionId` the script accepted. */
  function WinCount(attempts: seq<BidAttempt>, results: seq<int>, auctionId: string): nat
    requires |results| == |attempts|
    decreases |attempts|
  {
    if attempts == [] then 0
    else (if attempts[0].auctionId == auctionId && results[0] == 1 then 1 else 0)
         + WinCount(attempts[1..], results[1..], auctionId)
  }

  /** Attempts on other auctions never touch this auction's record. */
  lemma {:induction false} OtherAuctionsUntouched(store: map<string, BidRecord>, attempts: seq<BidAttempt>, auctionId: string)
    requires forall a | a in attempts :: a.auctionId != auctionId
    ensures var key := AuctionKey(auctionId);
      (key in RunAttempts(store, attempts).0 <==> key in store)
      && (key in store ==> RunAttempts(store, attempts).0[key] == store[key])
    decreases |attempts|
  {
    if attempts != [] {
      var a := attempts[0];
      AuctionKeyInjective(a.auctionId, auctionId);
      var (next, _) := CompareAndSwap(store, AuctionKey(a.auctionId), a.newBid, a.ownerId, a.ownerName, a.expectedBid, a.now);
      OtherAuctionsUntouched(next, attempts[1..], auctionId);
    }
  }

  /** First come, first served: among attempts on one auction that all remembered the
      price `c` and all propose a different price, at most one is accepted, whatever
      other auctions' attempts are interleaved with them; none is accepted once the
      stored price is no longer `c`. */
  lemma {:induction false} SingleWinnerPerPrice(store: map<string, BidRecord>, attempts: seq<BidAttempt>, auctionId: string, c: int)
    requires forall a | a in attempts && a.auctionId == auctionId :: a.expectedBid == c && a.newBid != c
    ensures var (_, results) := RunAttempts(store, attempts);
      WinCount(attempts, results, auctionId) <= 1
    ensures var (_, results) := RunAttempts(store, attempts);
      StoredBid(store, AuctionKey(auctionId)) != c ==> WinCount(attempts, results, auctionId) == 0
    decreases |attempts|
  {
    var key := AuctionKey(auctionId);
    if attempts != [] {
      var a := attempts[0];
      var (next, r) := CompareAndSwap(store, AuctionKey(a.auctionId), a.newBid, a.ownerId, a.ownerName, a.expectedBid, a.now);
      var (final, rs) := RunAttempts(next, attempts[1..]);
      assert RunAttempts(store, attempts) == (final, [r] + rs);
      assert ([r] + rs)[1..] == rs;
      SingleWinnerPerPrice(next, attempts[1..], auctionId, c);
      AuctionKeyInjective(a.auctionId, auctionId);
      if a.auctionId == auctionId && r == 1 {
        assert StoredBid(next, key) == a.newBid;
      }
    }
  }

  /** Monotonicity: when every attempt on the auction proposes more than the price it
      remembered (as the increment policy does), its stored price never decreases, and it
      rises strictly once any attempt on it is accepted; attempts on other auctions are
      unconstrained. This holds because the map keeps every
      record: the store itself drops a record after an idle hour, after which it reads as
      0 and a bid expecting 0 is accepted at any price, so there the price can fall. */
  lemma {:induction false} PriceNeverDecreases(store: map<string, BidRecord>, attempts: seq<BidAttempt>, auctionId: string)
    requires forall a | a in attempts && a.auctionId == auctionId :: a.newBid > a.expectedBid
    ensures var (final, results) := RunAttempts(store, attempts);
      var key := AuctionKey(auctionId);
      StoredBid(final, key) >= StoredBid(store, key)
      && (WinCount(attempts, results, auctionId) > 0 ==> StoredBid(final, key) > StoredBid(store, key))
    decreases |attempts|
  {
    var key := AuctionKey(auctionId);
    if attempts != [] {
      var a := attempts[0];
      var (next, r) := CompareAndSwap(store, AuctionKey(a.auctionId), a.newBid, a.ownerId, a.ownerName, a.expectedBid, a.now);
      var (final, rs) := RunAttempts(next, attempts[1..]);
      assert RunAttempts(store, attempts) == (final, [r] + rs);
      assert ([r] + rs)[1..] == rs;
      PriceNeverDecreases(next, attempts[1..], auctionId);
      AuctionKeyInjective(a.auctionId, auctionId);
      assert StoredBid(next, key) >= StoredBid(store, key);
    }
  }

  /** The store the script runs against. */
  class BidStore {
    var entries: map<string, BidRecord>

    constructor ()
      ensures entries == map[]
    {
      entries := map[];
    }

    /** The compare-and-swap script run against `key`: read the record (a missing record
        counts as bid 0), refuse with 0 if its bid is not the expected one, otherwise
        write the new bid, bidder and timestamp with a one-hour expiry and answer 1. */
    method RunBidScript(key: string, newBid: int, ownerId: string, ownerName: string,
                        expectedBid: int, now: int) returns (r: int)
      modifies this
      ensures (entries, r) == CompareAndSwap(old(entries), key, newBid, ownerId, ownerName, expectedBid, now)
      ensures r == 0 || r == 1
      ensures r == 1 <==> StoredBid(old(entries), key) == expectedBid
      ensures r == 0 ==> entries == old(entries)
      ensures r == 1 ==> entries == old(entries)[key := BidRecord(newBid, ownerId, ownerName, now, BidTtlSeconds)]
    {
      var currentBid := 0;
      if key in entries {
        currentBid := entries[key].currentBid;
      }
      if currentBid != expectedBid {
        return 0;
      }
      entries := entries[key := BidRecord(newBid, ownerId, ownerName, now, BidTtlSeconds)];
      return 1;
    }

    /** Commits a bid for an auction through the script, under that auction's key. */
    method ExecuteAtomicBid(auctionId: string, newBid: int, ownerId: string, ownerName: string,
                            expectedCurrentBid: int, now: int) returns (r: int)
      modifies this
      ensures r == 0 || r == 1
      ensures r == 1 <==> StoredBid(old(entries), AuctionKey(auctionId)) == expectedCurrentBid
      ensures r == 0 ==> entries == old(entries)
      ensures r == 1 ==> entries == old(entries)[AuctionKey(auctionId) := BidRecord(newBid, ownerId, ownerName, now, BidTtlSeconds)]
      ensures forall id | id != auctionId && AuctionKey(id) in old(entries) ::
        AuctionKey(id) in entries && entries[AuctionKey(id)] == old(entries)[AuctionKey(id)]
    {
      r := RunBidScript(AuctionKey(auctionId), newBid, ownerId, ownerName, expectedCurrentBid, now);
      forall id | id != auctionId && AuctionKey(id) in old(entries)
        ensures AuctionKey(id) in entries && entries[AuctionKey(id)] == old(entries)[AuctionKey(id)]
      {
        AuctionKeyInjective(id, auctionId);
      }
    }

    /** Two bidders who both read the price `c` and both propose `n`: the first to commit
        wins, the second is refused and leaves the first one's record in place. */
    method SameExpectedBidRace(auctionId: string, c: int, n: int,
                               firstId: string, firstName: string,
                               secondId: string, secondName: string, firstNow: int, secondNow: int)
      returns (first: int, second: int)
      requires StoredBid(entries, AuctionKey(auctionId)) == c && n != c
      modifies this
      ensures first == 1 && second == 0
      ensures entries == old(entries)[AuctionKey(auctionId) := BidRecord(n, firstId, firstName, firstNow, BidTtlSeconds)]
    {
      first := ExecuteAtomicBid(auctionId, n, firstId, firstName, c, firstNow);
      second := ExecuteAtomicBid(auctionId, n, secondId, secondName, c, secondNow);
    }
  }
}

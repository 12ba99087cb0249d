/** Money in auctions, along runs in which anything else may happen between the bids. */
module SwapAuctions {
  import opened Common
  import opened SwapState
  import opened SwapSpec
  import opened SwapRuns
  import opened SwapMoney
  import opened SwapClaims
  import opened SwapBook
  import opened BatchOpening

  // ── What a run did to one auction ────────────────────────────────────────

  predicate IsBid(s: State, op: Op, id: AuctionId) {
    op.PlaceBid? && op.auction == id && SwapSpec.PlaceBid(s, id, op.bidder, op.amount).Ok?
  }

  /** What the bids on auction `id` have cost the holder `a` so far, refunds counted against it. */
  function NetPaid(s: State, ops: seq<Op>, id: AuctionId, t: Token, a: Address): int
    decreases |ops|
  {
    if ops == [] then 0
    else
      var before := Run(s, ops[..|ops| - 1]);
      NetPaid(s, ops[..|ops| - 1], id, t, a) +
      (if IsBid(before, ops[|ops| - 1], id) then Bal(before.bank, t, a) - Bal(Run(s, ops).bank, t, a) else 0)
  }

  /** The amounts of the bids that were taken, in order. */
  function Bids(s: State, ops: seq<Op>, id: AuctionId): seq<int>
    decreases |ops|
  {
    if ops == [] then []
    else
      Bids(s, ops[..|ops| - 1], id) +
      (if IsBid(Run(s, ops[..|ops| - 1]), ops[|ops| - 1], id) then [ops[|ops| - 1].amount] else [])
  }

  // ── Single calls ─────────────────────────────────────────────────────────

  predicate AboutAuctions(op: Op) {
    op.StartAuction? || op.PlaceBid? || op.FinalizeAuction?
  }

  lemma OpeningsLeaveAuctions(s: State, op: Op)
    requires OpensOne(op) || OpensMany(op)
    ensures After(s, op).house == s.house
  {
    if op.BatchInitiate? && |op.ips| == |op.prices| {
      TwoPassesAreOne(s, op.batch, op.ips, op.prices);
    }
  }

  lemma BatchesLeaveAuctions(s: State, op: Op)
    requires OnStored(op)
    ensures After(s, op).house == s.house
  {
  }

  lemma ActsLeaveAuctions(s: State, id: SwapId, plan: Result<Change>)
    ensures Do(s, id, plan).Ok? ==> Do(s, id, plan).value.house == s.house
  {
  }

  /** Calls about swaps leave every auction alone. */
  lemma OthersLeaveAuctions(s: State, op: Op)
    requires !AboutAuctions(op)
    ensures After(s, op).house == s.house
  {
    if op.On? {
      ActsLeaveAuctions(s, op.id, Plan(s, op.id, op.act));
    } else if OnStored(op) {
      BatchesLeaveAuctions(s, op);
    } else if OpensOne(op) || OpensMany(op) {
      OpeningsLeaveAuctions(s, op);
    }
  }

  /** An auction has a bid exactly when it has a leader, who is not the contract. */
  predicate LeaderOk(a: Auction) {
    match a.highestBidder
    case None => a.highestBid == 0
    case Some(leader) => a.highestBid > 0 && leader.Account?
  }

  predicate HouseOk(h: House) {
    forall id :: id in h.auctions ==> id < h.next && h.auctions[id].minBid > 0 && LeaderOk(h.auctions[id])
  }

  lemma Started(s: State, token: Token, ip: IpId, seller: Address, minBid: I128, duration: nat)
    requires HouseOk(s.house) && SwapSpec.StartAuction(s, token, ip, seller, minBid, duration).Ok?
    ensures HouseOk(SwapSpec.StartAuction(s, token, ip, seller, minBid, duration).value.house)
    ensures s.house.next !in s.house.auctions
    ensures SwapSpec.StartAuction(s, token, ip, seller, minBid, duration).value.house.auctions
      == s.house.auctions[s.house.next := Auction(ip, seller, token, minBid, 0, None, s.now, s.now + duration, false)]
  {
  }

  lemma Bidden(s: State, id: AuctionId, bidder: Address, amount: I128)
    requires HouseOk(s.house) && SwapSpec.PlaceBid(s, id, bidder, amount).Ok?
    ensures HouseOk(SwapSpec.PlaceBid(s, id, bidder, amount).value.house)
    ensures id in s.house.auctions && bidder.Account?
    ensures var auction := s.house.auctions[id];
            && !auction.finalized && amount > auction.highestBid && amount >= auction.minBid
            && SwapSpec.PlaceBid(s, id, bidder, amount).value.house.auctions
               == s.house.auctions[id := auction.(highestBid := amount, highestBidder := Some(bidder))]
  {
  }

  lemma Closed(s: State, id: AuctionId)
    requires HouseOk(s.house) && SwapSpec.FinalizeAuction(s, id).Ok?
    ensures HouseOk(SwapSpec.FinalizeAuction(s, id).value.house)
    ensures id in s.house.auctions && !s.house.auctions[id].finalized
    ensures SwapSpec.FinalizeAuction(s, id).value.house.auctions
      == s.house.auctions[id := s.house.auctions[id].(finalized := true)]
  {
  }

  /** What one call does to an auction: it opens it without a bid, takes a higher bid, or at most closes it. */
  ghost predicate Proceeds(s: State, op: Op, id: AuctionId, h: House) {
    if id !in s.house.auctions then
      && !IsBid(s, op, id)
      && (id in h.auctions ==> h.auctions[id].highestBidder.None? && !h.auctions[id].finalized)
    else if IsBid(s, op, id) then
      var auction := s.house.auctions[id];
      && !auction.finalized && op.amount > auction.highestBid && op.amount >= auction.minBid && op.bidder.Account?
      && id in h.auctions && h.auctions[id] == auction.(highestBid := op.amount, highestBidder := Some(op.bidder))
    else
      && id in h.auctions
      && (h.auctions[id] == s.house.auctions[id] || h.auctions[id] == s.house.auctions[id].(finalized := true))
  }

  lemma AuctionCallStep(s: State, op: Op, id: AuctionId)
    requires HouseOk(s.house) && AboutAuctions(op)
    ensures HouseOk(After(s, op).house) && Proceeds(s, op, id, After(s, op).house)
  {
    match op
    case StartAuction(token, ip, seller, minBid, duration) =>
      if SwapSpec.StartAuction(s, token, ip, seller, minBid, duration).Ok? {
        Started(s, token, ip, seller, minBid, duration);
      }
    case PlaceBid(auction, bidder, amount) =>
      if SwapSpec.PlaceBid(s, auction, bidder, amount).Ok? {
        Bidden(s, auction, bidder, amount);
      }
    case FinalizeAuction(auction) =>
      if SwapSpec.FinalizeAuction(s, auction).Ok? {
        Closed(s, auction);
      }
  }

  lemma AuctionStep(s: State, op: Op, id: AuctionId)
    requires HouseOk(s.house)
    ensures HouseOk(After(s, op).house) && Proceeds(s, op, id, After(s, op).house)
  {
    if AboutAuctions(op) {
      AuctionCallStep(s, op, id);
    } else {
      OthersLeaveAuctions(s, op);
    }
  }

  lemma BidMovesFlow(auction: Auction, bidder: Address, amount: int, a: Address)
    ensures Flow(BidMoves(auction, bidder, amount), a)
      == Share(auction.highestBidder == Some(a), auction.highestBid) - Share(a == bidder, amount)
         + Share(a == Contract, amount - Share(auction.highestBidder.Some?, auction.highestBid))
  {
    assert Flow(Take(bidder, amount, Done), a) == Share(a == Contract, amount) - Share(a == bidder, amount);
  }

  /** A bid is paid by the bidder; the leader it replaces gets his own back. */
  lemma BidFlow(s: State, id: AuctionId, bidder: Address, amount: I128, t: Token, a: Address)
    requires HouseOk(s.house) && SwapSpec.PlaceBid(s, id, bidder, amount).Ok?
    ensures var auction := s.house.auctions[id];
            Bal(s.bank, t, a) - Bal(SwapSpec.PlaceBid(s, id, bidder, amount).value.bank, t, a)
              == Share(t == auction.token,
              Share(a == bidder, amount) - Share(auction.highestBidder == Some(a), auction.highestBid)
              - Share(a == Contract, amount - auction.highestBid))
  {
    var auction := s.house.auctions[id];
    SettleFlow(s.bank, auction.token, BidMoves(auction, bidder, amount), t, a);
    BidMovesFlow(auction, bidder, amount, a);
  }

  // ── Whole runs ───────────────────────────────────────────────────────────

  /** Bids climb, start at the minimum or above, and end in the highest one. */
  ghost predicate BidsOk(bids: seq<int>, auction: Auction) {
    && (forall i, j :: 0 <= i < j < |bids| ==> bids[i] < bids[j])
    && (forall i :: 0 <= i < |bids| ==> bids[i] >= auction.minBid)
    && (if bids == [] then auction.highestBidder.None?
        else auction.highestBidder.Some? && bids[|bids| - 1] == auction.highestBid)
  }

  lemma HigherBid(bids: seq<int>, auction: Auction, amount: int, bidder: Address)
    requires BidsOk(bids, auction) && LeaderOk(auction) && amount > auction.highestBid && amount >= auction.minBid
    ensures BidsOk(bids + [amount], auction.(highestBid := amount, highestBidder := Some(bidder)))
  {
    var more := bids + [amount];
    forall i, j | 0 <= i < j < |more| ensures more[i] < more[j] {
      if j == |bids| && i < j - 1 {
        assert bids[i] < bids[j - 1];
      }
    }
  }

  /** What the bids on an auction should have cost `a`: the highest bid if `a` leads, and nothing otherwise.
      The contract has received what the leader paid. */
  function Expected(h: House, id: AuctionId, t: Token, a: Address): int {
    if id in h.auctions && h.auctions[id].token == t
    then Share(h.auctions[id].highestBidder == Some(a), h.auctions[id].highestBid)
      - Share(a == Contract, h.auctions[id].highestBid)
    else 0
  }

  lemma ExpectedStep(s: State, op: Op, id: AuctionId, t: Token, a: Address)
    requires HouseOk(s.house)
    ensures Expected(After(s, op).house, id, t, a) - Expected(s.house, id, t, a)
      == if IsBid(s, op, id) then Bal(s.bank, t, a) - Bal(After(s, op).bank, t, a) else 0
  {
    AuctionStep(s, op, id);
    if IsBid(s, op, id) {
      BidFlow(s, id, op.bidder, op.amount, t, a);
    }
  }

  /** Along any run, whatever else happens between the bids: at every moment each bidder is out of pocket by
      the highest bid if he leads and by nothing if he does not, and the contract has taken in exactly the
      highest bid. */
  lemma {:induction false} AuctionConserves(s: State, ops: seq<Op>, id: AuctionId, t: Token, a: Address)
    requires HouseOk(s.house) && id !in s.house.auctions
    ensures HouseOk(Run(s, ops).house)
    ensures NetPaid(s, ops, id, t, a) == Expected(Run(s, ops).house, id, t, a)
    decreases |ops|
  {
    if ops == [] {
    } else {
      AuctionConserves(s, ops[..|ops| - 1], id, t, a);
      AuctionStep(Run(s, ops[..|ops| - 1]), ops[|ops| - 1], id);
      ExpectedStep(Run(s, ops[..|ops| - 1]), ops[|ops| - 1], id, t, a);
    }
  }

  lemma ProceedingBids(s: State, op: Op, id: AuctionId, bids: seq<int>, h: House)
    requires HouseOk(s.house) && Proceeds(s, op, id, h)
    requires if id in s.house.auctions then BidsOk(bids, s.house.auctions[id]) else bids == []
    ensures var more := if IsBid(s, op, id) then bids + [op.amount] else bids;
            if id in h.auctions then BidsOk(more, h.auctions[id]) else more == []
  {
    if IsBid(s, op, id) {
      HigherBid(bids, s.house.auctions[id], op.amount, op.bidder);
    }
  }

  lemma BidsStep(s: State, op: Op, id: AuctionId, bids: seq<int>)
    requires HouseOk(s.house)
    requires if id in s.house.auctions then BidsOk(bids, s.house.auctions[id]) else bids == []
    ensures var more := if IsBid(s, op, id) then bids + [op.amount] else bids;
            var h := After(s, op).house;
            if id in h.auctions then BidsOk(more, h.auctions[id]) else more == []
  {
    AuctionStep(s, op, id);
    ProceedingBids(s, op, id, bids, After(s, op).house);
  }

  /** Along any run the bids taken climb strictly from the minimum to the highest bid. */
  lemma {:induction false} BidsClimb(s: State, ops: seq<Op>, id: AuctionId)
    requires HouseOk(s.house) && id !in s.house.auctions
    ensures HouseOk(Run(s, ops).house)
    ensures if id in Run(s, ops).house.auctions then BidsOk(Bids(s, ops, id), Run(s, ops).house.auctions[id])
      else Bids(s, ops, id) == []
    decreases |ops|
  {
    if ops == [] {
    } else {
      BidsClimb(s, ops[..|ops| - 1], id);
      AuctionStep(Run(s, ops[..|ops| - 1]), ops[|ops| - 1], id);
      BidsStep(Run(s, ops[..|ops| - 1]), ops[|ops| - 1], id, Bids(s, ops[..|ops| - 1], id));
    }
  }

  /** Once an auction is closed it takes no bid, and nothing about it changes. */
  lemma {:induction false} NoBidAfterClose(s: State, ops: seq<Op>, id: AuctionId)
    requires HouseOk(s.house) && id in s.house.auctions && s.house.auctions[id].finalized
    ensures HouseOk(Run(s, ops).house) && id in Run(s, ops).house.auctions
    ensures Run(s, ops).house.auctions[id] == s.house.auctions[id]
    ensures Bids(s, ops, id) == []
    decreases |ops|
  {
    if ops == [] {
    } else {
      NoBidAfterClose(s, ops[..|ops| - 1], id);
      AuctionStep(Run(s, ops[..|ops| - 1]), ops[|ops| - 1], id);
    }
  }

  /** Closing a won auction moves no money: what the contract held for the leader it now holds as the price
      of an Accepted swap between the leader and the auction's seller, about the same IP. */
  lemma ClosingHandsOver(s: State, id: AuctionId)
    requires Inv(s) && SwapSpec.FinalizeAuction(s, id).Ok? && s.house.auctions[id].highestBidder.Some?
    ensures var auction := s.house.auctions[id];
            var s' := SwapSpec.FinalizeAuction(s, id).value;
            && s'.bank == s.bank && s'.swaps.Keys == s.swaps.Keys + {s.nextId}
            && AuctionClaim(s.house, id, auction.token) == auction.highestBid == Claim(s', s.nextId, auction.token)
            && AuctionClaim(s'.house, id, auction.token) == 0 == Claim(s, s.nextId, auction.token)
            && s'.swaps[s.nextId].status == Accepted && s'.swaps[s.nextId].price == auction.highestBid
            && s'.swaps[s.nextId].seller == auction.seller && auction.highestBidder == Some(s'.swaps[s.nextId].buyer)
            && s'.swaps[s.nextId].ip == auction.ip && s'.swaps[s.nextId].token == auction.token
  {
    assert s.nextId !in s.swaps && s.nextId !in s.vault.collateral;
  }
}

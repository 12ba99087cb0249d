/** Opening swaps, one or many, and auctions: what they keep. */
module SwapOpenings {
  import opened Common
  import opened SwapState
  import opened SwapSpec
  import opened SwapClaims
  import opened SwapSafety
  import opened SwapBatches
  import opened BatchOpening

  // ── One new record ───────────────────────────────────────────────────────

  /** A record that may be stored: a Pending one that takes a free lock, or an Accepted one that takes none. */
  predicate Storable(s: State, rec: SwapRecord, lock: bool) {
    && RecordOk(rec) && rec.paid == 0
    && (if lock then rec.status == Pending && rec.ip !in s.active else rec.status == Accepted)
  }

  lemma EnrollKeepsEntries(s: State, rec: SwapRecord, lock: bool, byIp: bool)
    requires Inv(s) && Storable(s, rec, lock)
    ensures forall id :: id in Enroll(s, rec, lock, byIp).swaps ==> EntryOk(Enroll(s, rec, lock, byIp), id)
  {
    var s' := Enroll(s, rec, lock, byIp);
    forall id | id in s'.swaps ensures EntryOk(s', id) {
      if id != s.nextId {
        assert EntryOk(s, id);
      }
    }
  }

  lemma EnrollKeepsInv(s: State, rec: SwapRecord, lock: bool, byIp: bool)
    requires Inv(s) && Storable(s, rec, lock)
    ensures Inv(Enroll(s, rec, lock, byIp))
  {
    var s' := Enroll(s, rec, lock, byIp);
    EnrollKeepsEntries(s, rec, lock, byIp);
    forall ip ensures LockOk(s', ip) {
      assert LockOk(s, ip);
    }
  }

  lemma EnrollKept(s: State, rec: SwapRecord, lock: bool, byIp: bool)
    requires Inv(s) && Storable(s, rec, lock)
    ensures Inv(Enroll(s, rec, lock, byIp)) && Later(s, Enroll(s, rec, lock, byIp))
    ensures lock && Locked(s) ==> Locked(Enroll(s, rec, lock, byIp))
  {
    var s' := Enroll(s, rec, lock, byIp);
    EnrollKeepsInv(s, rec, lock, byIp);
    forall id | id in s.swaps ensures Persists(s, s', id) {
    }
    if lock && Locked(s) {
      forall id | id in s'.swaps ensures Holding(s', id) {
        if id != s.nextId {
          assert Holding(s, id);
        }
      }
    }
  }

  lemma NewIsUnscheduled(s: State)
    requires Inv(s)
    ensures Scheduled(s.side, s.nextId) == 0 && Stored(s.vault, s.nextId) == 0
  {
    assert s.nextId !in s.swaps;
  }

  lemma EnrollClaims(s: State, rec: SwapRecord, lock: bool, byIp: bool, id: SwapId, t: Token)
    requires Inv(s) && id <= s.nextId
    ensures Claim(Enroll(s, rec, lock, byIp), id, t)
      == if id < s.nextId then Claim(s, id, t) else Share(t == rec.token, Due(rec, s.side, id))
  {
    NewIsUnscheduled(s);
  }

  /** A new swap is owed what its status says. */
  lemma EnrollSlack(s: State, rec: SwapRecord, lock: bool, byIp: bool, t: Token)
    requires Inv(s)
    ensures Slack(Enroll(s, rec, lock, byIp), t) == Slack(s, t) - Share(t == rec.token, Due(rec, s.side, s.nextId))
  {
    var s' := Enroll(s, rec, lock, byIp);
    forall id: nat | id < s.nextId ensures Claim(s, id, t) == Claim(s', id, t) {
      EnrollClaims(s, rec, lock, byIp, id, t);
    }
    SwapClaimsAgree(s, s', s.nextId, t);
    EnrollClaims(s, rec, lock, byIp, s.nextId, t);
  }

  lemma OpenSafe(s: State, rec: SwapRecord, byIp: bool)
    requires Inv(s) && Storable(s, rec, true)
    ensures Safe(s, Ok(Enroll(s, rec, true, byIp)))
  {
    EnrollKept(s, rec, true, byIp);
    forall t: Token ensures Slack(Enroll(s, rec, true, byIp), t) >= Slack(s, t) {
      EnrollSlack(s, rec, true, byIp, t);
    }
  }

  // ── Changes outside the book of swaps ────────────────────────────────────

  predicate SameClaims(s: State, s': State) {
    && s'.swaps == s.swaps && s'.nextId == s.nextId && s'.vault == s.vault
    && s'.side.schedules == s.side.schedules && s'.side.paymentsMade == s.side.paymentsMade
  }

  /** Time, balances, surroundings, sign-offs and auctions may differ; the swaps and their money do not. */
  ghost predicate SameBook(s: State, s': State) {
    && SameClaims(s, s') && s'.active == s.active && s'.side.offers == s.side.offers
    && s.now <= s'.now && s.house.next <= s'.house.next
    && (forall a :: a in s'.house.auctions ==> a < s'.house.next && AuctionOk(s'.house.auctions[a]))
  }

  lemma SameBookKept(s: State, s': State)
    requires Inv(s) && SameBook(s, s')
    ensures Kept(s, s')
  {
    forall id | id in s'.swaps ensures EntryOk(s', id) {
      assert EntryOk(s, id);
    }
    forall ip ensures LockOk(s', ip) {
      assert LockOk(s, ip);
    }
    forall id | id in s.swaps ensures Persists(s, s', id) {
    }
    if Locked(s) {
      forall id | id in s'.swaps ensures Holding(s', id) {
        assert Holding(s, id);
      }
    }
  }

  lemma SameBookSlack(s: State, s': State, t: Token)
    requires SameClaims(s, s')
    ensures Slack(s', t) - Slack(s, t) == Held(s', t) - Held(s, t)
      - (AuctionClaims(s'.house, s'.house.next, t) - AuctionClaims(s.house, s.house.next, t))
  {
    SwapClaimsAgree(s, s', s.nextId, t);
  }

  lemma SideSafe(s: State, r: State, side: Side)
    requires Safe(s, Ok(r)) && side.offers == r.side.offers
    requires side.schedules == r.side.schedules && side.paymentsMade == r.side.paymentsMade
    ensures Safe(s, Ok(r.(side := side)))
  {
    var r' := r.(side := side);
    SameBookKept(r, r');
    KeptTrans(s, r, r');
    forall t: Token ensures Slack(r', t) >= Slack(s, t) {
      SameBookSlack(r, r', t);
      assert Slack(r, t) >= Slack(s, t);
    }
  }

  function WithSchedule(s: State, id: SwapId, schedule: seq<Payment>, made: seq<bool>): State {
    s.(side := s.side.(schedules := s.side.schedules[id := schedule], paymentsMade := s.side.paymentsMade[id := made]))
  }

  lemma ScheduleClaims(s: State, id: SwapId, schedule: seq<Payment>, made: seq<bool>, j: SwapId)
    requires Scheduled(s.side, id) == 0 && forall i :: 0 <= i < |made| ==> !made[i]
    ensures Scheduled(WithSchedule(s, id, schedule, made).side, j) == Scheduled(s.side, j)
  {
    NothingFlagged(schedule, made);
  }

  lemma ScheduleEntries(s: State, id: SwapId, schedule: seq<Payment>, made: seq<bool>, j: SwapId)
    requires Inv(s) && Scheduled(s.side, id) == 0 && (forall i :: 0 <= i < |made| ==> !made[i]) && j in s.swaps
    ensures EntryOk(WithSchedule(s, id, schedule, made), j) && Persists(s, WithSchedule(s, id, schedule, made), j)
    ensures Locked(s) ==> Holding(WithSchedule(s, id, schedule, made), j)
  {
    ScheduleClaims(s, id, schedule, made, j);
    assert EntryOk(s, j) && (Locked(s) ==> Holding(s, j));
  }

  lemma ScheduleKept(s: State, id: SwapId, schedule: seq<Payment>, made: seq<bool>)
    requires Inv(s) && id in s.swaps && Scheduled(s.side, id) == 0 && forall i :: 0 <= i < |made| ==> !made[i]
    ensures Kept(s, WithSchedule(s, id, schedule, made))
  {
    var s' := WithSchedule(s, id, schedule, made);
    forall j | j in s'.swaps ensures EntryOk(s', j) && Persists(s, s', j) && (Locked(s) ==> Holding(s', j)) {
      ScheduleEntries(s, id, schedule, made, j);
    }
    forall ip ensures LockOk(s', ip) {
      assert LockOk(s, ip);
    }
  }

  lemma ScheduleSlack(s: State, id: SwapId, schedule: seq<Payment>, made: seq<bool>, t: Token)
    requires Scheduled(s.side, id) == 0 && forall i :: 0 <= i < |made| ==> !made[i]
    ensures Slack(WithSchedule(s, id, schedule, made), t) == Slack(s, t)
  {
    var s' := WithSchedule(s, id, schedule, made);
    forall j: nat | j < s.nextId ensures Claim(s, j, t) == Claim(s', j, t) {
      ScheduleClaims(s, id, schedule, made, j);
    }
    SwapClaimsAgree(s, s', s.nextId, t);
  }

  /** A swap may be given a schedule of which nothing has been paid. */
  lemma ScheduleSafe(s: State, id: SwapId, schedule: seq<Payment>, made: seq<bool>)
    requires Inv(s) && id in s.swaps && Scheduled(s.side, id) == 0 && forall i :: 0 <= i < |made| ==> !made[i]
    ensures Safe(s, Ok(WithSchedule(s, id, schedule, made)))
  {
    ScheduleKept(s, id, schedule, made);
    forall t: Token ensures Slack(WithSchedule(s, id, schedule, made), t) == Slack(s, t) {
      ScheduleSlack(s, id, schedule, made, t);
    }
  }

  // ── Initiation, one at a time ────────────────────────────────────────────

  lemma OfferSafe(s: State, t: Terms, premium: int)
    requires Inv(s) && RequireOffer(s, t.ip, t.seller, t.price).Pass? && Premium(t.price, t.insured) == Ok(premium)
    ensures Safe(s, Ok(Open(s, RecordOf(s, t, premium))))
  {
    OpenSafe(s, RecordOf(s, t, premium), true);
  }

  lemma InitiateSafe(s: State, t: Terms)
    requires Inv(s)
    ensures Safe(s, InitiateSwap(s, t))
  {
    if InitiateSwap(s, t).Ok? {
      OfferSafe(s, t, Premium(t.price, t.insured).value);
    }
  }

  lemma InitiateWithScheduleSafe(
      s: State, token: Token, ip: IpId, seller: Address, schedule: seq<Payment>, buyer: Address)
    requires Inv(s)
    ensures Safe(s, InitiateWithSchedule(s, token, ip, seller, schedule, buyer))
  {
    var r := InitiateWithSchedule(s, token, ip, seller, schedule, buyer);
    if r.Ok? {
      var rec := NewRecord(s, token, ip, seller, ScheduleTotal(schedule), buyer).(installment := true);
      OpenSafe(s, rec, true);
      NewIsUnscheduled(s);
      ScheduleSafe(Open(s, rec), s.nextId, schedule, seq(|schedule|, i => false));
      SafeThen(s, Open(s, rec), r);
    }
  }

  lemma InitiateWithSignersSafe(
      s: State, token: Token, ip: IpId, seller: Address, price: I128, buyer: Address, required: seq<Address>)
    requires Inv(s)
    ensures Safe(s, InitiateWithSigners(s, token, ip, seller, price, buyer, required))
  {
    var r := InitiateWithSigners(s, token, ip, seller, price, buyer, required);
    if r.Ok? {
      var rec := NewRecord(s, token, ip, seller, price, buyer);
      OpenSafe(s, rec, true);
      SideSafe(s, Open(s, rec), r.value.side);
    }
  }

  lemma OpenEscrowSafe(
      s: State, token: Token, ip: IpId, seller: Address, price: I128, buyer: Address, timeout: nat, byIp: bool)
    requires Inv(s) && price > 0 && ip !in s.active
    ensures Safe(s, Ok(OpenEscrow(s, token, ip, seller, price, buyer, timeout, byIp)))
  {
    var rec := NewRecord(s, token, ip, seller, price, buyer).(expiry := timeout);
    OpenSafe(s, rec, byIp);
    SideSafe(s, Enroll(s, rec, true, byIp), OpenEscrow(s, token, ip, seller, price, buyer, timeout, byIp).side);
  }

  // ── Initiation in batches ────────────────────────────────────────────────

  lemma {:induction false} OpenCheckingSafe(s: State, b: BatchTerms, ips: seq<IpId>, prices: seq<I128>, insured: bool)
    requires Inv(s)
    ensures Safe(s, OpenChecking(s, b, ips, prices, insured))
    decreases |ips|
  {
    if ips == [] {
      NothingSafe(s);
    } else if prices != [] && RequireOffer(s, ips[0], b.seller, prices[0]).Pass? && Premium(prices[0], insured).Ok? {
      var rec := RecordOf(s, ItemTerms(b, ips[0], prices[0], insured), Premium(prices[0], insured).value);
      OfferSafe(s, ItemTerms(b, ips[0], prices[0], insured), Premium(prices[0], insured).value);
      OpenCheckingSafe(Open(s, rec), b, ips[1..], prices[1..], insured);
      SafeThen(s, Open(s, rec), OpenChecking(Open(s, rec), b, ips[1..], prices[1..], insured));
    }
  }

  lemma {:induction false} OpenEscrowsSafe(
      s: State, token: Token, seller: Address, buyer: Address, ips: seq<IpId>, prices: seq<I128>, timeouts: seq<nat>)
    requires Inv(s) && |ips| == |prices| == |timeouts|
    ensures Safe(s, OpenEscrows(s, token, seller, buyer, ips, prices, timeouts))
    decreases |ips|
  {
    if ips == [] {
      NothingSafe(s);
    } else if RequireOffer(s, ips[0], seller, prices[0]).Pass? {
      var first := OpenEscrow(s, token, ips[0], seller, prices[0], buyer, timeouts[0], true);
      OpenEscrowSafe(s, token, ips[0], seller, prices[0], buyer, timeouts[0], true);
      OpenEscrowsSafe(first, token, seller, buyer, ips[1..], prices[1..], timeouts[1..]);
      SafeThen(s, first, OpenEscrows(first, token, seller, buyer, ips[1..], prices[1..], timeouts[1..]));
    }
  }

  lemma InitiateEscrowSafe(s: State, token: Token, ip: IpId, seller: Address, price: I128, buyer: Address, timeout: nat)
    requires Inv(s)
    ensures Safe(s, InitiateEscrow(s, token, ip, seller, price, buyer, timeout))
  {
    if InitiateEscrow(s, token, ip, seller, price, buyer, timeout).Ok? {
      OpenEscrowSafe(s, token, ip, seller, price, buyer, timeout, false);
    }
  }

  lemma BatchInitiateSafe(s: State, b: BatchTerms, ips: seq<IpId>, prices: seq<I128>)
    requires Inv(s)
    ensures Safe(s, BatchInitiate(s, b, ips, prices))
  {
    if BatchInitiate(s, b, ips, prices).Ok? {
      TwoPassesAreOne(s, b, ips, prices);
      OpenCheckingSafe(s, b, ips, prices, false);
    }
  }

  lemma BatchInitiateEscrowSafe(
      s: State, token: Token, ips: seq<IpId>, seller: Address, prices: seq<I128>, buyer: Address, timeouts: seq<nat>)
    requires Inv(s)
    ensures Safe(s, BatchInitiateEscrow(s, token, ips, seller, prices, buyer, timeouts))
  {
    if |ips| == |prices| == |timeouts| {
      OpenEscrowsSafe(s, token, seller, buyer, ips, prices, timeouts);
    }
  }

  // ── Auctions ─────────────────────────────────────────────────────────────

  lemma StartAuctionSafe(s: State, token: Token, ip: IpId, seller: Address, minBid: I128, duration: nat)
    requires Inv(s)
    ensures Safe(s, StartAuction(s, token, ip, seller, minBid, duration))
  {
    var r := StartAuction(s, token, ip, seller, minBid, duration);
    if r.Ok? {
      SameBookKept(s, r.value);
      forall t: Token ensures Slack(r.value, t) >= Slack(s, t) {
        SameBookSlack(s, r.value, t);
        AuctionClaimsAgree(s.house, r.value.house, s.house.next, t);
      }
    }
  }

  lemma BidNet(auction: Auction, bidder: Address, amount: int)
    requires AuctionOk(auction) && bidder.Account?
    ensures Net(BidMoves(auction, bidder, amount)) >= amount - auction.highestBid
    ensures auction.highestBidder != Some(Contract) ==>
      Net(BidMoves(auction, bidder, amount)) == amount - auction.highestBid
    ensures Outgo(BidMoves(auction, bidder, amount)) == auction.highestBid
  {
  }

  lemma PlaceBidKept(s: State, id: AuctionId, bidder: Address, amount: I128)
    requires Inv(s) && PlaceBid(s, id, bidder, amount).Ok?
    ensures Kept(s, PlaceBid(s, id, bidder, amount).value) && SlackKept(s, PlaceBid(s, id, bidder, amount).value)
  {
    var s' := PlaceBid(s, id, bidder, amount).value;
    var auction := s.house.auctions[id];
    BidNet(auction, bidder, amount);
    SameBookKept(s, s');
    forall t: Token ensures Slack(s', t) >= Slack(s, t) {
      SameBookSlack(s, s', t);
      AuctionClaimsChange(s.house, s'.house, id, s.house.next, t);
      SettleHeld(s.bank, auction.token, BidMoves(auction, bidder, amount), t);
    }
  }

  lemma PlaceBidSafe(s: State, id: AuctionId, bidder: Address, amount: I128)
    requires Inv(s)
    ensures Safe(s, PlaceBid(s, id, bidder, amount))
  {
    if id in s.house.auctions && bidder.Account? {
      var auction := s.house.auctions[id];
      BidNet(auction, bidder, amount);
      if Solvent(s) && !auction.finalized {
        ClaimsCovered(s, 0, id, auction.token);
        SettleFunded(s.bank, auction.token, BidMoves(auction, bidder, amount));
      }
      if PlaceBid(s, id, bidder, amount).Ok? {
        PlaceBidKept(s, id, bidder, amount);
      }
    }
  }

  lemma CloseAuctionSlack(s: State, id: AuctionId, t: Token)
    requires Inv(s) && id in s.house.auctions && !s.house.auctions[id].finalized
    ensures var auction := s.house.auctions[id];
            var closed := CloseAuction(s, id, auction);
            Inv(closed) && Slack(closed, t) == Slack(s, t) + Share(t == auction.token, auction.highestBid)
  {
    var closed := CloseAuction(s, id, s.house.auctions[id]);
    SameBookKept(s, closed);
    SameBookSlack(s, closed, t);
    AuctionClaimsChange(s.house, closed.house, id, s.house.next, t);
  }

  /** Closing an auction releases the leader's money; the winner's swap claims it again, in full. */
  lemma FinalizeAuctionSlack(s: State, id: AuctionId, t: Token)
    requires Inv(s) && FinalizeAuction(s, id).Ok?
    ensures Slack(FinalizeAuction(s, id).value, t) == Slack(s, t)
  {
    var auction := s.house.auctions[id];
    CloseAuctionSlack(s, id, t);
    if auction.highestBidder.Some? {
      EnrollSlack(CloseAuction(s, id, auction), WonSwap(s, auction, auction.highestBidder.value), false, true, t);
    }
  }

  lemma FinalizeAuctionKept(s: State, id: AuctionId)
    requires Inv(s) && FinalizeAuction(s, id).Ok?
    ensures Inv(FinalizeAuction(s, id).value) && Later(s, FinalizeAuction(s, id).value)
    ensures Locked(s) && s.house.auctions[id].highestBidder.None? ==> Locked(FinalizeAuction(s, id).value)
    ensures SlackKept(s, FinalizeAuction(s, id).value)
  {
    var auction := s.house.auctions[id];
    var closed := CloseAuction(s, id, auction);
    SameBookKept(s, closed);
    if auction.highestBidder.Some? {
      var won := WonSwap(s, auction, auction.highestBidder.value);
      EnrollKept(closed, won, false, true);
      forall j | j in s.swaps ensures Persists(s, Enroll(closed, won, false, true), j) {
        assert Persists(s, closed, j);
      }
    }
    forall t: Token ensures Slack(FinalizeAuction(s, id).value, t) >= Slack(s, t) {
      FinalizeAuctionSlack(s, id, t);
    }
  }

  /** Settling a won auction always leaves its swap live without the lock of its IP. */
  lemma WonAuctionTakesNoLock(s: State, id: AuctionId)
    requires Inv(s) && Locked(s) && FinalizeAuction(s, id).Ok?
    ensures Locked(FinalizeAuction(s, id).value) <==> s.house.auctions[id].highestBidder.None?
  {
    FinalizeAuctionKept(s, id);
    var auction := s.house.auctions[id];
    if auction.highestBidder.Some? {
      assert LockOk(s, auction.ip);
      assert !Holding(FinalizeAuction(s, id).value, s.nextId);
    }
  }
}

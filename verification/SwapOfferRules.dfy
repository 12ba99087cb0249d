/** The rules of the calls that open a swap or run an auction: who may call when, what the call leaves behind, and what
    each refusal means. They are stated on the storage itself, apart from how the calls are carried out. */
module SwapOfferRules {
  import opened Common
  import opened SwapState
  import opened SwapSpec
  import opened SwapRuns
  import opened SwapRules

  // ── Vocabulary ───────────────────────────────────────────────────────────

  /** The registry knows the IP as the seller's, and as not revoked. */
  predicate Sells(s: State, ip: IpId, seller: Address) {
    ip in s.world.ips && s.world.ips[ip].owner == seller && !s.world.ips[ip].revoked
  }

  function Entries<K, V>(lists: map<K, seq<V>>, k: K): seq<V> {
    if k in lists then lists[k] else []
  }

  /** The sum of a schedule, added up payment by payment and kept within the range of the type. */
  function AddedUp(sum: int, schedule: seq<Payment>): int
    decreases |schedule|
  {
    if schedule == [] then sum
    else
      var next := sum + schedule[0].amount;
      AddedUp(if next > I128_MAX then I128_MAX else if next < I128_MIN then I128_MIN else next, schedule[1..])
  }

  // ── Who may open, and when ───────────────────────────────────────────────

  predicate MaySell(s: State, seller: Address) {
    !s.world.paused && seller.Account?
  }

  predicate MayOffer(s: State, ip: IpId, seller: Address, price: int) {
    MaySell(s, seller) && price > 0 && Sells(s, ip, seller) && ip !in s.active
  }

  predicate PremiumFits(price: int, insured: bool) {
    insured ==> price * 2 <= I128_MAX
  }

  ghost predicate AllInsurable(ips: seq<IpId>, prices: seq<I128>, insured: bool) {
    forall i :: 0 <= i < |ips| && i < |prices| ==> PremiumFits(prices[i], insured)
  }

  /** Different free IPs, all the seller's, each at a price. */
  ghost predicate AllForSale(s: State, seller: Address, ips: seq<IpId>, prices: seq<I128>) {
    && Distinct(ips) && |ips| <= |prices|
    && forall i :: 0 <= i < |ips| ==> prices[i] > 0 && Sells(s, ips[i], seller) && ips[i] !in s.active
  }

  ghost predicate MayBatch(s: State, seller: Address, ips: seq<IpId>, prices: seq<I128>) {
    MaySell(s, seller) && 1 <= |ips| == |prices| <= 50 && AllForSale(s, seller, ips, prices)
  }

  /** The insured form knows no limit on the number of items, and allows more prices than items. */
  ghost predicate MayBatchInsured(s: State, seller: Address, ips: seq<IpId>, prices: seq<I128>, insured: bool) {
    MaySell(s, seller) && AllForSale(s, seller, ips, prices) && AllInsurable(ips, prices, insured)
  }

  ghost predicate MayBatchEscrow(s: State, seller: Address, ips: seq<IpId>, prices: seq<I128>, timeouts: seq<nat>) {
    MaySell(s, seller) && 1 <= |ips| == |prices| == |timeouts| && AllForSale(s, seller, ips, prices)
  }

  predicate MayAuction(s: State, ip: IpId, seller: Address, minBid: int, duration: nat) {
    && MaySell(s, seller) && minBid > 0 && Sells(s, ip, seller) && ip !in s.house.open
    && s.now + duration <= U64_MAX
  }

  predicate Running(s: State, id: AuctionId) {
    id in s.house.auctions && !s.house.auctions[id].finalized
  }

  /** Before the end, and for more than the leader's bid, which is given back first. */
  predicate MayBid(s: State, id: AuctionId, bidder: Address, amount: int) {
    && bidder.Account? && Running(s, id)
    && var auction := s.house.auctions[id];
    && s.now < auction.endTime && amount >= auction.minBid && amount > auction.highestBid
    && amount <= Funds(s, auction.token, bidder) + Share(auction.highestBidder == Some(bidder), auction.highestBid)
  }

  predicate MayFinalize(s: State, id: AuctionId) {
    Running(s, id) && s.house.auctions[id].endTime <= s.now
  }

  /** All that such a call needs, but for the funds that the contract itself must have to give a bid back. */
  ghost predicate MayOpen(s: State, op: Op) {
    match op
    case Initiate(t) => MayOffer(s, t.ip, t.seller, t.price) && PremiumFits(t.price, t.insured)
    case InitiateWithSchedule(_, ip, seller, schedule, _) =>
      schedule != [] && MayOffer(s, ip, seller, AddedUp(0, schedule))
    case InitiateWithSigners(_, ip, seller, price, _, required) => required != [] && MayOffer(s, ip, seller, price)
    case InitiateEscrow(_, ip, seller, price, _, _) => MayOffer(s, ip, seller, price)
    case BatchInitiate(b, ips, prices) => MayBatch(s, b.seller, ips, prices)
    case BatchInitiateWithInsurance(b, ips, prices, insured) => MayBatchInsured(s, b.seller, ips, prices, insured)
    case BatchInitiateEscrow(_, ips, seller, prices, _, timeouts) => MayBatchEscrow(s, seller, ips, prices, timeouts)
    case StartAuction(_, ip, seller, minBid, duration) => MayAuction(s, ip, seller, minBid, duration)
    case PlaceBid(id, bidder, amount) => MayBid(s, id, bidder, amount)
    case FinalizeAuction(id) => MayFinalize(s, id)
    case _ => false
  }

  // ── What is left behind ──────────────────────────────────────────────────

  /** An offer: Pending for a week, of one unit, with nothing paid and nothing asked for besides the price. */
  function Offer(s: State, token: Token, ip: IpId, seller: Address, price: int, buyer: Address): SwapRecord {
    SwapRecord(ip, seller, buyer, price, token, Pending, s.now + 7 * DAY, 0, 0, 0, None, 0, 0, false, 1, [], 0, false)
  }

  /** The premium of an insured offer is two percent of its price, rounded down. */
  function OfferOn(s: State, t: Terms): SwapRecord {
    Offer(s, t.token, t.ip, t.seller, t.price, t.buyer)
      .(requiredApprovals := t.requiredApprovals, referrer := t.referrer, collateralAmount := t.collateralAmount,
        insured := t.insured, premium := if t.insured then t.price / 50 else 0)
  }

  /** The offers of a batch, item by item. */
  function Offers(s: State, b: BatchTerms, ips: seq<IpId>, prices: seq<I128>, insured: bool): seq<SwapRecord>
    requires |ips| <= |prices|
  {
    seq(|ips|, i requires 0 <= i < |ips| =>
      OfferOn(s, Terms(b.token, ips[i], b.seller, prices[i], b.buyer, b.requiredApprovals, b.referrer, 0, insured)))
  }

  function Escrows(
      s: State, token: Token, seller: Address, buyer: Address, ips: seq<IpId>, prices: seq<I128>,
      timeouts: seq<nat>): seq<SwapRecord>
    requires |ips| == |prices| == |timeouts|
  {
    seq(|ips|, i requires 0 <= i < |ips| =>
      Offer(s, token, ips[i], seller, prices[i], buyer).(expiry := timeouts[i]))
  }

  /** Each of the records starts the history of its id; no other history changes. */
  predicate HistoryStarted(
      before: map<SwapId, seq<HistoryEntry>>, after: map<SwapId, seq<HistoryEntry>>, first: SwapId,
      records: seq<SwapRecord>, now: nat, id: SwapId)
  {
    Entries(after, id)
    == if first <= id < first + |records|
       then Entries(before, id) + [HistoryEntry(records[id - first].status, now)]
       else Entries(before, id)
  }

  ghost predicate HistoriesStarted(
      before: map<SwapId, seq<HistoryEntry>>, after: map<SwapId, seq<HistoryEntry>>, first: SwapId,
      records: seq<SwapRecord>, now: nat)
  {
    forall id: SwapId :: HistoryStarted(before, after, first, records, now, id)
  }

  /** The records are stored in order under the ids from `first` on. */
  ghost predicate RecordsStored(
      before: map<SwapId, SwapRecord>, after: map<SwapId, SwapRecord>, first: SwapId, records: seq<SwapRecord>)
  {
    && (forall id :: id in after <==> id in before || first <= id < first + |records|)
    && (forall id :: id in before ==> after[id] == before[id])
    && (forall i :: 0 <= i < |records| ==> after[first + i] == records[i])
  }

  ghost predicate Booked(s: State, s': State, records: seq<SwapRecord>) {
    && s'.nextId == s.nextId + |records|
    && RecordsStored(s.swaps, s'.swaps, s.nextId, records)
    && HistoriesStarted(s.history, s'.history, s.nextId, records, s.now)
  }

  /** None of the records is about this IP. */
  predicate NotAmong(records: seq<SwapRecord>, ip: IpId) {
    forall i :: 0 <= i < |records| ==> records[i].ip != ip
  }

  /** Each of them has the lock of its IP, and no other lock is touched. */
  ghost predicate LocksTaken(
      before: map<IpId, SwapId>, after: map<IpId, SwapId>, first: SwapId, records: seq<SwapRecord>)
  {
    && (forall i :: 0 <= i < |records| ==> records[i].ip in after && after[records[i].ip] == first + i)
    && (forall ip {:trigger NotAmong(records, ip)} :: NotAmong(records, ip) ==>
          (ip in after <==> ip in before) && (ip in before ==> after[ip] == before[ip]))
  }

  /** A party finds all of them at the end of his list; nobody else's list changes. */
  predicate AddedFor(
      before: map<Address, seq<SwapId>>, after: map<Address, seq<SwapId>>, party: Address, first: SwapId, n: nat,
      a: Address)
  {
    Entries(after, a) == if a == party then Entries(before, a) + Upward(first, n) else Entries(before, a)
  }

  ghost predicate PartyListed(
      before: map<Address, seq<SwapId>>, after: map<Address, seq<SwapId>>, party: Address, first: SwapId, n: nat)
  {
    forall a :: AddedFor(before, after, party, first, n, a)
  }

  ghost predicate PartiesListed(s: State, s': State, seller: Address, buyer: Address, n: nat) {
    && PartyListed(s.index.bySeller, s'.index.bySeller, seller, s.nextId, n)
    && PartyListed(s.index.byBuyer, s'.index.byBuyer, buyer, s.nextId, n)
  }

  /** So does whoever looks under their IPs, which are different. */
  ghost predicate IpsListed(
      before: map<IpId, seq<SwapId>>, after: map<IpId, seq<SwapId>>, first: SwapId, records: seq<SwapRecord>)
  {
    && (forall i :: 0 <= i < |records| ==>
          Entries(after, records[i].ip) == Entries(before, records[i].ip) + [first + i])
    && (forall ip {:trigger NotAmong(records, ip)} :: NotAmong(records, ip) ==>
          Entries(after, ip) == Entries(before, ip))
  }

  /** Everything but the book of swaps and its locks, lists and histories is as before. */
  ghost predicate OnlyBook(s: State, s': State) {
    s' == s.(swaps := s'.swaps, nextId := s'.nextId, active := s'.active, history := s'.history, index := s'.index)
  }

  /** The records have become swaps of these two parties. */
  ghost predicate Opened(s: State, s': State, records: seq<SwapRecord>, seller: Address, buyer: Address) {
    && Booked(s, s', records) && LocksTaken(s.active, s'.active, s.nextId, records)
    && PartiesListed(s, s', seller, buyer, |records|) && IpsListed(s.index.byIp, s'.index.byIp, s.nextId, records)
  }

  /** They have, and nothing else has happened. */
  ghost predicate JustOpened(s: State, s': State, records: seq<SwapRecord>, seller: Address, buyer: Address) {
    Opened(s, s', records, seller, buyer) && OnlyBook(s, s')
  }

  /** An offer with a schedule asks for the sum of it; none of the payments is marked as made. */
  ghost predicate OpenedWithSchedule(
      s: State, s': State, token: Token, ip: IpId, seller: Address, schedule: seq<Payment>, buyer: Address)
  {
    var record := Offer(s, token, ip, seller, AddedUp(0, schedule), buyer).(installment := true);
    && Opened(s, s', [record], seller, buyer) && OnlyBook(s, s'.(side := s.side))
    && s'.side.schedules == s.side.schedules[s.nextId := schedule]
    && s.nextId in s'.side.paymentsMade && |s'.side.paymentsMade[s.nextId]| == |schedule|
    && (forall i :: 0 <= i < |schedule| ==> !s'.side.paymentsMade[s.nextId][i])
    && s'.side.paymentsMade == s.side.paymentsMade[s.nextId := s'.side.paymentsMade[s.nextId]]
    && s'.side == s.side.(schedules := s'.side.schedules, paymentsMade := s'.side.paymentsMade)
  }

  ghost predicate OpenedWithSigners(
      s: State, s': State, token: Token, ip: IpId, seller: Address, price: int, buyer: Address, required: seq<Address>)
  {
    && Opened(s, s', [Offer(s, token, ip, seller, price, buyer)], seller, buyer) && OnlyBook(s, s'.(side := s.side))
    && s'.side == s.side.(signers := s.side.signers[s.nextId := required])
  }

  /** A single escrow offer is not listed under its IP; those of a batch are. */
  ghost predicate OpenedEscrow(s: State, s': State, record: SwapRecord) {
    && Booked(s, s', [record]) && LocksTaken(s.active, s'.active, s.nextId, [record])
    && PartiesListed(s, s', record.seller, record.buyer, 1) && s'.index.byIp == s.index.byIp
    && s'.side == s.side.(escrowMode := s.side.escrowMode + {s.nextId})
    && OnlyBook(s, s'.(side := s.side))
  }

  ghost predicate OpenedEscrows(s: State, s': State, records: seq<SwapRecord>, seller: Address, buyer: Address) {
    && Opened(s, s', records, seller, buyer) && OnlyBook(s, s'.(side := s.side))
    && (forall id :: id in s'.side.escrowMode <==> id in s.side.escrowMode || s.nextId <= id < s'.nextId)
    && s'.side == s.side.(escrowMode := s'.side.escrowMode)
  }

  ghost predicate AuctionStarted(
      s: State, s': State, token: Token, ip: IpId, seller: Address, minBid: int, duration: nat)
  {
    && s'.house.next == s.house.next + 1 && s'.house.open == s.house.open[ip := s.house.next]
    && s'.house.auctions
       == s.house.auctions[s.house.next := Auction(ip, seller, token, minBid, 0, None, s.now, s.now + duration, false)]
    && s' == s.(house := s'.house)
  }

  /** The bidder leads and has paid his bid; the leader before him has his own back. */
  ghost predicate BidTaken(s: State, s': State, id: AuctionId, bidder: Address, amount: int)
    requires id in s.house.auctions
  {
    var auction := s.house.auctions[id];
    && s'.house.auctions == s.house.auctions[id := auction.(highestBid := amount, highestBidder := Some(bidder))]
    && s'.house.open == s.house.open && s'.house.next == s.house.next
    && (forall t: Token, a: Address :: a.Account? ==>
          Funds(s', t, a)
          == Funds(s, t, a) + Share(t == auction.token && auction.highestBidder == Some(a), auction.highestBid)
             - Share(t == auction.token && a == bidder, amount))
    && s' == s.(house := s'.house, bank := s'.bank)
  }

  /** The auction is over and its IP can be auctioned again. Whoever led it has bought at his bid: his swap starts out
      as Accepted, without a lock. */
  ghost predicate AuctionClosed(s: State, s': State, id: AuctionId)
    requires id in s.house.auctions
  {
    var auction := s.house.auctions[id];
    && s'.house == House(s.house.auctions[id := auction.(finalized := true)], s.house.open - {auction.ip}, s.house.next)
    && match auction.highestBidder
       case None => s' == s.(house := s'.house)
       case Some(winner) =>
         var record := Offer(s, auction.token, auction.ip, auction.seller, auction.highestBid, winner)
                       .(status := Accepted, acceptedAt := s.now);
         && Booked(s, s', [record]) && s'.active == s.active
         && PartiesListed(s, s', auction.seller, winner, 1)
         && IpsListed(s.index.byIp, s'.index.byIp, s.nextId, [record])
         && OnlyBook(s, s'.(house := s.house))
  }

  ghost predicate Opens(s: State, s': State, op: Op)
    requires MayOpen(s, op)
  {
    match op
    case Initiate(t) => JustOpened(s, s', [OfferOn(s, t)], t.seller, t.buyer)
    case InitiateWithSchedule(token, ip, seller, schedule, buyer) =>
      OpenedWithSchedule(s, s', token, ip, seller, schedule, buyer)
    case InitiateWithSigners(token, ip, seller, price, buyer, required) =>
      OpenedWithSigners(s, s', token, ip, seller, price, buyer, required)
    case InitiateEscrow(token, ip, seller, price, buyer, timeout) =>
      OpenedEscrow(s, s', Offer(s, token, ip, seller, price, buyer).(expiry := timeout))
    case BatchInitiate(b, ips, prices) => JustOpened(s, s', Offers(s, b, ips, prices, false), b.seller, b.buyer)
    case BatchInitiateWithInsurance(b, ips, prices, insured) =>
      JustOpened(s, s', Offers(s, b, ips, prices, insured), b.seller, b.buyer)
    case BatchInitiateEscrow(token, ips, seller, prices, buyer, timeouts) =>
      OpenedEscrows(s, s', Escrows(s, token, seller, buyer, ips, prices, timeouts), seller, buyer)
    case StartAuction(token, ip, seller, minBid, duration) =>
      AuctionStarted(s, s', token, ip, seller, minBid, duration)
    case PlaceBid(id, bidder, amount) => BidTaken(s, s', id, bidder, amount)
    case FinalizeAuction(id) => AuctionClosed(s, s', id)
  }

  // ── What a refusal says ──────────────────────────────────────────────────

  /** The IP cannot be sold by this account. */
  predicate IpSays(s: State, ip: IpId, seller: Address, e: Error) {
    || (e == IpNotFound && ip !in s.world.ips)
    || (e == NotIPOwner && ip in s.world.ips && s.world.ips[ip].owner != seller)
    || (e == IpRevoked && ip in s.world.ips && s.world.ips[ip].revoked)
  }

  predicate SellerSays(s: State, seller: Address, e: Error) {
    || (e == Paused && s.world.paused)
    || (e == NotAuthorized && seller == Contract)
  }

  predicate ItemSays(s: State, ip: IpId, seller: Address, price: int, e: Error) {
    || (e == PriceTooSmall && price <= 0)
    || (e == SwapExists && ip in s.active)
    || IpSays(s, ip, seller, e)
  }

  predicate OfferSays(s: State, ip: IpId, seller: Address, price: int, e: Error) {
    SellerSays(s, seller, e) || ItemSays(s, ip, seller, price, e)
  }

  predicate InitiateSays(s: State, t: Terms, e: Error) {
    if e == Trap then !PremiumFits(t.price, t.insured) else OfferSays(s, t.ip, t.seller, t.price, e)
  }

  predicate ScheduleSays(s: State, ip: IpId, seller: Address, schedule: seq<Payment>, e: Error) {
    OfferSays(s, ip, seller, AddedUp(0, schedule), e) || (e == PriceTooSmall && schedule == [])
  }

  predicate SignersSay(s: State, ip: IpId, seller: Address, price: int, required: seq<Address>, e: Error) {
    if e == Unauthorized then required == [] else OfferSays(s, ip, seller, price, e)
  }

  /** One of the items cannot be offered, or two of them are of the same IP. */
  ghost predicate ItemsSay(s: State, seller: Address, ips: seq<IpId>, prices: seq<I128>, e: Error) {
    || (e == SwapExists && !Distinct(ips))
    || exists i :: 0 <= i < |ips| && i < |prices| && ItemSays(s, ips[i], seller, prices[i], e)
  }

  ghost predicate BatchSays(s: State, seller: Address, ips: seq<IpId>, prices: seq<I128>, e: Error) {
    || (e == BatchEmpty && ips == [])
    || (e == BatchSizeMismatch && |ips| != |prices|)
    || (e == BatchTooLarge && |ips| > 50)
    || SellerSays(s, seller, e) || ItemsSay(s, seller, ips, prices, e)
  }

  ghost predicate CheckingSays(
      s: State, seller: Address, ips: seq<IpId>, prices: seq<I128>, insured: bool, e: Error)
  {
    if e == Trap then |prices| < |ips| || !AllInsurable(ips, prices, insured) else ItemsSay(s, seller, ips, prices, e)
  }

  ghost predicate InsuredSays(s: State, seller: Address, ips: seq<IpId>, prices: seq<I128>, insured: bool, e: Error) {
    SellerSays(s, seller, e) || CheckingSays(s, seller, ips, prices, insured, e)
  }

  ghost predicate EscrowsSay(
      s: State, seller: Address, ips: seq<IpId>, prices: seq<I128>, timeouts: seq<nat>, e: Error)
  {
    || SellerSays(s, seller, e) || ItemsSay(s, seller, ips, prices, e)
    || (e == PriceTooSmall && !(1 <= |ips| == |prices| == |timeouts|))
  }

  predicate AuctionSays(s: State, ip: IpId, seller: Address, minBid: int, duration: nat, e: Error) {
    || (e == PriceTooSmall && minBid <= 0)
    || (e == SwapExists && ip in s.house.open)
    || (e == Trap && s.now + duration > U64_MAX)
    || SellerSays(s, seller, e) || IpSays(s, ip, seller, e)
  }

  /** The contract cannot give the leader his bid back; the bidder cannot pay, even with what he is given back. */
  predicate Broke(s: State, id: AuctionId, who: Address)
    requires id in s.house.auctions
  {
    var auction := s.house.auctions[id];
    who == Contract && auction.highestBidder.Some? && Funds(s, auction.token, Contract) < auction.highestBid
  }

  predicate TooPoor(s: State, id: AuctionId, bidder: Address, amount: int)
    requires id in s.house.auctions
  {
    var auction := s.house.auctions[id];
    Funds(s, auction.token, bidder) + Share(auction.highestBidder == Some(bidder), auction.highestBid) < amount
  }

  predicate BidSays(s: State, id: AuctionId, bidder: Address, amount: int, e: Error) {
    || (e == NotAuthorized && bidder == Contract)
    || (e == SwapNotFound && id !in s.house.auctions)
    || (e == AlreadyInit && id in s.house.auctions && s.house.auctions[id].finalized)
    || (e == NotExpired && id in s.house.auctions && s.house.auctions[id].endTime <= s.now)
    || (e == PriceTooSmall && id in s.house.auctions
        && (amount < s.house.auctions[id].minBid || amount <= s.house.auctions[id].highestBid))
    || (e.InsufficientBalance? && id in s.house.auctions
        && (Broke(s, id, e.who) || (e.who == bidder && TooPoor(s, id, e.who, amount))))
  }

  predicate FinalizeSays(s: State, id: AuctionId, e: Error) {
    || (e == SwapNotFound && id !in s.house.auctions)
    || (e == AlreadyInit && id in s.house.auctions && s.house.auctions[id].finalized)
    || (e == NotExpired && id in s.house.auctions && s.now < s.house.auctions[id].endTime)
  }

  ghost predicate OpeningSays(s: State, op: Op, e: Error) {
    match op
    case Initiate(t) => InitiateSays(s, t, e)
    case InitiateWithSchedule(_, ip, seller, schedule, _) => ScheduleSays(s, ip, seller, schedule, e)
    case InitiateWithSigners(_, ip, seller, price, _, required) => SignersSay(s, ip, seller, price, required, e)
    case InitiateEscrow(_, ip, seller, price, _, _) => OfferSays(s, ip, seller, price, e)
    case BatchInitiate(b, ips, prices) => BatchSays(s, b.seller, ips, prices, e)
    case BatchInitiateWithInsurance(b, ips, prices, insured) => InsuredSays(s, b.seller, ips, prices, insured, e)
    case BatchInitiateEscrow(_, ips, seller, prices, _, timeouts) => EscrowsSay(s, seller, ips, prices, timeouts, e)
    case StartAuction(_, ip, seller, minBid, duration) => AuctionSays(s, ip, seller, minBid, duration, e)
    case PlaceBid(id, bidder, amount) => BidSays(s, id, bidder, amount, e)
    case FinalizeAuction(id) => FinalizeSays(s, id, e)
    case _ => false
  }
}

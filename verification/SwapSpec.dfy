/** What every entry point of the atomic swap contract does to storage and balances,
    as a function of the state before the call. A call that panics is an `Err`.

    A call about one stored swap is described by a `Change`: the record it leaves behind,
    the transfers it makes, and what it does to the lock, the history and the other
    entries. `Apply` carries a change out. */
module SwapSpec {
  import opened Common
  import opened SwapState

  datatype Change = Change(
    swap: SwapRecord, moves: Moves, unlock: bool, logged: bool, vault: Vault, side: Side, reputation: map<Address, nat>)

  /** Replace the record and nothing else. */
  function Edit(s: State, swap: SwapRecord): Change {
    Change(swap, Done, false, false, s.vault, s.side, s.reputation)
  }

  /** Store a final status and free the IP. */
  function Close(s: State, swap: SwapRecord, status: Status): Change {
    Edit(s, swap.(status := status)).(unlock := true)
  }

  function Apply(s: State, id: SwapId, c: Change): Result<State> {
    var bank :- Settle(s.bank, c.swap.token, c.moves);
    Ok(s.(bank := bank,
          swaps := s.swaps[id := c.swap],
          active := if c.unlock then s.active - {c.swap.ip} else s.active,
          history := if c.logged then Push(s.history, id, HistoryEntry(c.swap.status, s.now)) else s.history,
          vault := c.vault, side := c.side, reputation := c.reputation))
  }

  function Do(s: State, id: SwapId, plan: Result<Change>): Result<State> {
    var c :- plan;
    Apply(s, id, c)
  }

  /** What no batch touches: the auctions, the signatures and the approvals. */
  predicate KeepsAside(s: State, s': State) {
    && s'.house == s.house && s.nextId <= s'.nextId
    && s'.side.signers == s.side.signers && s'.side.signatures == s.side.signatures
    && s'.side.approvals == s.side.approvals
  }

  // ── Guards ───────────────────────────────────────────────────────────────

  function RequireOwnsActiveIp(s: State, ip: IpId, seller: Address): Check {
    if ip !in s.world.ips then Fail(IpNotFound)
    else if s.world.ips[ip].owner != seller then Fail(NotIPOwner)
    else Need(!s.world.ips[ip].revoked, IpRevoked)
  }

  /** The checks shared by every initiation of one swap, in the contract's order. */
  function RequireOffer(s: State, ip: IpId, seller: Address, price: int): Check {
    if price <= 0 then Fail(PriceTooSmall)
    else if RequireOwnsActiveIp(s, ip, seller).Fail? then RequireOwnsActiveIp(s, ip, seller)
    else Need(ip !in s.active, SwapExists)
  }

  predicate Approved(s: State, id: SwapId, swap: SwapRecord) {
    swap.requiredApprovals == 0 || |Lookup(s.side.approvals, id, [])| >= swap.requiredApprovals
  }

  predicate Holds(c: Condition, price: int, now: nat) {
    match c
    case KeyValid => true
    case PriceBelow(threshold) => price < threshold
    case TimeAfter(timestamp) => now >= timestamp
  }

  predicate AllHold(conditions: seq<Condition>, price: int, now: nat) {
    forall c :: c in conditions ==> Holds(c, price, now)
  }

  predicate KeyOpens(s: State, ip: IpId, digest: Digest) {
    ip in s.world.ips && s.world.ips[ip].commitment == digest
  }

  // ── Initiation ───────────────────────────────────────────────────────────

  function NewRecord(s: State, token: Token, ip: IpId, seller: Address, price: int, buyer: Address): SwapRecord {
    SwapRecord(ip, seller, buyer, price, token, Pending, s.now + SWAP_LIFETIME, 0, 0, 0,
               None, 0, 0, false, 1, [], 0, false)
  }

  /** Store a new record under the next id, take the IP's lock if asked to, list the swap
      under both parties and, if asked to, under its IP, and start its history. */
  function Enroll(s: State, rec: SwapRecord, lock: bool, byIp: bool): State {
    s.(swaps := s.swaps[s.nextId := rec],
       nextId := s.nextId + 1,
       active := if lock then s.active[rec.ip := s.nextId] else s.active,
       history := Push(s.history, s.nextId, HistoryEntry(rec.status, s.now)),
       index := Index(Push(s.index.bySeller, rec.seller, s.nextId),
                      Push(s.index.byBuyer, rec.buyer, s.nextId),
                      if byIp then Push(s.index.byIp, rec.ip, s.nextId) else s.index.byIp))
  }

  function Open(s: State, rec: SwapRecord): State {
    Enroll(s, rec, true, true)
  }

  function Premium(price: int, insured: bool): Result<int> {
    if !insured then Ok(0)
    else if price * 2 > I128_MAX then Err(Trap)
    else Ok(TruncDiv(price * 2, 100))
  }

  datatype Terms = Terms(
    token: Token, ip: IpId, seller: Address, price: I128, buyer: Address, requiredApprovals: nat,
    referrer: Option<Address>, collateralAmount: I128, insured: bool)

  function RecordOf(s: State, t: Terms, premium: int): SwapRecord {
    NewRecord(s, t.token, t.ip, t.seller, t.price, t.buyer)
      .(requiredApprovals := t.requiredApprovals, referrer := t.referrer,
        collateralAmount := t.collateralAmount, premium := premium, insured := t.insured)
  }

  function InitiateSwap(s: State, t: Terms): Result<State> {
    if s.world.paused then Err(Paused) else
    if t.seller.Contract? then Err(NotAuthorized) else
    :- RequireOffer(s, t.ip, t.seller, t.price);
    var premium :- Premium(t.price, t.insured);
    Ok(Open(s, RecordOf(s, t, premium)))
  }

  function ScheduleTotal(schedule: seq<Payment>): int {
    if schedule == [] then 0
    else SatAdd(ScheduleTotal(schedule[..|schedule| - 1]), schedule[|schedule| - 1].amount)
  }

  function InitiateWithSchedule(
      s: State, token: Token, ip: IpId, seller: Address, schedule: seq<Payment>, buyer: Address): Result<State>
  {
    if s.world.paused then Err(Paused) else
    if seller.Contract? then Err(NotAuthorized) else
    if schedule == [] then Err(PriceTooSmall) else
    :- RequireOffer(s, ip, seller, ScheduleTotal(schedule));
    var started := Open(s, NewRecord(s, token, ip, seller, ScheduleTotal(schedule), buyer).(installment := true));
    Ok(started.(side := s.side.(schedules := s.side.schedules[s.nextId := schedule],
                                paymentsMade := s.side.paymentsMade[s.nextId := seq(|schedule|, i => false)])))
  }

  function InitiateWithSigners(
      s: State, token: Token, ip: IpId, seller: Address, price: I128, buyer: Address,
      required: seq<Address>): Result<State>
  {
    if s.world.paused then Err(Paused) else
    if seller.Contract? then Err(NotAuthorized) else
    :- RequireOffer(s, ip, seller, price);
    if required == [] then Err(Unauthorized) else
    Ok(Open(s, NewRecord(s, token, ip, seller, price, buyer))
       .(side := s.side.(signers := s.side.signers[s.nextId := required])))
  }

  function OpenEscrow(
      s: State, token: Token, ip: IpId, seller: Address, price: int, buyer: Address, timeout: nat, byIp: bool): State
  {
    Enroll(s, NewRecord(s, token, ip, seller, price, buyer).(expiry := timeout), true, byIp)
      .(side := s.side.(escrowMode := s.side.escrowMode + {s.nextId}))
  }

  /** The single form does not index the swap under its IP; the batch form does. */
  function InitiateEscrow(
      s: State, token: Token, ip: IpId, seller: Address, price: I128, buyer: Address, timeout: nat): Result<State>
  {
    if s.world.paused then Err(Paused) else
    if seller.Contract? then Err(NotAuthorized) else
    :- RequireOffer(s, ip, seller, price);
    Ok(OpenEscrow(s, token, ip, seller, price, buyer, timeout, false))
  }

  datatype BatchTerms = BatchTerms(
    token: Token, seller: Address, buyer: Address, requiredApprovals: nat, referrer: Option<Address>)

  function ItemTerms(b: BatchTerms, ip: IpId, price: I128, insured: bool): Terms {
    Terms(b.token, ip, b.seller, price, b.buyer, b.requiredApprovals, b.referrer, 0, insured)
  }

  /** Check and write one item at a time. A missing price aborts at the item that lacks it. */
  function OpenChecking(s: State, b: BatchTerms, ips: seq<IpId>, prices: seq<I128>, insured: bool): (r: Result<State>)
    ensures r.Ok? ==> KeepsAside(s, r.value)
    decreases |ips|
  {
    if ips == [] then Ok(s) else
    if prices == [] then Err(Trap) else
    :- RequireOffer(s, ips[0], b.seller, prices[0]);
    var premium :- Premium(prices[0], insured);
    OpenChecking(Open(s, RecordOf(s, ItemTerms(b, ips[0], prices[0], insured), premium)),
                 b, ips[1..], prices[1..], insured)
  }

  function BatchInitiateWithInsurance(
      s: State, b: BatchTerms, ips: seq<IpId>, prices: seq<I128>, insured: bool): Result<State>
  {
    if s.world.paused then Err(Paused) else
    if b.seller.Contract? then Err(NotAuthorized) else
    OpenChecking(s, b, ips, prices, insured)
  }

  /** The read-only pass: every item on its own, and no later item with the same IP. */
  function ValidateOffers(s: State, seller: Address, ips: seq<IpId>, prices: seq<I128>): (c: Check)
    requires |ips| == |prices|
    ensures c.Fail? ==> !c.error.InsufficientBalance?
  {
    if ips == [] then Pass
    else if RequireOffer(s, ips[0], seller, prices[0]).Fail? then RequireOffer(s, ips[0], seller, prices[0])
    else if ips[0] in ips[1..] then Fail(SwapExists)
    else ValidateOffers(s, seller, ips[1..], prices[1..])
  }

  /** The writing pass: no checks. */
  function OpenAll(s: State, b: BatchTerms, ips: seq<IpId>, prices: seq<I128>): State
    requires |ips| == |prices|
    decreases |ips|
  {
    if ips == [] then s
    else OpenAll(Open(s, RecordOf(s, ItemTerms(b, ips[0], prices[0], false), 0)), b, ips[1..], prices[1..])
  }

  function BatchInitiate(s: State, b: BatchTerms, ips: seq<IpId>, prices: seq<I128>): Result<State> {
    if s.world.paused then Err(Paused) else
    if b.seller.Contract? then Err(NotAuthorized) else
    if |ips| == 0 then Err(BatchEmpty) else
    if |prices| != |ips| then Err(BatchSizeMismatch) else
    if |ips| > MAX_BATCH_SIZE then Err(BatchTooLarge) else
    :- ValidateOffers(s, b.seller, ips, prices);
    Ok(OpenAll(s, b, ips, prices))
  }

  function OpenEscrows(
      s: State, token: Token, seller: Address, buyer: Address, ips: seq<IpId>, prices: seq<I128>,
      timeouts: seq<nat>): (r: Result<State>)
    requires |ips| == |prices| == |timeouts|
    ensures r.Ok? ==> KeepsAside(s, r.value)
    decreases |ips|
  {
    if ips == [] then Ok(s) else
    :- RequireOffer(s, ips[0], seller, prices[0]);
    OpenEscrows(OpenEscrow(s, token, ips[0], seller, prices[0], buyer, timeouts[0], true),
                token, seller, buyer, ips[1..], prices[1..], timeouts[1..])
  }

  function BatchInitiateEscrow(
      s: State, token: Token, ips: seq<IpId>, seller: Address, prices: seq<I128>, buyer: Address,
      timeouts: seq<nat>): Result<State>
  {
    if s.world.paused then Err(Paused) else
    if seller.Contract? then Err(NotAuthorized) else
    if |ips| == 0 || |prices| != |ips| || |timeouts| != |ips| then Err(PriceTooSmall) else
    OpenEscrows(s, token, seller, buyer, ips, prices, timeouts)
  }

  // ── Acceptance ───────────────────────────────────────────────────────────

  /** The swap becomes Accepted now, with its history saying so. */
  function Accept(s: State, swap: SwapRecord, moves: Moves, vault: Vault): Change {
    Change(swap.(status := Accepted, acceptedAt := s.now), moves, false, true, vault, s.side, s.reputation)
  }

  /** The premium that acceptance collects. */
  function Collected(swap: SwapRecord): int {
    if swap.insured && swap.premium > 0 then swap.premium else 0
  }

  /** Collateral if `secure`, then the price, then the premium. */
  function AcceptMoves(v: Vault, swap: SwapRecord, secure: bool): Moves {
    var insurance :=
      if Collected(swap) > 0
        then Take(swap.buyer, Collected(swap), Gate(Fits(Pool(v, swap.token) + Collected(swap)), Done))
      else Done;
    var payment := Take(swap.buyer, swap.price, insurance);
    if secure then Take(swap.buyer, swap.collateralAmount, payment) else payment
  }

  /** The collateral is stored, and the premium goes into the token's pool. */
  function AcceptVault(v: Vault, id: SwapId, swap: SwapRecord, secure: bool): Vault {
    v.(collateral := if secure then v.collateral[id := swap.collateralAmount] else v.collateral,
       pool := if Collected(swap) > 0 then v.pool[swap.token := Pool(v, swap.token) + Collected(swap)] else v.pool)
  }

  function AcceptInFull(s: State, id: SwapId, swap: SwapRecord, secure: bool): Change {
    Accept(s, swap, AcceptMoves(s.vault, swap, secure), AcceptVault(s.vault, id, swap, secure))
  }

  function AcceptPlan(s: State, id: SwapId): Result<Change> {
    if s.world.paused then Err(Paused) else
    if id !in s.swaps then Err(SwapNotFound) else
    var swap := s.swaps[id];
    if swap.buyer.Contract? then Err(NotAuthorized) else
    if swap.status != Pending then Err(NotPending) else
    if !Approved(s, id, swap) then Err(NeedApprovals) else
    if !AllHold(swap.conditions, swap.price, s.now) then Err(ConditionNotMet) else
    if id in s.side.minReputation && Lookup(s.reputation, swap.buyer, 50) < s.side.minReputation[id]
    then Err(InsufficientReputation) else
    if swap.collateralAmount > 0 && id in s.vault.collateral then Err(AlreadyInit) else
    Ok(AcceptInFull(s, id, swap, swap.collateralAmount > 0))
  }

  function AcceptConditionalPlan(s: State, id: SwapId, conditions: seq<Condition>): Result<Change> {
    if s.world.paused then Err(Paused) else
    if id !in s.swaps then Err(SwapNotFound) else
    var swap := s.swaps[id];
    if swap.buyer.Contract? then Err(NotAuthorized) else
    if swap.status != Pending then Err(NotPending) else
    if !Approved(s, id, swap) then Err(NeedApprovals) else
    if !AllHold(conditions, swap.price, s.now) then Err(ConditionNotMet) else
    Ok(Accept(s, swap.(conditions := conditions), Take(swap.buyer, swap.price, Done), s.vault))
  }

  function AcceptPartialPlan(s: State, id: SwapId, quantity: nat): Result<Change> {
    if s.world.paused then Err(Paused) else
    if id !in s.swaps then Err(SwapNotFound) else
    var swap := s.swaps[id];
    if swap.buyer.Contract? then Err(NotAuthorized) else
    if swap.status != Pending then Err(NotPending) else
    if quantity == 0 || quantity > swap.quantity then Err(InvalidKey) else
    if !Fits(swap.price * quantity) then Err(Trap) else
    var part := TruncDiv(swap.price * quantity, swap.quantity);
    Ok(Accept(s, swap.(price := part, quantity := quantity), Take(swap.buyer, part, Done), s.vault))
  }

  function Deposit(s: State, id: SwapId, swap: SwapRecord): Result<Change> {
    if id !in s.side.escrowMode then Err(Unauthorized) else
    if swap.status != Pending then Err(NotPending) else
    Ok(Accept(s, swap, Take(swap.buyer, swap.price, Done), s.vault.(deposits := s.vault.deposits[id := swap.price])))
  }

  function EscrowDepositPlan(s: State, id: SwapId): Result<Change> {
    if id !in s.swaps then Err(SwapNotFound) else
    var swap := s.swaps[id];
    if swap.buyer.Contract? then Err(NotAuthorized) else
    Deposit(s, id, swap)
  }

  function BatchDepositPlan(s: State, id: SwapId, buyer: Address): Result<Change> {
    if id !in s.swaps then Err(SwapNotFound) else
    var swap := s.swaps[id];
    if swap.buyer != buyer then Err(Unauthorized) else
    Deposit(s, id, swap)
  }

  function DepositAll(s: State, ids: seq<SwapId>, buyer: Address): (r: Result<State>)
    ensures r.Ok? ==> KeepsAside(s, r.value)
    decreases |ids|
  {
    if ids == [] then Ok(s) else
    var next :- Do(s, ids[0], BatchDepositPlan(s, ids[0], buyer));
    DepositAll(next, ids[1..], buyer)
  }

  function BatchEscrowDeposit(s: State, ids: seq<SwapId>, buyer: Address): Result<State> {
    if buyer.Contract? then Err(NotAuthorized) else
    DepositAll(s, ids, buyer)
  }

  function ValidateAccept(s: State, id: SwapId, buyer: Address): Check {
    if id !in s.swaps then Fail(SwapNotFound)
    else if s.swaps[id].buyer != buyer then Fail(Unauthorized)
    else if s.swaps[id].status != Pending then Fail(NotPending)
    else Need(Approved(s, id, s.swaps[id]), NeedApprovals)
  }

  function ValidateAccepts(s: State, ids: seq<SwapId>, buyer: Address): (c: Check)
    ensures c.Fail? ==> !c.error.InsufficientBalance?
  {
    if ids == [] then Pass
    else if ValidateAccept(s, ids[0], buyer).Fail? then ValidateAccept(s, ids[0], buyer)
    else ValidateAccepts(s, ids[1..], buyer)
  }

  /** One item of the writing pass: status, conditions and reputation are not looked at,
      and collateral already stored is not collected again. */
  function BatchAcceptPlan(s: State, id: SwapId): Result<Change> {
    if id !in s.swaps then Err(SwapNotFound) else
    var swap := s.swaps[id];
    Ok(AcceptInFull(s, id, swap, swap.collateralAmount > 0 && id !in s.vault.collateral))
  }

  function AcceptAll(s: State, ids: seq<SwapId>): (r: Result<State>)
    ensures r.Ok? ==> KeepsAside(s, r.value)
    decreases |ids|
  {
    if ids == [] then Ok(s) else
    var next :- Do(s, ids[0], BatchAcceptPlan(s, ids[0]));
    AcceptAll(next, ids[1..])
  }

  function BatchAccept(s: State, ids: seq<SwapId>, buyer: Address): Result<State> {
    if s.world.paused then Err(Paused) else
    if buyer.Contract? then Err(NotAuthorized) else
    if ids == [] then Err(BatchEmpty) else
    if |ids| > MAX_BATCH_SIZE then Err(BatchTooLarge) else
    :- ValidateAccepts(s, ids, buyer);
    AcceptAll(s, ids)
  }

  function SubmitInstallmentPlan(s: State, id: SwapId, amount: I128): Result<Change> {
    if id !in s.swaps then Err(SwapNotFound) else
    var swap := s.swaps[id];
    if swap.buyer.Contract? then Err(NotAuthorized) else
    if !swap.installment then Err(NotPending) else
    if swap.status != Pending then Err(NotPending) else
    if amount <= 0 then Err(PriceTooSmall) else
    if amount > SatAdd(swap.price, -swap.paid) then Err(PriceTooSmall) else
    var total := swap.(paid := SatAdd(swap.paid, amount));
    var moves := Take(swap.buyer, amount, Done);
    Ok(if total.paid >= total.price then Accept(s, total, moves, s.vault) else Edit(s, total).(moves := moves))
  }

  predicate AllPaid(made: seq<bool>) {
    forall i :: 0 <= i < |made| ==> made[i]
  }

  /** The status is not tested: a settled swap can be made Accepted again. */
  function ScheduledPaymentPlan(s: State, id: SwapId, index: nat): Result<Change> {
    if id !in s.swaps then Err(SwapNotFound) else
    var swap := s.swaps[id];
    if swap.buyer.Contract? then Err(NotAuthorized) else
    if id !in s.side.schedules then Err(SwapNotFound) else
    var schedule := s.side.schedules[id];
    if index >= |schedule| then Err(InvalidKey) else
    var made := Lookup(s.side.paymentsMade, id, []);
    if index < |made| && made[index] then Err(AlreadyInit) else
    if s.now < schedule[index].due then Err(NotExpired) else
    var moves := Take(swap.buyer, schedule[index].amount, Gate(index < |made|, Done));
    var marked := if index < |made| then made[index := true] else made;
    var change := if AllPaid(marked) then Accept(s, swap, moves, s.vault) else Edit(s, swap).(moves := moves);
    Ok(change.(side := s.side.(paymentsMade := s.side.paymentsMade[id := marked])))
  }

  // ── Edits that leave a swap's status alone ───────────────────────────────

  function RenegotiatePlan(s: State, id: SwapId, price: I128): Result<Change> {
    if s.world.paused then Err(Paused) else
    if id !in s.swaps then Err(SwapNotFound) else
    var swap := s.swaps[id];
    if swap.status != Pending then Err(NotPending) else
    if swap.seller.Contract? then Err(NotAuthorized) else
    if price <= 0 then Err(PriceTooSmall) else
    Ok(Edit(s, swap).(side := s.side.(offers := s.side.offers[id := price])))
  }

  function AcceptRenegotiationPlan(s: State, id: SwapId): Result<Change> {
    if s.world.paused then Err(Paused) else
    if id !in s.swaps then Err(SwapNotFound) else
    var swap := s.swaps[id];
    if swap.status != Pending then Err(NotPending) else
    if swap.buyer.Contract? then Err(NotAuthorized) else
    if id !in s.side.offers then Err(SwapNotFound) else
    Ok(Edit(s, swap.(price := s.side.offers[id])).(side := s.side.(offers := s.side.offers - {id})))
  }

  function ExtendExpiryPlan(s: State, id: SwapId, expiry: nat): Result<Change> {
    if id !in s.swaps then Err(SwapNotFound) else
    var swap := s.swaps[id];
    if swap.seller.Contract? then Err(NotAuthorized) else
    if swap.status != Pending then Err(NotPending) else
    if expiry <= swap.expiry then Err(ExpiryNotGreater) else
    Ok(Edit(s, swap.(expiry := expiry)))
  }

  function ApprovePlan(s: State, id: SwapId, approver: Address): Result<Change> {
    if approver.Contract? then Err(NotAuthorized) else
    if id !in s.swaps then Err(SwapNotFound) else
    var swap := s.swaps[id];
    if swap.status != Pending then Err(NotPending) else
    if approver in Lookup(s.side.approvals, id, []) then Err(AlreadyApproved) else
    Ok(Edit(s, swap).(side := s.side.(approvals := Push(s.side.approvals, id, approver))))
  }

  function SetMinReputationPlan(s: State, id: SwapId, minimum: nat): Result<Change> {
    if id !in s.swaps then Err(SwapNotFound) else
    var swap := s.swaps[id];
    if swap.seller.Contract? then Err(NotAuthorized) else
    if swap.status != Pending then Err(NotPending) else
    Ok(Edit(s, swap).(side := s.side.(minReputation := s.side.minReputation[id := minimum])))
  }

  function SignRevealPlan(s: State, id: SwapId, signer: Address): Result<Change> {
    if signer.Contract? then Err(NotAuthorized) else
    if id !in s.swaps then Err(SwapNotFound) else
    var swap := s.swaps[id];
    if swap.status != Accepted then Err(NotAccepted) else
    if id !in s.side.signers then Err(Unauthorized) else
    if signer !in s.side.signers[id] then Err(NotARequiredSigner) else
    if signer in Lookup(s.side.signatures, id, []) then Err(AlreadySigned) else
    Ok(Edit(s, swap).(side := s.side.(signatures := Push(s.side.signatures, id, signer))))
  }

  /** Only the first request sets the clock. */
  function RequestArbitrationPlan(s: State, id: SwapId, requester: Address): Result<Change> {
    if id !in s.swaps then Err(SwapNotFound) else
    var swap := s.swaps[id];
    if requester.Contract? then Err(NotAuthorized) else
    if requester != swap.buyer && requester != swap.seller then Err(Unauthorized) else
    if swap.status != Disputed then Err(NotDisputed) else
    Ok(if id in s.side.arbitrationAt then Edit(s, swap)
       else Edit(s, swap).(side := s.side.(arbitrationAt := s.side.arbitrationAt[id := s.now])))
  }

  function RaiseDisputePlan(s: State, id: SwapId): Result<Change> {
    if id !in s.swaps then Err(SwapNotFound) else
    var swap := s.swaps[id];
    if swap.buyer.Contract? then Err(NotAuthorized) else
    if swap.status != Accepted then Err(NotAccepted) else
    if Elapsed(s.now, swap.acceptedAt) >= DISPUTE_WINDOW then Err(DisputeExpired) else
    Ok(Edit(s, swap.(status := Disputed, disputedAt := s.now)))
  }

  // ── Settlement ───────────────────────────────────────────────────────────

  /** A share of the price in hundredths of a percent; nothing for a price that is not positive. */
  function Bps(price: int, bps: nat): (r: Result<int>)
    ensures r.Ok? && price > 0 ==> 0 <= r.value && 10_000 * r.value <= price * bps < 10_000 * (r.value + 1)
    ensures r.Ok? && price <= 0 ==> r.value == 0
  {
    if price <= 0 then Ok(0)
    else if price * bps > I128_MAX then Err(Trap)
    else Ok(TruncDiv(price * bps, 10_000))
  }

  function Referral(swap: SwapRecord): Result<int> {
    if swap.referrer.None? then Ok(0) else Bps(swap.price, REFERRAL_FEE_BPS)
  }

  function GiveReferrer(swap: SwapRecord, amount: int, rest: Moves): (m: Moves)
    ensures 0 <= amount ==> Net(m) >= Net(rest) - amount && Outgo(m) <= Outgo(rest) + amount
  {
    match swap.referrer
    case Some(referrer) => GiveSome(referrer, amount, rest)
    case None => rest
  }

  /** Whatever collateral is stored, if the swap asked for any. */
  predicate HasCollateral(v: Vault, id: SwapId, swap: SwapRecord) {
    swap.collateralAmount > 0 && id in v.collateral
  }

  function WithoutCollateral(v: Vault, id: SwapId, swap: SwapRecord): Vault {
    if HasCollateral(v, id, swap) then v.(collateral := v.collateral - {id}) else v
  }

  function GiveCollateral(v: Vault, id: SwapId, swap: SwapRecord, to: Address, rest: Moves): (m: Moves)
    ensures Stored(v, id) >= 0 ==>
      && Net(m) - Net(rest) >= Stored(WithoutCollateral(v, id, swap), id) - Stored(v, id)
      && (to.Account? ==> Net(m) - Net(rest) == Stored(WithoutCollateral(v, id, swap), id) - Stored(v, id))
      && Outgo(m) <= Outgo(rest) + Stored(v, id)
  {
    if HasCollateral(v, id, swap) then Give(to, Stored(v, id), rest) else rest
  }

  predicate FullySigned(s: State, id: SwapId) {
    id in s.side.signers ==> |Lookup(s.side.signatures, id, [])| >= |s.side.signers[id]|
  }

  /** What `reveal_key` checks before it pays. */
  function RevealGuard(s: State, id: SwapId, caller: Address, digest: Digest): (c: Check)
    ensures c.Pass? ==> id in s.swaps
  {
    if id !in s.swaps then Fail(SwapNotFound)
    else if caller != s.swaps[id].seller then Fail(OnlySellerReveal)
    else if caller.Contract? then Fail(NotAuthorized)
    else if s.swaps[id].status != Accepted then Fail(NotAccepted)
    else if !FullySigned(s, id) then Fail(NotAllSigned)
    else if s.swaps[id].ip !in s.world.ips then Fail(IpNotFound)
    else if !KeyOpens(s, s.swaps[id].ip, digest) then Fail(InvalidKey)
    else Need(AllHold(s.swaps[id].conditions, s.swaps[id].price, s.now), ConditionNotMet)
  }

  /** Treasury, referrer and seller are paid from the price, in this order, and the buyer gets the collateral back. */
  function RevealMoves(v: Vault, id: SwapId, swap: SwapRecord, fee: int, referral: int): Moves {
    GiveSome(TREASURY, fee, GiveReferrer(swap, referral,
    Give(swap.seller, swap.price - fee - referral, GiveCollateral(v, id, swap, swap.buyer, Done))))
  }

  function RevealPlan(s: State, id: SwapId, caller: Address, digest: Digest): Result<Change> {
    if RevealGuard(s, id, caller, digest).Fail? then Err(RevealGuard(s, id, caller, digest).error) else
    var swap := s.swaps[id];
    var fee :- Bps(swap.price, PROTOCOL_FEE_BPS);
    var referral :- Referral(swap);
    Ok(Close(s, swap, Completed).(
         moves := RevealMoves(s.vault, id, swap, fee, referral),
         logged := true, vault := WithoutCollateral(s.vault, id, swap),
         side := s.side.(completedAt := s.side.completedAt[id := s.now]),
         reputation := Rated(Rated(s.reputation, swap.seller, 5), swap.buyer, 5)))
  }

  function ValidateReveal(s: State, id: SwapId, seller: Address, digest: Digest): Check {
    if id !in s.swaps then Fail(SwapNotFound)
    else if s.swaps[id].seller != seller then Fail(OnlySellerReveal)
    else if s.swaps[id].status != Accepted then Fail(NotAccepted)
    else if s.swaps[id].ip !in s.world.ips then Fail(IpNotFound)
    else Need(KeyOpens(s, s.swaps[id].ip, digest), InvalidKey)
  }

  function ValidateReveals(s: State, ids: seq<SwapId>, seller: Address, digests: seq<Digest>): (c: Check)
    requires |ids| == |digests|
    ensures c.Fail? ==> !c.error.InsufficientBalance?
  {
    if ids == [] then Pass
    else if ValidateReveal(s, ids[0], seller, digests[0]).Fail? then ValidateReveal(s, ids[0], seller, digests[0])
    else ValidateReveals(s, ids[1..], seller, digests[1..])
  }

  /** In a batch the seller is paid first, and is given the collateral. */
  function BatchRevealMoves(v: Vault, id: SwapId, swap: SwapRecord, fee: int, referral: int): Moves {
    Give(swap.seller, swap.price - fee - referral, GiveSome(TREASURY, fee,
    GiveReferrer(swap, referral, GiveCollateral(v, id, swap, swap.seller, Done))))
  }

  /** One item of the paying pass. */
  function BatchRevealPlan(s: State, id: SwapId): Result<Change> {
    if id !in s.swaps then Err(SwapNotFound) else
    var swap := s.swaps[id];
    var fee :- Bps(swap.price, PROTOCOL_FEE_BPS);
    var referral :- Referral(swap);
    Ok(Close(s, swap, Completed).(
         moves := BatchRevealMoves(s.vault, id, swap, fee, referral),
         logged := true, vault := WithoutCollateral(s.vault, id, swap),
         reputation := Rated(Rated(s.reputation, swap.seller, 5), swap.buyer, 5)))
  }

  function RevealAll(s: State, ids: seq<SwapId>): (r: Result<State>)
    ensures r.Ok? ==> KeepsAside(s, r.value)
    decreases |ids|
  {
    if ids == [] then Ok(s) else
    var next :- Do(s, ids[0], BatchRevealPlan(s, ids[0]));
    RevealAll(next, ids[1..])
  }

  /** A digest stands for a pair of secret and blinding factor, so the two length tests are one. */
  function BatchReveal(s: State, ids: seq<SwapId>, digests: seq<Digest>, seller: Address): Result<State> {
    if seller.Contract? then Err(NotAuthorized) else
    if ids == [] then Err(BatchEmpty) else
    if |digests| != |ids| then Err(BatchSizeMismatch) else
    if |ids| > MAX_BATCH_SIZE then Err(BatchTooLarge) else
    :- ValidateReveals(s, ids, seller, digests);
    RevealAll(s, ids)
  }

  /** The price, and the stored collateral, go back to the buyer. */
  function RefundMoves(v: Vault, id: SwapId, swap: SwapRecord): Moves {
    Give(swap.buyer, swap.price, GiveCollateral(v, id, swap, swap.buyer, Done))
  }

  function Refund(s: State, id: SwapId, swap: SwapRecord): Change {
    Close(s, swap, Cancelled).(moves := RefundMoves(s.vault, id, swap), vault := WithoutCollateral(s.vault, id, swap))
  }

  /** Seller and treasury share the price, and the seller is given the collateral. */
  function CompleteMoves(v: Vault, id: SwapId, swap: SwapRecord, fee: int): Moves {
    Give(swap.seller, swap.price - fee, GiveSome(TREASURY, fee, GiveCollateral(v, id, swap, swap.seller, Done)))
  }

  function Complete(s: State, id: SwapId, swap: SwapRecord, fee: int): Change {
    Close(s, swap, Completed).(moves := CompleteMoves(s.vault, id, swap, fee),
                               vault := WithoutCollateral(s.vault, id, swap))
  }

  function VerifyAndCompletePlan(s: State, id: SwapId, caller: Address, digest: Digest): Result<Change> {
    if id !in s.swaps then Err(SwapNotFound) else
    var swap := s.swaps[id];
    if caller != swap.seller then Err(OnlySellerReveal) else
    if caller.Contract? then Err(NotAuthorized) else
    if swap.status != Accepted then Err(NotAccepted) else
    if swap.ip !in s.world.ips then Err(IpNotFound) else
    if !KeyOpens(s, swap.ip, digest) then Ok(Refund(s, id, swap)) else
    var fee :- Bps(swap.price, PROTOCOL_FEE_BPS);
    Ok(Complete(s, id, swap, fee))
  }

  /** The fee is computed without looking at the sign of the price. Collateral stays where it is. */
  function ResolveDisputePlan(s: State, id: SwapId, caller: Address, refunded: bool): Result<Change> {
    if caller.Contract? then Err(NotAuthorized) else
    if s.world.admin != Some(caller) then Err(Unauthorized) else
    if id !in s.swaps then Err(SwapNotFound) else
    var swap := s.swaps[id];
    if swap.status != Disputed then Err(NotDisputed) else
    if refunded then Ok(Close(s, swap, Cancelled).(moves := Give(swap.buyer, swap.price, Done))) else
    if !Fits(swap.price * PROTOCOL_FEE_BPS) then Err(Trap) else
    var fee := TruncDiv(swap.price * PROTOCOL_FEE_BPS, 10_000);
    Ok(Close(s, swap, Completed).(moves := GiveSome(TREASURY, fee, Give(swap.seller, swap.price - fee, Done))))
  }

  function AutoResolveDisputePlan(s: State, id: SwapId): Result<Change> {
    if id !in s.swaps then Err(SwapNotFound) else
    var swap := s.swaps[id];
    if swap.status != Disputed then Err(NotDisputed) else
    if Elapsed(s.now, swap.disputedAt) < DISPUTE_TIMEOUT then Err(NotExpired) else
    Ok(Close(s, swap, Cancelled).(moves := Give(swap.buyer, swap.price, Done)))
  }

  function AutoRefundTimeoutPlan(s: State, id: SwapId): Result<Change> {
    if id !in s.swaps then Err(SwapNotFound) else
    var swap := s.swaps[id];
    if swap.status != Disputed then Err(NotDisputed) else
    if id !in s.side.arbitrationAt then Err(NotDisputed) else
    if Elapsed(s.now, s.side.arbitrationAt[id]) < ARBITRATION_TIMEOUT then Err(ArbitrationNotTimedOut) else
    Ok(Close(s, swap, Cancelled).(moves := Give(swap.buyer, swap.price, Done), logged := true,
                                  side := s.side.(arbitrationAt := s.side.arbitrationAt - {id})))
  }

  function ArbitrateMoves(v: Vault, id: SwapId, swap: SwapRecord, fee: int): Moves {
    GiveCollateral(v, id, swap, swap.seller, Give(swap.seller, swap.price - fee, GiveSome(TREASURY, fee, Done)))
  }

  /** `arbitrate_swap` takes a swap in any status, and pays the collateral before the price. */
  function ArbitratePlan(s: State, id: SwapId, arbitrator: Address, refund: bool): Result<Change> {
    if id !in s.swaps then Err(SwapNotFound) else
    var swap := s.swaps[id];
    if arbitrator.Contract? then Err(NotAuthorized) else
    if refund then Ok(Refund(s, id, swap)) else
    var fee :- Bps(swap.price, PROTOCOL_FEE_BPS);
    Ok(Close(s, swap, Completed).(moves := ArbitrateMoves(s.vault, id, swap, fee),
                                  vault := WithoutCollateral(s.vault, id, swap)))
  }

  /** The batch form tests the status, logs the outcome, and pays the collateral last. */
  function BatchArbitratePlan(s: State, id: SwapId, refund: bool): Result<Change> {
    if id !in s.swaps then Err(SwapNotFound) else
    var swap := s.swaps[id];
    if swap.status != Disputed then Err(NotDisputed) else
    if refund then Ok(Refund(s, id, swap).(logged := true)) else
    var fee :- Bps(swap.price, PROTOCOL_FEE_BPS);
    Ok(Complete(s, id, swap, fee).(logged := true))
  }

  function ArbitrateAll(s: State, ids: seq<SwapId>, refund: bool): (r: Result<State>)
    ensures r.Ok? ==> KeepsAside(s, r.value)
    decreases |ids|
  {
    if ids == [] then Ok(s) else
    var next :- Do(s, ids[0], BatchArbitratePlan(s, ids[0], refund));
    ArbitrateAll(next, ids[1..], refund)
  }

  function BatchArbitrate(s: State, ids: seq<SwapId>, arbitrator: Address, refund: bool): Result<State> {
    if arbitrator.Contract? then Err(NotAuthorized) else
    ArbitrateAll(s, ids, refund)
  }

  // ── Cancellation, refund and rollback ────────────────────────────────────

  function CancelPlan(s: State, id: SwapId, canceller: Address): Result<Change> {
    if id !in s.swaps then Err(SwapNotFound) else
    var swap := s.swaps[id];
    if canceller != swap.seller && canceller != swap.buyer then Err(OnlySellerBuyer) else
    if canceller.Contract? then Err(NotAuthorized) else
    if swap.status != Pending then Err(OnlyPending) else
    Ok(Close(s, swap, Cancelled).(logged := true, reputation := Rated(s.reputation, canceller, -10)))
  }

  function CancelAll(s: State, ids: seq<SwapId>, canceller: Address): (r: Result<State>)
    ensures r.Ok? ==> KeepsAside(s, r.value)
    decreases |ids|
  {
    if ids == [] then Ok(s) else
    var next :- Do(s, ids[0], CancelPlan(s, ids[0], canceller));
    CancelAll(next, ids[1..], canceller)
  }

  function BatchCancel(s: State, ids: seq<SwapId>, canceller: Address, reasons: nat): Result<State> {
    if canceller.Contract? then Err(NotAuthorized) else
    if reasons != |ids| then Err(InvalidKey) else
    CancelAll(s, ids, canceller)
  }

  function CancelPendingPlan(s: State, id: SwapId, caller: Address): Result<Change> {
    if id !in s.swaps then Err(SwapNotFound) else
    var swap := s.swaps[id];
    if caller != swap.buyer then Err(OnlyBuyerCancel) else
    if caller.Contract? then Err(NotAuthorized) else
    if swap.status != Pending then Err(NotPending) else
    if s.now < swap.expiry then Err(PendingNotExpired) else
    Ok(Close(s, swap, Cancelled).(logged := true))
  }

  function CancelExpiredPlan(s: State, id: SwapId, caller: Address): Result<Change> {
    if id !in s.swaps then Err(SwapNotFound) else
    var swap := s.swaps[id];
    if swap.status != Accepted then Err(NotInAccepted) else
    if caller != swap.buyer then Err(OnlyBuyerCancel) else
    if s.now <= swap.expiry then Err(NotExpired) else
    Ok(Refund(s, id, swap).(logged := true, reputation := Rated(s.reputation, swap.seller, -10)))
  }

  function EscrowWithdrawPlan(s: State, id: SwapId): Result<Change> {
    if id !in s.swaps then Err(SwapNotFound) else
    var swap := s.swaps[id];
    if swap.buyer.Contract? then Err(NotAuthorized) else
    if id !in s.side.escrowMode then Err(Unauthorized) else
    if swap.status != Accepted then Err(NotAccepted) else
    if s.now <= swap.expiry then Err(NotExpired) else
    Ok(Close(s, swap, Cancelled).(
         moves := GiveSome(swap.buyer, Lookup(s.vault.deposits, id, 0), Done),
         logged := true, vault := s.vault.(deposits := s.vault.deposits - {id})))
  }

  predicate Paid(swap: SwapRecord) {
    swap.status == Accepted || swap.status == Disputed
  }

  function RollBackMoves(v: Vault, id: SwapId, swap: SwapRecord): Moves {
    if !Paid(swap) then Done
    else
      var premium := GiveSome(swap.buyer, swap.premium, Done);
      Give(swap.buyer, swap.price, if id in v.collateral then Give(swap.buyer, Stored(v, id), premium) else premium)
  }

  function RollBackVault(v: Vault, id: SwapId, swap: SwapRecord): Vault {
    if Paid(swap) && id in v.collateral then v.(collateral := v.collateral - {id}) else v
  }

  /** Refund an Accepted or Disputed swap in full, premium included; close any other as it is. */
  function RollBack(s: State, id: SwapId, swap: SwapRecord): Change {
    Close(s, swap, Cancelled).(moves := RollBackMoves(s.vault, id, swap),
                               logged := true, vault := RollBackVault(s.vault, id, swap))
  }

  function AdminRollbackPlan(s: State, id: SwapId, caller: Address): Result<Change> {
    if caller.Contract? then Err(NotAuthorized) else
    if s.world.admin != Some(caller) then Err(Unauthorized) else
    if id !in s.swaps then Err(SwapNotFound) else
    var swap := s.swaps[id];
    if swap.status == Completed then Err(NotInAccepted) else
    Ok(RollBack(s, id, swap))
  }

  function ValidateRollbacks(s: State, ids: seq<SwapId>): (c: Check)
    ensures c.Fail? ==> !c.error.InsufficientBalance?
  {
    if ids == [] then Pass
    else if ids[0] !in s.swaps then Fail(SwapNotFound)
    else if s.swaps[ids[0]].status == Completed then Fail(NotInAccepted)
    else ValidateRollbacks(s, ids[1..])
  }

  function BatchRollbackPlan(s: State, id: SwapId): Result<Change> {
    if id !in s.swaps then Err(SwapNotFound) else
    var swap := s.swaps[id];
    Ok(RollBack(s, id, swap))
  }

  function RollBackAll(s: State, ids: seq<SwapId>): (r: Result<State>)
    ensures r.Ok? ==> KeepsAside(s, r.value)
    decreases |ids|
  {
    if ids == [] then Ok(s) else
    var next :- Do(s, ids[0], BatchRollbackPlan(s, ids[0]));
    RollBackAll(next, ids[1..])
  }

  function BatchRollback(s: State, ids: seq<SwapId>, caller: Address): Result<State> {
    if caller.Contract? then Err(NotAuthorized) else
    if s.world.admin != Some(caller) then Err(Unauthorized) else
    if ids == [] then Err(BatchEmpty) else
    if |ids| > MAX_BATCH_SIZE then Err(BatchTooLarge) else
    :- ValidateRollbacks(s, ids);
    RollBackAll(s, ids)
  }

  /** A valid key changes nothing; an invalid one returns nine tenths of a price already paid out. */
  function ValidateAndRollbackPlan(s: State, id: SwapId, keyValid: bool): Result<Change> {
    if id !in s.swaps then Err(SwapNotFound) else
    var swap := s.swaps[id];
    if swap.buyer.Contract? then Err(NotAuthorized) else
    if swap.status != Completed then Err(NotInAccepted) else
    if Elapsed(s.now, Lookup(s.side.completedAt, id, 0)) > ROLLBACK_WINDOW then Err(RollbackWindowExpired) else
    if keyValid then Ok(Edit(s, swap)) else
    if !Fits(swap.price * 90) then Err(Trap) else
    var refund := TruncDiv(swap.price * 90, 100);
    Ok(Edit(s, swap.(status := RolledBack)).(
         moves := Give(swap.buyer, refund, GiveSome(TREASURY, swap.price - refund, Done)),
         logged := true, side := s.side.(completedAt := s.side.completedAt - {id})))
  }

  function ClaimInsurancePlan(s: State, id: SwapId): Result<Change> {
    if id !in s.swaps then Err(SwapNotFound) else
    var swap := s.swaps[id];
    if swap.buyer.Contract? then Err(NotAuthorized) else
    if !swap.insured then Err(Unauthorized) else
    if id !in s.side.claimable then Err(Unauthorized) else
    var funds := Pool(s.vault, swap.token);
    var payout := if funds >= swap.price then swap.price else funds;
    Ok(Edit(s, swap).(
         moves := Give(swap.buyer, payout, Done),
         vault := s.vault.(pool := s.vault.pool[swap.token := funds - payout]),
         side := s.side.(claimable := s.side.claimable - {id})))
  }

  // ── Auctions ─────────────────────────────────────────────────────────────

  function StartAuction(s: State, token: Token, ip: IpId, seller: Address, minBid: I128, duration: nat): Result<State> {
    if s.world.paused then Err(Paused) else
    if seller.Contract? then Err(NotAuthorized) else
    if minBid <= 0 then Err(PriceTooSmall) else
    :- RequireOwnsActiveIp(s, ip, seller);
    if ip in s.house.open then Err(SwapExists) else
    if s.now + duration > U64_MAX then Err(Trap) else
    Ok(s.(house := House(
            s.house.auctions[s.house.next := Auction(ip, seller, token, minBid, 0, None,
                                                     s.now, s.now + duration, false)],
            s.house.open[ip := s.house.next],
            s.house.next + 1)))
  }

  /** The previous leader is refunded before the new bid is taken. */
  function BidMoves(auction: Auction, bidder: Address, amount: int): Moves {
    match auction.highestBidder
    case Some(leader) => Give(leader, auction.highestBid, Take(bidder, amount, Done))
    case None => Take(bidder, amount, Done)
  }

  function PlaceBid(s: State, id: AuctionId, bidder: Address, amount: I128): Result<State> {
    if bidder.Contract? then Err(NotAuthorized) else
    if id !in s.house.auctions then Err(SwapNotFound) else
    var auction := s.house.auctions[id];
    if auction.finalized then Err(AlreadyInit) else
    if s.now >= auction.endTime then Err(NotExpired) else
    if amount < auction.minBid then Err(PriceTooSmall) else
    if amount <= auction.highestBid then Err(PriceTooSmall) else
    var bank :- Settle(s.bank, auction.token, BidMoves(auction, bidder, amount));
    Ok(s.(bank := bank,
          house := s.house.(auctions := s.house.auctions[
            id := auction.(highestBid := amount, highestBidder := Some(bidder))])))
  }

  function CloseAuction(s: State, id: AuctionId, auction: Auction): State {
    s.(house := s.house.(auctions := s.house.auctions[id := auction.(finalized := true)],
                         open := s.house.open - {auction.ip}))
  }

  function WonSwap(s: State, auction: Auction, winner: Address): SwapRecord {
    NewRecord(s, auction.token, auction.ip, auction.seller, auction.highestBid, winner)
      .(status := Accepted, acceptedAt := s.now)
  }

  /** The winner's swap starts out Accepted. It is stored without taking the IP's lock. */
  function FinalizeAuction(s: State, id: AuctionId): Result<State> {
    if id !in s.house.auctions then Err(SwapNotFound) else
    var auction := s.house.auctions[id];
    if auction.finalized then Err(AlreadyInit) else
    if s.now < auction.endTime then Err(NotExpired) else
    var closed := CloseAuction(s, id, auction);
    match auction.highestBidder
    case None => Ok(closed)
    case Some(winner) => Ok(Enroll(closed, WonSwap(s, auction, winner), false, true))
  }
}

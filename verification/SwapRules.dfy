/** The rules of the calls about one stored swap, as a party would state them: who may call when, who is paid what,
    and what the call leaves behind. They are stated on the storage itself; the modules that follow prove that the
    calls obey them, each rule in both directions. */
module SwapRules {
  import opened Common
  import opened SwapState
  import opened SwapRuns

  const MINUTE := 60
  const DAY := 24 * 60 * MINUTE

  // ── Vocabulary ───────────────────────────────────────────────────────────

  predicate Satisfied(c: Condition, price: int, now: nat) {
    match c
    case KeyValid => true
    case PriceBelow(threshold) => price < threshold
    case TimeAfter(timestamp) => timestamp <= now
  }

  predicate AllSatisfied(conditions: seq<Condition>, price: int, now: nat) {
    forall i :: 0 <= i < |conditions| ==> Satisfied(conditions[i], price, now)
  }

  /** Those who have approved an offer, or have signed for a reveal. */
  function Approvers(s: State, id: SwapId): seq<Address> {
    if id in s.side.approvals then s.side.approvals[id] else []
  }

  function Signatories(s: State, id: SwapId): seq<Address> {
    if id in s.side.signatures then s.side.signatures[id] else []
  }

  /** The payments of a schedule that have been made. */
  function Flags(s: State, id: SwapId): seq<bool> {
    if id in s.side.paymentsMade then s.side.paymentsMade[id] else []
  }

  /** The reputation of an account, which starts at 50. */
  function Standing(s: State, a: Address): int {
    if a in s.reputation then s.reputation[a] else 50
  }

  /** The collateral that is there to be handed out. */
  function Collateral(s: State, id: SwapId): int
    requires id in s.swaps
  {
    if s.swaps[id].collateralAmount > 0 && id in s.vault.collateral then s.vault.collateral[id] else 0
  }

  function Insurance(s: State, t: Token): int {
    if t in s.vault.pool then s.vault.pool[t] else 0
  }

  /** What an acceptance asks for besides the price. */
  function Security(swap: SwapRecord): int {
    if swap.collateralAmount > 0 then swap.collateralAmount else 0
  }

  function PremiumDue(swap: SwapRecord): int {
    if swap.insured && swap.premium > 0 then swap.premium else 0
  }

  /** The protocol's share of a price is two and a half percent, the referrer's one percent, both rounded down. */
  function Fee(price: int): int {
    price / 40
  }

  function ReferralShare(swap: SwapRecord): int {
    if swap.referrer.Some? then swap.price / 100 else 0
  }

  function Funds(s: State, t: Token, a: Address): int {
    if (t, a) in s.bank then s.bank[(t, a)] else 0
  }

  function Log(s: State, id: SwapId): seq<HistoryEntry> {
    if id in s.history then s.history[id] else []
  }

  // ── Who may call, and when ───────────────────────────────────────────────

  predicate Is(s: State, id: SwapId, status: Status) {
    id in s.swaps && s.swaps[id].status == status
  }

  /** The buyer has signed, and has this much. */
  predicate BuyerPays(s: State, id: SwapId, amount: int)
    requires id in s.swaps
  {
    s.swaps[id].buyer.Account? && 0 <= amount <= Funds(s, s.swaps[id].token, s.swaps[id].buyer)
  }

  predicate MayAccept(s: State, id: SwapId) {
    && !s.world.paused && Is(s, id, Pending)
    && var swap := s.swaps[id];
    && |Approvers(s, id)| >= swap.requiredApprovals
    && AllSatisfied(swap.conditions, swap.price, s.now)
    && (id in s.side.minReputation ==> Standing(s, swap.buyer) >= s.side.minReputation[id])
    && !(swap.collateralAmount > 0 && id in s.vault.collateral)
    && BuyerPays(s, id, Security(swap) + swap.price + PremiumDue(swap))
    && (PremiumDue(swap) > 0 ==> Insurance(s, swap.token) + PremiumDue(swap) <= I128_MAX)
  }

  predicate MayAcceptConditional(s: State, id: SwapId, conditions: seq<Condition>) {
    && !s.world.paused && Is(s, id, Pending)
    && |Approvers(s, id)| >= s.swaps[id].requiredApprovals
    && AllSatisfied(conditions, s.swaps[id].price, s.now)
    && BuyerPays(s, id, s.swaps[id].price)
  }

  /** There is one unit to be had. */
  predicate MayAcceptPartial(s: State, id: SwapId, quantity: nat) {
    && !s.world.paused && Is(s, id, Pending)
    && quantity == 1 && BuyerPays(s, id, s.swaps[id].price)
  }

  predicate MayDeposit(s: State, id: SwapId) {
    Is(s, id, Pending) && id in s.side.escrowMode && BuyerPays(s, id, s.swaps[id].price)
  }

  predicate MaySubmit(s: State, id: SwapId, amount: I128) {
    && Is(s, id, Pending) && s.swaps[id].installment
    && 0 < amount <= s.swaps[id].price - s.swaps[id].paid && BuyerPays(s, id, amount)
  }

  predicate MayPayScheduled(s: State, id: SwapId, index: nat) {
    && id in s.swaps && id in s.side.schedules
    && index < |s.side.schedules[id]| && index < |Flags(s, id)| && !Flags(s, id)[index]
    && s.side.schedules[id][index].due <= s.now && BuyerPays(s, id, s.side.schedules[id][index].amount)
  }

  predicate MayRenegotiate(s: State, id: SwapId, price: I128) {
    !s.world.paused && Is(s, id, Pending) && s.swaps[id].seller.Account? && price > 0
  }

  predicate MayAcceptRenegotiation(s: State, id: SwapId) {
    !s.world.paused && Is(s, id, Pending) && s.swaps[id].buyer.Account? && id in s.side.offers
  }

  predicate MayExtend(s: State, id: SwapId, expiry: nat) {
    Is(s, id, Pending) && s.swaps[id].seller.Account? && s.swaps[id].expiry < expiry
  }

  predicate MayApprove(s: State, id: SwapId, approver: Address) {
    Is(s, id, Pending) && approver.Account? && approver !in Approvers(s, id)
  }

  predicate MaySetMinReputation(s: State, id: SwapId) {
    Is(s, id, Pending) && s.swaps[id].seller.Account?
  }

  predicate MaySign(s: State, id: SwapId, signer: Address) {
    && Is(s, id, Accepted) && signer.Account?
    && id in s.side.signers && signer in s.side.signers[id] && signer !in Signatories(s, id)
  }

  predicate MayRequestArbitration(s: State, id: SwapId, requester: Address) {
    && Is(s, id, Disputed) && requester.Account?
    && (requester == s.swaps[id].buyer || requester == s.swaps[id].seller)
  }

  /** Within a day of the acceptance. */
  predicate MayDispute(s: State, id: SwapId) {
    Is(s, id, Accepted) && s.swaps[id].buyer.Account? && s.now < s.swaps[id].acceptedAt + DAY
  }

  predicate KnowsIp(s: State, id: SwapId)
    requires id in s.swaps
  {
    s.swaps[id].ip in s.world.ips
  }

  predicate RightKey(s: State, id: SwapId, digest: Digest)
    requires id in s.swaps
  {
    KnowsIp(s, id) && s.world.ips[s.swaps[id].ip].commitment == digest
  }

  predicate SellerCalls(s: State, id: SwapId, caller: Address)
    requires id in s.swaps
  {
    caller.Account? && caller == s.swaps[id].seller
  }

  predicate FeeFits(price: int) {
    price * 250 <= I128_MAX
  }

  predicate MayReveal(s: State, id: SwapId, caller: Address, digest: Digest) {
    && Is(s, id, Accepted) && SellerCalls(s, id, caller) && RightKey(s, id, digest)
    && (id in s.side.signers ==> |Signatories(s, id)| >= |s.side.signers[id]|)
    && AllSatisfied(s.swaps[id].conditions, s.swaps[id].price, s.now)
    && FeeFits(s.swaps[id].price)
  }

  /** With any key: a wrong one decides the swap as well. */
  predicate MayVerify(s: State, id: SwapId, caller: Address, digest: Digest) {
    && Is(s, id, Accepted) && SellerCalls(s, id, caller) && KnowsIp(s, id)
    && (RightKey(s, id, digest) ==> FeeFits(s.swaps[id].price))
  }

  predicate AdminCalls(s: State, caller: Address) {
    caller.Account? && s.world.admin == Some(caller)
  }

  predicate MayResolve(s: State, id: SwapId, caller: Address, refunded: bool) {
    Is(s, id, Disputed) && AdminCalls(s, caller) && (refunded || FeeFits(s.swaps[id].price))
  }

  /** A week after the dispute was raised. */
  predicate MayAutoResolve(s: State, id: SwapId) {
    Is(s, id, Disputed) && s.swaps[id].disputedAt + 7 * DAY <= s.now
  }

  /** Two weeks after arbitration was asked for. */
  predicate MayAutoRefund(s: State, id: SwapId) {
    Is(s, id, Disputed) && id in s.side.arbitrationAt && s.side.arbitrationAt[id] + 14 * DAY <= s.now
  }

  /** In any status. */
  predicate MayArbitrate(s: State, id: SwapId, arbitrator: Address, refund: bool) {
    id in s.swaps && arbitrator.Account? && (refund || FeeFits(s.swaps[id].price))
  }

  predicate MayCancel(s: State, id: SwapId, caller: Address) {
    && Is(s, id, Pending) && caller.Account?
    && (caller == s.swaps[id].seller || caller == s.swaps[id].buyer)
  }

  predicate MayCancelPending(s: State, id: SwapId, caller: Address) {
    Is(s, id, Pending) && caller.Account? && caller == s.swaps[id].buyer && s.swaps[id].expiry <= s.now
  }

  predicate MayCancelExpired(s: State, id: SwapId, caller: Address) {
    Is(s, id, Accepted) && caller == s.swaps[id].buyer && s.swaps[id].expiry < s.now
  }

  predicate MayWithdraw(s: State, id: SwapId) {
    && Is(s, id, Accepted) && s.swaps[id].buyer.Account? && id in s.side.escrowMode
    && s.swaps[id].expiry < s.now
  }

  predicate MayRollBack(s: State, id: SwapId, caller: Address) {
    AdminCalls(s, caller) && id in s.swaps && s.swaps[id].status != Completed
  }

  /** Within a day of the completion that was noted, if one was. */
  predicate MayReport(s: State, id: SwapId, keyValid: bool) {
    && Is(s, id, Completed) && s.swaps[id].buyer.Account?
    && s.now <= (if id in s.side.completedAt then s.side.completedAt[id] else 0) + DAY
    && (keyValid || s.swaps[id].price * 90 <= I128_MAX)
  }

  predicate MayClaim(s: State, id: SwapId) {
    id in s.swaps && s.swaps[id].buyer.Account? && s.swaps[id].insured && id in s.side.claimable
  }

  /** All that a call needs, but for the funds that the contract itself must have. */
  predicate May(s: State, id: SwapId, act: Act) {
    match act
    case Accept => MayAccept(s, id)
    case AcceptConditional(conditions) => MayAcceptConditional(s, id, conditions)
    case AcceptPartial(quantity) => MayAcceptPartial(s, id, quantity)
    case EscrowDeposit => MayDeposit(s, id)
    case SubmitInstallment(amount) => MaySubmit(s, id, amount)
    case MakeScheduledPayment(index) => MayPayScheduled(s, id, index)
    case Renegotiate(price) => MayRenegotiate(s, id, price)
    case AcceptRenegotiation => MayAcceptRenegotiation(s, id)
    case ExtendExpiry(expiry) => MayExtend(s, id, expiry)
    case Approve(approver) => MayApprove(s, id, approver)
    case SetMinReputation(_) => MaySetMinReputation(s, id)
    case SignReveal(signer) => MaySign(s, id, signer)
    case RequestArbitration(requester) => MayRequestArbitration(s, id, requester)
    case RaiseDispute => MayDispute(s, id)
    case Reveal(caller, digest) => MayReveal(s, id, caller, digest)
    case VerifyAndComplete(caller, digest) => MayVerify(s, id, caller, digest)
    case ResolveDispute(caller, refunded) => MayResolve(s, id, caller, refunded)
    case AutoResolveDispute => MayAutoResolve(s, id)
    case AutoRefundTimeout => MayAutoRefund(s, id)
    case Arbitrate(arbitrator, refund) => MayArbitrate(s, id, arbitrator, refund)
    case Cancel(caller) => MayCancel(s, id, caller)
    case CancelPending(caller) => MayCancelPending(s, id, caller)
    case CancelExpired(caller) => MayCancelExpired(s, id, caller)
    case EscrowWithdraw => MayWithdraw(s, id)
    case AdminRollback(caller) => MayRollBack(s, id, caller)
    case ValidateAndRollback(keyValid) => MayReport(s, id, keyValid)
    case ClaimInsurance => MayClaim(s, id)
  }

  // ── Who is paid ──────────────────────────────────────────────────────────

  /** What an account gains from a price that goes to the seller, and from one that goes back to the buyer. */
  function SellerWins(swap: SwapRecord, collateral: int, a: Address): int {
    Share(a == swap.seller, swap.price - Fee(swap.price) + collateral) + Share(a == TREASURY, Fee(swap.price))
  }

  function BuyerWins(swap: SwapRecord, collateral: int, a: Address): int {
    Share(a == swap.buyer, swap.price + collateral)
  }

  function FromReveal(swap: SwapRecord, collateral: int, a: Address): int {
    Share(a == swap.seller, swap.price - Fee(swap.price) - ReferralShare(swap)) + Share(a == TREASURY, Fee(swap.price))
    + Share(swap.referrer == Some(a), ReferralShare(swap)) + Share(a == swap.buyer, collateral)
  }

  /** An administrator's rollback gives everything back, whatever the swap asked for. */
  function FromRollback(s: State, id: SwapId, a: Address): int
    requires id in s.swaps
  {
    var swap := s.swaps[id];
    var stored := if id in s.vault.collateral then s.vault.collateral[id] else 0;
    if swap.status == Accepted || swap.status == Disputed
    then Share(a == swap.buyer, swap.price + stored + (if swap.premium > 0 then swap.premium else 0))
    else 0
  }

  /** Nine tenths of a price already paid out go to the buyer, the rest to the treasury. */
  function FromReport(swap: SwapRecord, a: Address): int {
    Share(a == swap.buyer, swap.price * 9 / 10) + Share(a == TREASURY, swap.price - swap.price * 9 / 10)
  }

  function FromInsurance(s: State, swap: SwapRecord, a: Address): int {
    Share(a == swap.buyer, if Insurance(s, swap.token) < swap.price then Insurance(s, swap.token) else swap.price)
  }

  /** What a call adds to the balance of an account, in the token of the swap; a payment counts negative. */
  function Receives(s: State, id: SwapId, act: Act, a: Address): int
    requires id in s.swaps
  {
    var swap := s.swaps[id];
    match act
    case Accept => -Share(a == swap.buyer, Security(swap) + swap.price + PremiumDue(swap))
    case AcceptConditional(_) => -Share(a == swap.buyer, swap.price)
    case AcceptPartial(_) => -Share(a == swap.buyer, swap.price)
    case EscrowDeposit => -Share(a == swap.buyer, swap.price)
    case SubmitInstallment(amount) => -Share(a == swap.buyer, amount)
    case MakeScheduledPayment(index) =>
      if id in s.side.schedules && index < |s.side.schedules[id]|
      then -Share(a == swap.buyer, s.side.schedules[id][index].amount)
      else 0
    case Reveal(_, _) => FromReveal(swap, Collateral(s, id), a)
    case VerifyAndComplete(_, digest) =>
      if RightKey(s, id, digest) then SellerWins(swap, Collateral(s, id), a) else BuyerWins(swap, Collateral(s, id), a)
    case ResolveDispute(_, refunded) => if refunded then BuyerWins(swap, 0, a) else SellerWins(swap, 0, a)
    case AutoResolveDispute => BuyerWins(swap, 0, a)
    case AutoRefundTimeout => BuyerWins(swap, 0, a)
    case Arbitrate(_, refund) =>
      if refund then BuyerWins(swap, Collateral(s, id), a) else SellerWins(swap, Collateral(s, id), a)
    case CancelExpired(_) => BuyerWins(swap, Collateral(s, id), a)
    case EscrowWithdraw => Share(a == swap.buyer, if id in s.vault.deposits then s.vault.deposits[id] else 0)
    case AdminRollback(_) => FromRollback(s, id, a)
    case ValidateAndRollback(keyValid) => if keyValid then 0 else FromReport(swap, a)
    case ClaimInsurance => FromInsurance(s, swap, a)
    case _ => 0
  }

  // ── What is left behind ──────────────────────────────────────────────────

  /** All payments of a schedule have been made once this one is. */
  predicate Completes(s: State, id: SwapId, index: nat) {
    forall i :: 0 <= i < |Flags(s, id)| && i != index ==> Flags(s, id)[i]
  }

  /** The status that a call gives its swap. */
  function Becomes(s: State, id: SwapId, act: Act): Status
    requires id in s.swaps
  {
    match act
    case Accept => Accepted
    case AcceptConditional(_) => Accepted
    case AcceptPartial(_) => Accepted
    case EscrowDeposit => Accepted
    case SubmitInstallment(amount) => if s.swaps[id].paid + amount == s.swaps[id].price then Accepted else Pending
    case MakeScheduledPayment(index) => if Completes(s, id, index) then Accepted else s.swaps[id].status
    case RaiseDispute => Disputed
    case Reveal(_, _) => Completed
    case VerifyAndComplete(_, digest) => if RightKey(s, id, digest) then Completed else Cancelled
    case ResolveDispute(_, refunded) => if refunded then Cancelled else Completed
    case AutoResolveDispute => Cancelled
    case AutoRefundTimeout => Cancelled
    case Arbitrate(_, refund) => if refund then Cancelled else Completed
    case Cancel(_) => Cancelled
    case CancelPending(_) => Cancelled
    case CancelExpired(_) => Cancelled
    case EscrowWithdraw => Cancelled
    case AdminRollback(_) => Cancelled
    case ValidateAndRollback(keyValid) => if keyValid then Completed else RolledBack
    case _ => s.swaps[id].status
  }

  /** The calls that accept: the clock of the dispute window starts. */
  predicate Accepts(s: State, id: SwapId, act: Act)
    requires id in s.swaps
  {
    || act.Accept? || act.AcceptConditional? || act.AcceptPartial? || act.EscrowDeposit?
    || (act.SubmitInstallment? && s.swaps[id].paid + act.amount == s.swaps[id].price)
    || (act.MakeScheduledPayment? && Completes(s, id, act.index))
  }

  /** The record that a call leaves. What is not named here stays as it was. */
  function Updated(s: State, id: SwapId, act: Act): SwapRecord
    requires id in s.swaps
  {
    var swap := s.swaps[id];
    swap.(
      status := Becomes(s, id, act),
      acceptedAt := if Accepts(s, id, act) then s.now else swap.acceptedAt,
      disputedAt := if act.RaiseDispute? then s.now else swap.disputedAt,
      conditions := if act.AcceptConditional? then act.conditions else swap.conditions,
      paid := if act.SubmitInstallment? then swap.paid + act.amount else swap.paid,
      expiry := if act.ExtendExpiry? then act.expiry else swap.expiry,
      price := if act.AcceptRenegotiation? && id in s.side.offers then s.side.offers[id] else swap.price)
  }

  /** The calls that write the new status into the history of the swap. */
  predicate Writes(s: State, id: SwapId, act: Act)
    requires id in s.swaps
  {
    || Accepts(s, id, act) || act.Reveal? || act.AutoRefundTimeout? || act.Cancel? || act.CancelPending?
    || act.CancelExpired? || act.EscrowWithdraw? || act.AdminRollback? || (act.ValidateAndRollback? && !act.keyValid)
  }

  /** The calls that hand out the collateral of their swap, if there is any. */
  predicate HandsOut(act: Act) {
    act.Reveal? || act.VerifyAndComplete? || act.Arbitrate? || act.CancelExpired?
  }

  /** The entries of money held, afterwards: collateral and deposit of the swap, and the insurance of its token. */
  function CollateralAfter(s: State, id: SwapId, act: Act): map<SwapId, int>
    requires id in s.swaps
  {
    var swap := s.swaps[id];
    if act.Accept? && swap.collateralAmount > 0 then s.vault.collateral[id := swap.collateralAmount]
    else if HandsOut(act) && swap.collateralAmount > 0 then s.vault.collateral - {id}
    else if act.AdminRollback? && (swap.status == Accepted || swap.status == Disputed) then s.vault.collateral - {id}
    else s.vault.collateral
  }

  function DepositsAfter(s: State, id: SwapId, act: Act): map<SwapId, int>
    requires id in s.swaps
  {
    if act.EscrowDeposit? then s.vault.deposits[id := s.swaps[id].price]
    else if act.EscrowWithdraw? then s.vault.deposits - {id}
    else s.vault.deposits
  }

  function InsuranceAfter(s: State, id: SwapId, act: Act): int
    requires id in s.swaps
  {
    var swap := s.swaps[id];
    if act.Accept? then Insurance(s, swap.token) + PremiumDue(swap)
    else if act.ClaimInsurance? then Insurance(s, swap.token) - FromInsurance(s, swap, swap.buyer)
    else Insurance(s, swap.token)
  }

  /** The other entries of the swap, afterwards. */
  function EntriesAfter(s: State, id: SwapId, act: Act): Side
    requires id in s.swaps
  {
    var side := s.side;
    match act
    case MakeScheduledPayment(index) =>
      if index < |Flags(s, id)|
      then side.(paymentsMade := side.paymentsMade[id := Flags(s, id)[index := true]])
      else side
    case Renegotiate(price) => side.(offers := side.offers[id := price])
    case AcceptRenegotiation => side.(offers := side.offers - {id})
    case Approve(approver) => side.(approvals := side.approvals[id := Approvers(s, id) + [approver]])
    case SetMinReputation(minimum) => side.(minReputation := side.minReputation[id := minimum])
    case SignReveal(signer) => side.(signatures := side.signatures[id := Signatories(s, id) + [signer]])
    case RequestArbitration(_) =>
      if id in side.arbitrationAt then side else side.(arbitrationAt := side.arbitrationAt[id := s.now])
    case AutoRefundTimeout => side.(arbitrationAt := side.arbitrationAt - {id})
    case Reveal(_, _) => side.(completedAt := side.completedAt[id := s.now])
    case ValidateAndRollback(keyValid) => if keyValid then side else side.(completedAt := side.completedAt - {id})
    case ClaimInsurance => side.(claimable := side.claimable - {id})
    case _ => side
  }

  /** What a call earns or costs a party: five points each for a reveal, ten for whoever cancels an offer, and ten
      for a seller whose buyer has to cancel. */
  function Earns(s: State, id: SwapId, act: Act, a: Address): int
    requires id in s.swaps
  {
    match act
    case Reveal(_, _) => Share(a == s.swaps[id].seller, 5) + Share(a == s.swaps[id].buyer, 5)
    case Cancel(caller) => -Share(a == caller, 10)
    case CancelExpired(_) => -Share(a == s.swaps[id].seller, 10)
    case _ => 0
  }

  /** Reputations that are touched stay within 0 and 100. */
  function StandingAfter(s: State, id: SwapId, act: Act, a: Address): int
    requires id in s.swaps
  {
    var next := Standing(s, a) + Earns(s, id, act, a);
    if Earns(s, id, act, a) == 0 then Standing(s, a) else if next < 0 then 0 else if next > 100 then 100 else next
  }
}

/** Calls on the atomic swap contract as data, and runs of them. */
module SwapRuns {
  import opened Common
  import opened SwapState
  import opened SwapSpec

  /** A call about one stored swap. */
  datatype Act =
    | Accept
    | AcceptConditional(conditions: seq<Condition>)
    | AcceptPartial(quantity: nat)
    | EscrowDeposit
    | SubmitInstallment(amount: I128)
    | MakeScheduledPayment(index: nat)
    | Renegotiate(price: I128)
    | AcceptRenegotiation
    | ExtendExpiry(expiry: nat)
    | Approve(approver: Address)
    | SetMinReputation(minimum: nat)
    | SignReveal(signer: Address)
    | RequestArbitration(requester: Address)
    | RaiseDispute
    | Reveal(caller: Address, digest: Digest)
    | VerifyAndComplete(caller: Address, digest: Digest)
    | ResolveDispute(caller: Address, refunded: bool)
    | AutoResolveDispute
    | AutoRefundTimeout
    | Arbitrate(arbitrator: Address, refund: bool)
    | Cancel(caller: Address)
    | CancelPending(caller: Address)
    | CancelExpired(caller: Address)
    | EscrowWithdraw
    | AdminRollback(caller: Address)
    | ValidateAndRollback(keyValid: bool)
    | ClaimInsurance

  datatype Op =
    | Surround(now: nat, bank: Bank, world: World, claimable: set<SwapId>)
    | On(id: SwapId, act: Act)
    | Initiate(terms: Terms)
    | InitiateWithSchedule(token: Token, ip: IpId, seller: Address, schedule: seq<Payment>, buyer: Address)
    | InitiateWithSigners(token: Token, ip: IpId, seller: Address, price: I128, buyer: Address, required: seq<Address>)
    | InitiateEscrow(token: Token, ip: IpId, seller: Address, price: I128, buyer: Address, timeout: nat)
    | BatchInitiate(batch: BatchTerms, ips: seq<IpId>, prices: seq<I128>)
    | BatchInitiateWithInsurance(batch: BatchTerms, ips: seq<IpId>, prices: seq<I128>, insured: bool)
    | BatchInitiateEscrow(token: Token, ips: seq<IpId>, seller: Address,
                          prices: seq<I128>, buyer: Address, timeouts: seq<nat>)
    | BatchEscrowDeposit(ids: seq<SwapId>, buyer: Address)
    | BatchAccept(ids: seq<SwapId>, buyer: Address)
    | BatchReveal(ids: seq<SwapId>, digests: seq<Digest>, seller: Address)
    | BatchArbitrate(ids: seq<SwapId>, arbitrator: Address, refund: bool)
    | BatchCancel(ids: seq<SwapId>, caller: Address, reasons: nat)
    | BatchRollback(ids: seq<SwapId>, caller: Address)
    | StartAuction(token: Token, ip: IpId, seller: Address, minBid: I128, duration: nat)
    | PlaceBid(auction: AuctionId, bidder: Address, amount: I128)
    | FinalizeAuction(auction: AuctionId)

  /** The calls up to the moment a swap is settled. */
  predicate Prepares(act: Act) {
    || act.Accept? || act.AcceptConditional? || act.AcceptPartial? || act.EscrowDeposit? || act.SubmitInstallment?
    || act.MakeScheduledPayment? || act.Renegotiate? || act.AcceptRenegotiation? || act.ExtendExpiry? || act.Approve?
    || act.SetMinReputation? || act.SignReveal?
  }

  function Plan(s: State, id: SwapId, act: Act): Result<Change> {
    match act
    case Accept => AcceptPlan(s, id)
    case AcceptConditional(conditions) => AcceptConditionalPlan(s, id, conditions)
    case AcceptPartial(quantity) => AcceptPartialPlan(s, id, quantity)
    case EscrowDeposit => EscrowDepositPlan(s, id)
    case SubmitInstallment(amount) => SubmitInstallmentPlan(s, id, amount)
    case MakeScheduledPayment(index) => ScheduledPaymentPlan(s, id, index)
    case Renegotiate(price) => RenegotiatePlan(s, id, price)
    case AcceptRenegotiation => AcceptRenegotiationPlan(s, id)
    case ExtendExpiry(expiry) => ExtendExpiryPlan(s, id, expiry)
    case Approve(approver) => ApprovePlan(s, id, approver)
    case SetMinReputation(minimum) => SetMinReputationPlan(s, id, minimum)
    case SignReveal(signer) => SignRevealPlan(s, id, signer)
    case RequestArbitration(requester) => RequestArbitrationPlan(s, id, requester)
    case RaiseDispute => RaiseDisputePlan(s, id)
    case Reveal(caller, digest) => RevealPlan(s, id, caller, digest)
    case VerifyAndComplete(caller, digest) => VerifyAndCompletePlan(s, id, caller, digest)
    case ResolveDispute(caller, refunded) => ResolveDisputePlan(s, id, caller, refunded)
    case AutoResolveDispute => AutoResolveDisputePlan(s, id)
    case AutoRefundTimeout => AutoRefundTimeoutPlan(s, id)
    case Arbitrate(arbitrator, refund) => ArbitratePlan(s, id, arbitrator, refund)
    case Cancel(caller) => CancelPlan(s, id, caller)
    case CancelPending(caller) => CancelPendingPlan(s, id, caller)
    case CancelExpired(caller) => CancelExpiredPlan(s, id, caller)
    case EscrowWithdraw => EscrowWithdrawPlan(s, id)
    case AdminRollback(caller) => AdminRollbackPlan(s, id, caller)
    case ValidateAndRollback(keyValid) => ValidateAndRollbackPlan(s, id, keyValid)
    case ClaimInsurance => ClaimInsurancePlan(s, id)
  }

  /** One call. Between calls the rest of the ledger may do what `Surround` says: time passes,
      the registry and the switches change, and other holders move their tokens. */
  function Step(s: State, op: Op): Result<State> {
    match op
    case Surround(now, bank, world, claimable) =>
      Ok(s.(now := now, bank := bank, world := world, side := s.side.(claimable := claimable)))
    case On(id, act) => Do(s, id, Plan(s, id, act))
    case Initiate(t) => InitiateSwap(s, t)
    case InitiateWithSchedule(token, ip, seller, schedule, buyer) =>
      SwapSpec.InitiateWithSchedule(s, token, ip, seller, schedule, buyer)
    case InitiateWithSigners(token, ip, seller, price, buyer, required) =>
      SwapSpec.InitiateWithSigners(s, token, ip, seller, price, buyer, required)
    case InitiateEscrow(token, ip, seller, price, buyer, timeout) =>
      SwapSpec.InitiateEscrow(s, token, ip, seller, price, buyer, timeout)
    case BatchInitiate(b, ips, prices) => SwapSpec.BatchInitiate(s, b, ips, prices)
    case BatchInitiateWithInsurance(b, ips, prices, insured) =>
      SwapSpec.BatchInitiateWithInsurance(s, b, ips, prices, insured)
    case BatchInitiateEscrow(token, ips, seller, prices, buyer, timeouts) =>
      SwapSpec.BatchInitiateEscrow(s, token, ips, seller, prices, buyer, timeouts)
    case BatchEscrowDeposit(ids, buyer) => SwapSpec.BatchEscrowDeposit(s, ids, buyer)
    case BatchAccept(ids, buyer) => SwapSpec.BatchAccept(s, ids, buyer)
    case BatchReveal(ids, digests, seller) => SwapSpec.BatchReveal(s, ids, digests, seller)
    case BatchArbitrate(ids, arbitrator, refund) => SwapSpec.BatchArbitrate(s, ids, arbitrator, refund)
    case BatchCancel(ids, caller, reasons) => SwapSpec.BatchCancel(s, ids, caller, reasons)
    case BatchRollback(ids, caller) => SwapSpec.BatchRollback(s, ids, caller)
    case StartAuction(token, ip, seller, minBid, duration) =>
      SwapSpec.StartAuction(s, token, ip, seller, minBid, duration)
    case PlaceBid(auction, bidder, amount) => SwapSpec.PlaceBid(s, auction, bidder, amount)
    case FinalizeAuction(auction) => SwapSpec.FinalizeAuction(s, auction)
  }

  /** A refused call leaves the ledger as it was. */
  function After(s: State, op: Op): State {
    match Step(s, op)
    case Ok(next) => next
    case Err(_) => s
  }

  /** The state a list of calls ends in. */
  function Run(s: State, ops: seq<Op>): State {
    if ops == [] then s else After(Run(s, ops[..|ops| - 1]), ops[|ops| - 1])
  }
}

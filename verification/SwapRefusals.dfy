/** When a call about one stored swap is refused, the error that it raises is true. */
module SwapRefusals {
  import opened Common
  import opened SwapState
  import opened SwapSpec
  import opened SwapClaims
  import opened SwapRuns
  import opened SwapMoney
  import opened SwapActs
  import opened SwapBatches
  import opened SwapRules
  import opened SwapAdmission

  // ── What the errors mean ─────────────────────────────────────────────────
  //
  // One predicate a call: the errors that it can raise, and what each of them says. Nobody can sign for the contract,
  // so `NotAuthorized` says that the party that has to sign is the contract.

  predicate Missing(s: State, id: SwapId) {
    id !in s.swaps
  }

  predicate Not(s: State, id: SwapId, status: Status) {
    id in s.swaps && s.swaps[id].status != status
  }

  predicate NoBuyer(s: State, id: SwapId) {
    id in s.swaps && s.swaps[id].buyer == Contract
  }

  predicate NoSeller(s: State, id: SwapId) {
    id in s.swaps && s.swaps[id].seller == Contract
  }

  /** The buyer has less than he is asked for. */
  predicate Lacks(s: State, id: SwapId, who: Address, amount: int) {
    id in s.swaps && who == s.swaps[id].buyer && Funds(s, s.swaps[id].token, who) < amount
  }

  predicate Unapproved(s: State, id: SwapId) {
    id in s.swaps && |Approvers(s, id)| < s.swaps[id].requiredApprovals
  }

  predicate AcceptSays(s: State, id: SwapId, e: Error) {
    || (e == Paused && s.world.paused)
    || (e == SwapNotFound && Missing(s, id))
    || (e == NotAuthorized && NoBuyer(s, id))
    || (e == NotPending && Not(s, id, Pending))
    || (e == NeedApprovals && Unapproved(s, id))
    || (e == ConditionNotMet && id in s.swaps && !AllSatisfied(s.swaps[id].conditions, s.swaps[id].price, s.now))
    || (e == InsufficientReputation && id in s.swaps && id in s.side.minReputation
        && Standing(s, s.swaps[id].buyer) < s.side.minReputation[id])
    || (e == AlreadyInit && id in s.swaps && s.swaps[id].collateralAmount > 0 && id in s.vault.collateral)
    || (e == Trap && id in s.swaps && PremiumDue(s.swaps[id]) > 0
        && Insurance(s, s.swaps[id].token) + PremiumDue(s.swaps[id]) > I128_MAX)
    || (e.InsufficientBalance? && id in s.swaps
        && Lacks(s, id, e.who, Security(s.swaps[id]) + s.swaps[id].price + PremiumDue(s.swaps[id])))
  }

  predicate AcceptConditionalSays(s: State, id: SwapId, conditions: seq<Condition>, e: Error) {
    || (e == Paused && s.world.paused)
    || (e == SwapNotFound && Missing(s, id))
    || (e == NotAuthorized && NoBuyer(s, id))
    || (e == NotPending && Not(s, id, Pending))
    || (e == NeedApprovals && Unapproved(s, id))
    || (e == ConditionNotMet && id in s.swaps && !AllSatisfied(conditions, s.swaps[id].price, s.now))
    || (e.InsufficientBalance? && id in s.swaps && Lacks(s, id, e.who, s.swaps[id].price))
  }

  predicate AcceptPartialSays(s: State, id: SwapId, quantity: nat, e: Error) {
    || (e == Paused && s.world.paused)
    || (e == SwapNotFound && Missing(s, id))
    || (e == NotAuthorized && NoBuyer(s, id))
    || (e == NotPending && Not(s, id, Pending))
    || (e == InvalidKey && quantity != 1)
    || (e.InsufficientBalance? && id in s.swaps && Lacks(s, id, e.who, s.swaps[id].price))
  }

  predicate DepositSays(s: State, id: SwapId, e: Error) {
    || (e == SwapNotFound && Missing(s, id))
    || (e == NotAuthorized && NoBuyer(s, id))
    || (e == Unauthorized && id !in s.side.escrowMode)
    || (e == NotPending && Not(s, id, Pending))
    || (e.InsufficientBalance? && id in s.swaps && Lacks(s, id, e.who, s.swaps[id].price))
  }

  predicate SubmitSays(s: State, id: SwapId, amount: I128, e: Error) {
    || (e == SwapNotFound && Missing(s, id))
    || (e == NotAuthorized && NoBuyer(s, id))
    || (e == NotPending && (Not(s, id, Pending) || (id in s.swaps && !s.swaps[id].installment)))
    || (e == PriceTooSmall && id in s.swaps && !(0 < amount <= s.swaps[id].price - s.swaps[id].paid))
    || (e.InsufficientBalance? && Lacks(s, id, e.who, amount))
  }

  predicate ScheduledSays(s: State, id: SwapId, index: nat, e: Error) {
    var listed := id in s.side.schedules && index < |s.side.schedules[id]|;
    || (e == SwapNotFound && (Missing(s, id) || id !in s.side.schedules))
    || (e == NotAuthorized && NoBuyer(s, id))
    || (e == InvalidKey && id in s.side.schedules && index >= |s.side.schedules[id]|)
    || (e == AlreadyInit && index < |Flags(s, id)| && Flags(s, id)[index])
    || (e == NotExpired && listed && s.now < s.side.schedules[id][index].due)
    || (e == Trap && index >= |Flags(s, id)|)
    || (e == NegativeAmount && listed && s.side.schedules[id][index].amount < 0)
    || (e.InsufficientBalance? && listed && Lacks(s, id, e.who, s.side.schedules[id][index].amount))
  }

  predicate RenegotiateSays(s: State, id: SwapId, price: I128, e: Error) {
    || (e == Paused && s.world.paused)
    || (e == SwapNotFound && Missing(s, id))
    || (e == NotPending && Not(s, id, Pending))
    || (e == NotAuthorized && NoSeller(s, id))
    || (e == PriceTooSmall && price <= 0)
  }

  predicate AcceptRenegotiationSays(s: State, id: SwapId, e: Error) {
    || (e == Paused && s.world.paused)
    || (e == SwapNotFound && (Missing(s, id) || id !in s.side.offers))
    || (e == NotPending && Not(s, id, Pending))
    || (e == NotAuthorized && NoBuyer(s, id))
  }

  predicate ExtendSays(s: State, id: SwapId, expiry: nat, e: Error) {
    || (e == SwapNotFound && Missing(s, id))
    || (e == NotAuthorized && NoSeller(s, id))
    || (e == NotPending && Not(s, id, Pending))
    || (e == ExpiryNotGreater && id in s.swaps && expiry <= s.swaps[id].expiry)
  }

  predicate ApproveSays(s: State, id: SwapId, approver: Address, e: Error) {
    || (e == NotAuthorized && approver == Contract)
    || (e == SwapNotFound && Missing(s, id))
    || (e == NotPending && Not(s, id, Pending))
    || (e == AlreadyApproved && approver in Approvers(s, id))
  }

  predicate SetMinReputationSays(s: State, id: SwapId, e: Error) {
    || (e == SwapNotFound && Missing(s, id))
    || (e == NotAuthorized && NoSeller(s, id))
    || (e == NotPending && Not(s, id, Pending))
  }

  predicate SignSays(s: State, id: SwapId, signer: Address, e: Error) {
    || (e == NotAuthorized && signer == Contract)
    || (e == SwapNotFound && Missing(s, id))
    || (e == NotAccepted && Not(s, id, Accepted))
    || (e == Unauthorized && id !in s.side.signers)
    || (e == NotARequiredSigner && id in s.side.signers && signer !in s.side.signers[id])
    || (e == AlreadySigned && signer in Signatories(s, id))
  }

  predicate RequestArbitrationSays(s: State, id: SwapId, requester: Address, e: Error) {
    || (e == SwapNotFound && Missing(s, id))
    || (e == NotAuthorized && requester == Contract)
    || (e == Unauthorized && id in s.swaps && requester != s.swaps[id].buyer && requester != s.swaps[id].seller)
    || (e == NotDisputed && Not(s, id, Disputed))
  }

  predicate RaiseDisputeSays(s: State, id: SwapId, e: Error) {
    || (e == SwapNotFound && Missing(s, id))
    || (e == NotAuthorized && NoBuyer(s, id))
    || (e == NotAccepted && Not(s, id, Accepted))
    || (e == DisputeExpired && id in s.swaps && s.swaps[id].acceptedAt + DAY <= s.now)
  }

  predicate RevealSays(s: State, id: SwapId, caller: Address, digest: Digest, e: Error) {
    || (e == SwapNotFound && Missing(s, id))
    || (e == OnlySellerReveal && id in s.swaps && caller != s.swaps[id].seller)
    || (e == NotAuthorized && caller == Contract)
    || (e == NotAccepted && Not(s, id, Accepted))
    || (e == NotAllSigned && id in s.side.signers && |Signatories(s, id)| < |s.side.signers[id]|)
    || (e == IpNotFound && id in s.swaps && !KnowsIp(s, id))
    || (e == InvalidKey && id in s.swaps && !RightKey(s, id, digest))
    || (e == ConditionNotMet && id in s.swaps && !AllSatisfied(s.swaps[id].conditions, s.swaps[id].price, s.now))
    || (e == Trap && id in s.swaps && !FeeFits(s.swaps[id].price))
    || (e.InsufficientBalance? && e.who == Contract)
  }

  predicate VerifySays(s: State, id: SwapId, caller: Address, digest: Digest, e: Error) {
    || (e == SwapNotFound && Missing(s, id))
    || (e == OnlySellerReveal && id in s.swaps && caller != s.swaps[id].seller)
    || (e == NotAuthorized && caller == Contract)
    || (e == NotAccepted && Not(s, id, Accepted))
    || (e == IpNotFound && id in s.swaps && !KnowsIp(s, id))
    || (e == Trap && id in s.swaps && RightKey(s, id, digest) && !FeeFits(s.swaps[id].price))
    || (e.InsufficientBalance? && e.who == Contract)
  }

  predicate ResolveSays(s: State, id: SwapId, caller: Address, refunded: bool, e: Error) {
    || (e == NotAuthorized && caller == Contract)
    || (e == Unauthorized && s.world.admin != Some(caller))
    || (e == SwapNotFound && Missing(s, id))
    || (e == NotDisputed && Not(s, id, Disputed))
    || (e == Trap && id in s.swaps && !refunded && !FeeFits(s.swaps[id].price))
    || (e.InsufficientBalance? && e.who == Contract)
  }

  predicate AutoResolveSays(s: State, id: SwapId, e: Error) {
    || (e == SwapNotFound && Missing(s, id))
    || (e == NotDisputed && Not(s, id, Disputed))
    || (e == NotExpired && id in s.swaps && s.now < s.swaps[id].disputedAt + 7 * DAY)
    || (e.InsufficientBalance? && e.who == Contract)
  }

  predicate AutoRefundSays(s: State, id: SwapId, e: Error) {
    || (e == SwapNotFound && Missing(s, id))
    || (e == NotDisputed && (Not(s, id, Disputed) || id !in s.side.arbitrationAt))
    || (e == ArbitrationNotTimedOut && id in s.side.arbitrationAt && s.now < s.side.arbitrationAt[id] + 14 * DAY)
    || (e.InsufficientBalance? && e.who == Contract)
  }

  predicate ArbitrateSays(s: State, id: SwapId, arbitrator: Address, refund: bool, e: Error) {
    || (e == SwapNotFound && Missing(s, id))
    || (e == NotAuthorized && arbitrator == Contract)
    || (e == Trap && id in s.swaps && !refund && !FeeFits(s.swaps[id].price))
    || (e.InsufficientBalance? && e.who == Contract)
  }

  predicate CancelSays(s: State, id: SwapId, caller: Address, e: Error) {
    || (e == SwapNotFound && Missing(s, id))
    || (e == OnlySellerBuyer && id in s.swaps && caller != s.swaps[id].seller && caller != s.swaps[id].buyer)
    || (e == NotAuthorized && caller == Contract)
    || (e == OnlyPending && Not(s, id, Pending))
  }

  predicate CancelPendingSays(s: State, id: SwapId, caller: Address, e: Error) {
    || (e == SwapNotFound && Missing(s, id))
    || (e == OnlyBuyerCancel && id in s.swaps && caller != s.swaps[id].buyer)
    || (e == NotAuthorized && caller == Contract)
    || (e == NotPending && Not(s, id, Pending))
    || (e == PendingNotExpired && id in s.swaps && s.now < s.swaps[id].expiry)
  }

  predicate CancelExpiredSays(s: State, id: SwapId, caller: Address, e: Error) {
    || (e == SwapNotFound && Missing(s, id))
    || (e == NotInAccepted && Not(s, id, Accepted))
    || (e == OnlyBuyerCancel && id in s.swaps && caller != s.swaps[id].buyer)
    || (e == NotExpired && id in s.swaps && s.now <= s.swaps[id].expiry)
    || (e.InsufficientBalance? && e.who == Contract)
  }

  predicate WithdrawSays(s: State, id: SwapId, e: Error) {
    || (e == SwapNotFound && Missing(s, id))
    || (e == NotAuthorized && NoBuyer(s, id))
    || (e == Unauthorized && id !in s.side.escrowMode)
    || (e == NotAccepted && Not(s, id, Accepted))
    || (e == NotExpired && id in s.swaps && s.now <= s.swaps[id].expiry)
    || (e.InsufficientBalance? && e.who == Contract)
  }

  predicate RollbackSays(s: State, id: SwapId, caller: Address, e: Error) {
    || (e == NotAuthorized && caller == Contract)
    || (e == Unauthorized && s.world.admin != Some(caller))
    || (e == SwapNotFound && Missing(s, id))
    || (e == NotInAccepted && Is(s, id, Completed))
    || (e.InsufficientBalance? && e.who == Contract)
  }

  predicate ReportSays(s: State, id: SwapId, keyValid: bool, e: Error) {
    || (e == SwapNotFound && Missing(s, id))
    || (e == NotAuthorized && NoBuyer(s, id))
    || (e == NotInAccepted && Not(s, id, Completed))
    || (e == RollbackWindowExpired && s.now > (if id in s.side.completedAt then s.side.completedAt[id] else 0) + DAY)
    || (e == Trap && id in s.swaps && !keyValid && s.swaps[id].price * 90 > I128_MAX)
    || (e.InsufficientBalance? && e.who == Contract)
  }

  predicate ClaimSays(s: State, id: SwapId, e: Error) {
    || (e == SwapNotFound && Missing(s, id))
    || (e == NotAuthorized && NoBuyer(s, id))
    || (e == Unauthorized && id in s.swaps && !(s.swaps[id].insured && id in s.side.claimable))
    || (e.InsufficientBalance? && e.who == Contract)
  }

  // What an error of a call says, kind by kind: payments, changes of an offer, decisions, and the rest.

  predicate Edits(act: Act) {
    act.Renegotiate? || act.AcceptRenegotiation? || act.ExtendExpiry? || act.Approve? || act.SetMinReputation?
    || act.SignReveal?
  }

  predicate Decides(act: Act) {
    act.Reveal? || act.VerifyAndComplete? || act.ResolveDispute? || act.AutoResolveDispute? || act.AutoRefundTimeout?
    || act.Arbitrate?
  }

  predicate PaymentSays(s: State, id: SwapId, act: Act, e: Error) {
    match act
    case Accept => AcceptSays(s, id, e)
    case AcceptConditional(conditions) => AcceptConditionalSays(s, id, conditions, e)
    case AcceptPartial(quantity) => AcceptPartialSays(s, id, quantity, e)
    case EscrowDeposit => DepositSays(s, id, e)
    case SubmitInstallment(amount) => SubmitSays(s, id, amount, e)
    case MakeScheduledPayment(index) => ScheduledSays(s, id, index, e)
    case _ => false
  }

  predicate EditSays(s: State, id: SwapId, act: Act, e: Error) {
    match act
    case Renegotiate(price) => RenegotiateSays(s, id, price, e)
    case AcceptRenegotiation => AcceptRenegotiationSays(s, id, e)
    case ExtendExpiry(expiry) => ExtendSays(s, id, expiry, e)
    case Approve(approver) => ApproveSays(s, id, approver, e)
    case SetMinReputation(_) => SetMinReputationSays(s, id, e)
    case SignReveal(signer) => SignSays(s, id, signer, e)
    case _ => false
  }

  predicate DecisionSays(s: State, id: SwapId, act: Act, e: Error) {
    match act
    case Reveal(caller, digest) => RevealSays(s, id, caller, digest, e)
    case VerifyAndComplete(caller, digest) => VerifySays(s, id, caller, digest, e)
    case ResolveDispute(caller, refunded) => ResolveSays(s, id, caller, refunded, e)
    case AutoResolveDispute => AutoResolveSays(s, id, e)
    case AutoRefundTimeout => AutoRefundSays(s, id, e)
    case Arbitrate(arbitrator, refund) => ArbitrateSays(s, id, arbitrator, refund, e)
    case _ => false
  }

  predicate EndingSays(s: State, id: SwapId, act: Act, e: Error) {
    match act
    case RequestArbitration(requester) => RequestArbitrationSays(s, id, requester, e)
    case RaiseDispute => RaiseDisputeSays(s, id, e)
    case Cancel(caller) => CancelSays(s, id, caller, e)
    case CancelPending(caller) => CancelPendingSays(s, id, caller, e)
    case CancelExpired(caller) => CancelExpiredSays(s, id, caller, e)
    case EscrowWithdraw => WithdrawSays(s, id, e)
    case AdminRollback(caller) => RollbackSays(s, id, caller, e)
    case ValidateAndRollback(keyValid) => ReportSays(s, id, keyValid, e)
    case ClaimInsurance => ClaimSays(s, id, e)
    case _ => false
  }

  /** What an error of a call says. */
  predicate Says(s: State, id: SwapId, act: Act, e: Error) {
    if Edits(act) then EditSays(s, id, act, e)
    else if Prepares(act) then PaymentSays(s, id, act, e)
    else if Decides(act) then DecisionSays(s, id, act, e)
    else EndingSays(s, id, act, e)
  }

  // ── Calls that take money ────────────────────────────────────────────────

  lemma AcceptChecked(s: State, id: SwapId)
    requires AcceptPlan(s, id).Err?
    ensures AcceptSays(s, id, AcceptPlan(s, id).error)
  {
    if id in s.swaps {
      HoldsSatisfied(s.swaps[id].conditions, s.swaps[id].price, s.now);
    }
  }

  lemma AcceptPlanMoves(s: State, id: SwapId)
    requires AcceptPlan(s, id).Ok?
    ensures id in s.swaps && s.swaps[id].buyer.Account?
    ensures var swap, c := s.swaps[id], AcceptPlan(s, id).value;
            c.swap.token == swap.token && c.moves == AcceptMoves(s.vault, swap, swap.collateralAmount > 0)
  {
  }

  /** It lacks the money, or the premium does not fit into the pool. */
  predicate CannotPay(s: State, id: SwapId, e: Error)
    requires id in s.swaps
  {
    var swap := s.swaps[id];
    || (e == InsufficientBalance(swap.buyer)
        && Lacks(s, id, swap.buyer, Security(swap) + swap.price + PremiumDue(swap)))
    || (e == Trap && PremiumDue(swap) > 0 && Insurance(s, swap.token) + PremiumDue(swap) > I128_MAX)
  }

  lemma AcceptCannotPay(s: State, id: SwapId)
    requires Local(s, id) && id in s.swaps && s.swaps[id].buyer.Account?
    requires Settle(s.bank, s.swaps[id].token,
                    AcceptMoves(s.vault, s.swaps[id], s.swaps[id].collateralAmount > 0)).Err?
    ensures CannotPay(s, id, Settle(s.bank, s.swaps[id].token,
                                    AcceptMoves(s.vault, s.swaps[id], s.swaps[id].collateralAmount > 0)).error)
  {
    var swap := s.swaps[id];
    AcceptAsks(s.vault, swap);
    TakesRefused(s.bank, swap.token, AcceptMoves(s.vault, swap, swap.collateralAmount > 0), swap.buyer);
  }

  lemma AcceptUnpaid(s: State, id: SwapId)
    requires Local(s, id) && AcceptPlan(s, id).Ok? && Do(s, id, AcceptPlan(s, id)).Err?
    ensures AcceptSays(s, id, Do(s, id, AcceptPlan(s, id)).error)
  {
    AcceptPlanMoves(s, id);
    AcceptCannotPay(s, id);
  }

  lemma AcceptRefused(s: State, id: SwapId)
    requires Local(s, id) && Do(s, id, AcceptPlan(s, id)).Err?
    ensures AcceptSays(s, id, Do(s, id, AcceptPlan(s, id)).error)
  {
    if AcceptPlan(s, id).Err? {
      AcceptChecked(s, id);
    } else {
      AcceptUnpaid(s, id);
    }
  }

  /** A single payment that is not negative can only lack the funds. */
  lemma OneTakeRefused(s: State, id: SwapId, plan: Result<Change>, amount: nat)
    requires id in s.swaps && plan.Ok? && plan.value.swap.token == s.swaps[id].token && s.swaps[id].buyer.Account?
    requires plan.value.moves == Take(s.swaps[id].buyer, amount, Done) && Do(s, id, plan).Err?
    ensures Do(s, id, plan).error == InsufficientBalance(s.swaps[id].buyer)
    ensures Lacks(s, id, s.swaps[id].buyer, amount)
  {
    TakesRefused(s.bank, plan.value.swap.token, plan.value.moves, s.swaps[id].buyer);
    assert Asked(plan.value.moves) == amount && Passable(plan.value.moves);
  }

  lemma AcceptConditionalRefused(s: State, id: SwapId, conditions: seq<Condition>)
    requires Local(s, id) && Do(s, id, AcceptConditionalPlan(s, id, conditions)).Err?
    ensures AcceptConditionalSays(s, id, conditions, Do(s, id, AcceptConditionalPlan(s, id, conditions)).error)
  {
    if id in s.swaps {
      HoldsSatisfied(conditions, s.swaps[id].price, s.now);
    }
    if AcceptConditionalPlan(s, id, conditions).Ok? {
      OneTakeRefused(s, id, AcceptConditionalPlan(s, id, conditions), s.swaps[id].price);
    }
  }

  lemma AcceptPartialRefused(s: State, id: SwapId, quantity: nat)
    requires Local(s, id) && Do(s, id, AcceptPartialPlan(s, id, quantity)).Err?
    ensures AcceptPartialSays(s, id, quantity, Do(s, id, AcceptPartialPlan(s, id, quantity)).error)
  {
    if AcceptPartialPlan(s, id, quantity).Ok? {
      OneTakeRefused(s, id, AcceptPartialPlan(s, id, quantity), s.swaps[id].price);
    }
  }

  lemma DepositRefused(s: State, id: SwapId)
    requires Local(s, id) && Do(s, id, EscrowDepositPlan(s, id)).Err?
    ensures DepositSays(s, id, Do(s, id, EscrowDepositPlan(s, id)).error)
  {
    if EscrowDepositPlan(s, id).Ok? {
      OneTakeRefused(s, id, EscrowDepositPlan(s, id), s.swaps[id].price);
    }
  }

  lemma SubmitRefused(s: State, id: SwapId, amount: I128)
    requires Local(s, id) && Do(s, id, SubmitInstallmentPlan(s, id, amount)).Err?
    ensures SubmitSays(s, id, amount, Do(s, id, SubmitInstallmentPlan(s, id, amount)).error)
  {
    if SubmitInstallmentPlan(s, id, amount).Ok? {
      OneTakeRefused(s, id, SubmitInstallmentPlan(s, id, amount), amount);
    }
  }

  lemma OnePaymentRefused(b: Bank, t: Token, from: Address, amount: int, met: bool)
    requires from.Account? && Settle(b, t, Move(from, Contract, amount, Gate(met, Done))).Err?
    ensures match Settle(b, t, Move(from, Contract, amount, Gate(met, Done))).error
            case NegativeAmount => amount < 0
            case InsufficientBalance(who) => who == from && Bal(b, t, from) < amount
            case Trap => !met
            case _ => false
  {
    if Transfer(b, t, from, Contract, amount).Ok? {
      var next := Transfer(b, t, from, Contract, amount).value;
      assert Settle(b, t, Move(from, Contract, amount, Gate(met, Done))) == Settle(next, t, Gate(met, Done));
    }
  }

  lemma ScheduledUnpaid(s: State, id: SwapId, index: nat)
    requires ScheduledPaymentPlan(s, id, index).Ok? && Do(s, id, ScheduledPaymentPlan(s, id, index)).Err?
    ensures ScheduledSays(s, id, index, Do(s, id, ScheduledPaymentPlan(s, id, index)).error)
  {
    ScheduledPaymentMoves(s, id, index);
    OnePaymentRefused(s.bank, s.swaps[id].token, s.swaps[id].buyer, s.side.schedules[id][index].amount,
                      index < |Flags(s, id)|);
  }

  lemma ScheduledRefused(s: State, id: SwapId, index: nat)
    requires Do(s, id, ScheduledPaymentPlan(s, id, index)).Err?
    ensures ScheduledSays(s, id, index, Do(s, id, ScheduledPaymentPlan(s, id, index)).error)
  {
    if ScheduledPaymentPlan(s, id, index).Ok? {
      ScheduledUnpaid(s, id, index);
    }
  }

  // ── Calls that take none ─────────────────────────────────────────────────

  /** Payments by the contract fail for lack of its funds, or not at all. */
  lemma PaysOutRefused(s: State, id: SwapId, plan: Result<Change>)
    requires plan.Ok? && PaysOut(plan.value.moves) && Do(s, id, plan).Err?
    ensures Do(s, id, plan).error == InsufficientBalance(Contract)
  {
    PaysOutSettles(s.bank, plan.value.swap.token, plan.value.moves);
  }

  lemma RenegotiateRefused(s: State, id: SwapId, price: I128)
    requires Do(s, id, RenegotiatePlan(s, id, price)).Err?
    ensures RenegotiateSays(s, id, price, Do(s, id, RenegotiatePlan(s, id, price)).error)
  {
  }

  lemma AcceptRenegotiationRefused(s: State, id: SwapId)
    requires Do(s, id, AcceptRenegotiationPlan(s, id)).Err?
    ensures AcceptRenegotiationSays(s, id, Do(s, id, AcceptRenegotiationPlan(s, id)).error)
  {
  }

  lemma ExtendRefused(s: State, id: SwapId, expiry: nat)
    requires Do(s, id, ExtendExpiryPlan(s, id, expiry)).Err?
    ensures ExtendSays(s, id, expiry, Do(s, id, ExtendExpiryPlan(s, id, expiry)).error)
  {
  }

  lemma ApproveRefused(s: State, id: SwapId, approver: Address)
    requires Do(s, id, ApprovePlan(s, id, approver)).Err?
    ensures ApproveSays(s, id, approver, Do(s, id, ApprovePlan(s, id, approver)).error)
  {
  }

  lemma SetMinReputationRefused(s: State, id: SwapId, minimum: nat)
    requires Do(s, id, SetMinReputationPlan(s, id, minimum)).Err?
    ensures SetMinReputationSays(s, id, Do(s, id, SetMinReputationPlan(s, id, minimum)).error)
  {
  }

  lemma SignRefused(s: State, id: SwapId, signer: Address)
    requires Do(s, id, SignRevealPlan(s, id, signer)).Err?
    ensures SignSays(s, id, signer, Do(s, id, SignRevealPlan(s, id, signer)).error)
  {
  }

  lemma RequestArbitrationRefused(s: State, id: SwapId, requester: Address)
    requires Do(s, id, RequestArbitrationPlan(s, id, requester)).Err?
    ensures RequestArbitrationSays(s, id, requester, Do(s, id, RequestArbitrationPlan(s, id, requester)).error)
  {
  }

  lemma RaiseDisputeRefused(s: State, id: SwapId)
    requires Do(s, id, RaiseDisputePlan(s, id)).Err?
    ensures RaiseDisputeSays(s, id, Do(s, id, RaiseDisputePlan(s, id)).error)
  {
  }

  lemma CancelRefused(s: State, id: SwapId, caller: Address)
    requires Do(s, id, CancelPlan(s, id, caller)).Err?
    ensures CancelSays(s, id, caller, Do(s, id, CancelPlan(s, id, caller)).error)
  {
  }

  lemma CancelPendingRefused(s: State, id: SwapId, caller: Address)
    requires Do(s, id, CancelPendingPlan(s, id, caller)).Err?
    ensures CancelPendingSays(s, id, caller, Do(s, id, CancelPendingPlan(s, id, caller)).error)
  {
  }

  lemma RevealRefused(s: State, id: SwapId, caller: Address, digest: Digest)
    requires Local(s, id) && Do(s, id, RevealPlan(s, id, caller, digest)).Err?
    ensures RevealSays(s, id, caller, digest, Do(s, id, RevealPlan(s, id, caller, digest)).error)
  {
    if id in s.swaps {
      HoldsSatisfied(s.swaps[id].conditions, s.swaps[id].price, s.now);
    }
    if RevealPlan(s, id, caller, digest).Ok? {
      RevealPaysOut(s, id, caller, digest);
      PaysOutRefused(s, id, RevealPlan(s, id, caller, digest));
    }
  }

  lemma VerifyRefused(s: State, id: SwapId, caller: Address, digest: Digest)
    requires Local(s, id) && Do(s, id, VerifyAndCompletePlan(s, id, caller, digest)).Err?
    ensures VerifySays(s, id, caller, digest, Do(s, id, VerifyAndCompletePlan(s, id, caller, digest)).error)
  {
    if VerifyAndCompletePlan(s, id, caller, digest).Ok? {
      VerifyPaysOut(s, id, caller, digest);
      PaysOutRefused(s, id, VerifyAndCompletePlan(s, id, caller, digest));
    }
  }

  lemma ResolveRefused(s: State, id: SwapId, caller: Address, refunded: bool)
    requires Local(s, id) && Do(s, id, ResolveDisputePlan(s, id, caller, refunded)).Err?
    ensures ResolveSays(s, id, caller, refunded, Do(s, id, ResolveDisputePlan(s, id, caller, refunded)).error)
  {
    if ResolveDisputePlan(s, id, caller, refunded).Ok? {
      PaysOutRefused(s, id, ResolveDisputePlan(s, id, caller, refunded));
    }
  }

  lemma AutoResolveRefused(s: State, id: SwapId)
    requires Local(s, id) && Do(s, id, AutoResolveDisputePlan(s, id)).Err?
    ensures AutoResolveSays(s, id, Do(s, id, AutoResolveDisputePlan(s, id)).error)
  {
    if AutoResolveDisputePlan(s, id).Ok? {
      PaysOutRefused(s, id, AutoResolveDisputePlan(s, id));
    }
  }

  lemma AutoRefundRefused(s: State, id: SwapId)
    requires Local(s, id) && Do(s, id, AutoRefundTimeoutPlan(s, id)).Err?
    ensures AutoRefundSays(s, id, Do(s, id, AutoRefundTimeoutPlan(s, id)).error)
  {
    if AutoRefundTimeoutPlan(s, id).Ok? {
      PaysOutRefused(s, id, AutoRefundTimeoutPlan(s, id));
    }
  }

  lemma ArbitrateRefused(s: State, id: SwapId, arbitrator: Address, refund: bool)
    requires Local(s, id) && Do(s, id, ArbitratePlan(s, id, arbitrator, refund)).Err?
    ensures ArbitrateSays(s, id, arbitrator, refund, Do(s, id, ArbitratePlan(s, id, arbitrator, refund)).error)
  {
    if ArbitratePlan(s, id, arbitrator, refund).Ok? {
      ArbitratePaysOut(s, id, arbitrator, refund);
      PaysOutRefused(s, id, ArbitratePlan(s, id, arbitrator, refund));
    }
  }

  lemma CancelExpiredRefused(s: State, id: SwapId, caller: Address)
    requires Local(s, id) && Do(s, id, CancelExpiredPlan(s, id, caller)).Err?
    ensures CancelExpiredSays(s, id, caller, Do(s, id, CancelExpiredPlan(s, id, caller)).error)
  {
    if CancelExpiredPlan(s, id, caller).Ok? {
      PaysOutRefused(s, id, CancelExpiredPlan(s, id, caller));
    }
  }

  lemma WithdrawRefused(s: State, id: SwapId)
    requires Local(s, id) && Do(s, id, EscrowWithdrawPlan(s, id)).Err?
    ensures WithdrawSays(s, id, Do(s, id, EscrowWithdrawPlan(s, id)).error)
  {
    if EscrowWithdrawPlan(s, id).Ok? {
      PaysOutRefused(s, id, EscrowWithdrawPlan(s, id));
    }
  }

  lemma RollbackRefused(s: State, id: SwapId, caller: Address)
    requires Local(s, id) && Do(s, id, AdminRollbackPlan(s, id, caller)).Err?
    ensures RollbackSays(s, id, caller, Do(s, id, AdminRollbackPlan(s, id, caller)).error)
  {
    if AdminRollbackPlan(s, id, caller).Ok? {
      RollbackPaysOut(s, id);
      PaysOutRefused(s, id, AdminRollbackPlan(s, id, caller));
    }
  }

  lemma ReportRefused(s: State, id: SwapId, keyValid: bool)
    requires Local(s, id) && Do(s, id, ValidateAndRollbackPlan(s, id, keyValid)).Err?
    ensures ReportSays(s, id, keyValid, Do(s, id, ValidateAndRollbackPlan(s, id, keyValid)).error)
  {
    if ValidateAndRollbackPlan(s, id, keyValid).Ok? {
      PaysOutRefused(s, id, ValidateAndRollbackPlan(s, id, keyValid));
    }
  }

  lemma ClaimRefused(s: State, id: SwapId)
    requires Local(s, id) && Do(s, id, ClaimInsurancePlan(s, id)).Err?
    ensures ClaimSays(s, id, Do(s, id, ClaimInsurancePlan(s, id)).error)
  {
    if ClaimInsurancePlan(s, id).Ok? {
      PaysOutRefused(s, id, ClaimInsurancePlan(s, id));
    }
  }

  // ── All calls about one swap ─────────────────────────────────────────────

  lemma PayingRefused(s: State, id: SwapId, act: Act)
    requires Local(s, id) && Do(s, id, Plan(s, id, act)).Err?
    requires act.Accept? || act.AcceptConditional? || act.AcceptPartial? || act.EscrowDeposit? || act.SubmitInstallment?
      || act.MakeScheduledPayment?
    ensures PaymentSays(s, id, act, Do(s, id, Plan(s, id, act)).error)
  {
    if act.Accept? {
      AcceptRefused(s, id);
    } else if act.AcceptConditional? {
      AcceptConditionalRefused(s, id, act.conditions);
    } else if act.AcceptPartial? {
      AcceptPartialRefused(s, id, act.quantity);
    } else if act.EscrowDeposit? {
      DepositRefused(s, id);
    } else if act.SubmitInstallment? {
      SubmitRefused(s, id, act.amount);
    } else {
      ScheduledRefused(s, id, act.index);
    }
  }

  lemma EditRefused(s: State, id: SwapId, act: Act)
    requires Edits(act) && Do(s, id, Plan(s, id, act)).Err?
    ensures EditSays(s, id, act, Do(s, id, Plan(s, id, act)).error)
  {
    if act.Renegotiate? {
      RenegotiateRefused(s, id, act.price);
    } else if act.AcceptRenegotiation? {
      AcceptRenegotiationRefused(s, id);
    } else if act.ExtendExpiry? {
      ExtendRefused(s, id, act.expiry);
    } else if act.Approve? {
      ApproveRefused(s, id, act.approver);
    } else if act.SetMinReputation? {
      SetMinReputationRefused(s, id, act.minimum);
    } else {
      SignRefused(s, id, act.signer);
    }
  }

  lemma DecisionRefused(s: State, id: SwapId, act: Act)
    requires Local(s, id) && Decides(act) && Do(s, id, Plan(s, id, act)).Err?
    ensures DecisionSays(s, id, act, Do(s, id, Plan(s, id, act)).error)
  {
    if act.Reveal? {
      RevealRefused(s, id, act.caller, act.digest);
    } else if act.VerifyAndComplete? {
      VerifyRefused(s, id, act.caller, act.digest);
    } else if act.ResolveDispute? {
      ResolveRefused(s, id, act.caller, act.refunded);
    } else if act.AutoResolveDispute? {
      AutoResolveRefused(s, id);
    } else if act.AutoRefundTimeout? {
      AutoRefundRefused(s, id);
    } else {
      ArbitrateRefused(s, id, act.arbitrator, act.refund);
    }
  }

  lemma DisputeRefused(s: State, id: SwapId, act: Act)
    requires (act.RequestArbitration? || act.RaiseDispute?) && Do(s, id, Plan(s, id, act)).Err?
    ensures EndingSays(s, id, act, Do(s, id, Plan(s, id, act)).error)
  {
    if act.RaiseDispute? {
      RaiseDisputeRefused(s, id);
    } else {
      RequestArbitrationRefused(s, id, act.requester);
    }
  }

  lemma EndingRefused(s: State, id: SwapId, act: Act)
    requires Local(s, id) && !Prepares(act) && !Decides(act) && Do(s, id, Plan(s, id, act)).Err?
    ensures EndingSays(s, id, act, Do(s, id, Plan(s, id, act)).error)
  {
    if act.RequestArbitration? || act.RaiseDispute? {
      DisputeRefused(s, id, act);
    } else if act.Cancel? {
      CancelRefused(s, id, act.caller);
    } else if act.CancelPending? {
      CancelPendingRefused(s, id, act.caller);
    } else if act.CancelExpired? {
      CancelExpiredRefused(s, id, act.caller);
    } else if act.EscrowWithdraw? {
      WithdrawRefused(s, id);
    } else if act.AdminRollback? {
      RollbackRefused(s, id, act.caller);
    } else if act.ValidateAndRollback? {
      ReportRefused(s, id, act.keyValid);
    } else {
      ClaimRefused(s, id);
    }
  }

  lemma ActRefused(s: State, id: SwapId, act: Act)
    requires Local(s, id) && Do(s, id, Plan(s, id, act)).Err?
    ensures Says(s, id, act, Do(s, id, Plan(s, id, act)).error)
  {
    if Edits(act) {
      EditRefused(s, id, act);
    } else if Prepares(act) {
      PayingRefused(s, id, act);
    } else if Decides(act) {
      DecisionRefused(s, id, act);
    } else {
      EndingRefused(s, id, act);
    }
  }

  /** Whatever call about one swap is refused, its error is one of those of the call, and what it says is true. */
  lemma RefusalsTruthful(s: State, id: SwapId, act: Act)
    requires Inv(s) && Step(s, On(id, act)).Err?
    ensures Says(s, id, act, Step(s, On(id, act)).error)
  {
    LocalFromInv(s, id);
    ActRefused(s, id, act);
  }
}

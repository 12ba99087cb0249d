/** What each call about one swap does to its status, its lock and the contract's money. Nearly all are legal
    changes that cost the contract nothing and pay out no more than it holds for that swap. */
module SwapActs {
  import opened Common
  import opened SwapState
  import opened SwapSpec
  import opened SwapClaims
  import opened SwapSafety

  /** Nothing the contract pays out on account of this swap goes to the contract itself. */
  predicate PaysOthers(swap: SwapRecord) {
    swap.seller.Account? && swap.buyer.Account? && swap.referrer != Some(Contract)
  }

  ghost predicate AllPayOthers(s: State, ids: seq<SwapId>) {
    forall id :: id in ids && id in s.swaps ==> PaysOthers(s.swaps[id])
  }

  /** What the proofs about one swap need from the invariant. */
  predicate Local(s: State, id: SwapId) {
    id in s.swaps ==> EntryOk(s, id) && Pool(s.vault, s.swaps[id].token) >= 0
  }

  /** Nothing is lost, and all payments are within the swap's claim and its token's pool. */
  predicate Thrifty(s: State, id: SwapId, c: Change)
    requires id in s.swaps
  {
    && Profit(s, id, c) >= 0
    && Outgo(c.moves) <= Due(s.swaps[id], s.side, id) + Stored(s.vault, id) + Pool(s.vault, c.swap.token)
  }

  ghost predicate Sound(s: State, id: SwapId, plan: Result<Change>) {
    && (plan.Ok? ==> Legal(s, id, plan.value) && Thrifty(s, id, plan.value))
    && plan != Err(InsufficientBalance(Contract))
  }

  lemma AcceptSound(s: State, id: SwapId)
    requires Local(s, id)
    ensures Sound(s, id, AcceptPlan(s, id))
  {
  }

  lemma AcceptTermsSound(s: State, id: SwapId, conditions: seq<Condition>, quantity: nat)
    requires Local(s, id)
    ensures Sound(s, id, AcceptConditionalPlan(s, id, conditions))
    ensures Sound(s, id, AcceptPartialPlan(s, id, quantity))
  {
  }

  lemma DepositSound(s: State, id: SwapId, buyer: Address)
    requires Local(s, id)
    ensures Sound(s, id, EscrowDepositPlan(s, id))
    ensures buyer.Account? ==> Sound(s, id, BatchDepositPlan(s, id, buyer))
  {
  }

  lemma SubmitInstallmentSound(s: State, id: SwapId, amount: I128)
    requires Local(s, id)
    ensures Sound(s, id, SubmitInstallmentPlan(s, id, amount))
  {
  }

  lemma OfferSound(s: State, id: SwapId, price: I128, expiry: nat)
    requires Local(s, id)
    ensures Sound(s, id, RenegotiatePlan(s, id, price))
    ensures Sound(s, id, AcceptRenegotiationPlan(s, id))
    ensures Sound(s, id, ExtendExpiryPlan(s, id, expiry))
  {
  }

  lemma SignOffSound(s: State, id: SwapId, party: Address, minimum: nat)
    requires Local(s, id)
    ensures Sound(s, id, ApprovePlan(s, id, party))
    ensures Sound(s, id, SetMinReputationPlan(s, id, minimum))
    ensures Sound(s, id, SignRevealPlan(s, id, party))
  {
  }

  lemma DisputeSound(s: State, id: SwapId, requester: Address)
    requires Local(s, id)
    ensures Sound(s, id, RaiseDisputePlan(s, id))
    ensures Sound(s, id, RequestArbitrationPlan(s, id, requester))
  {
  }

  lemma RevealLegal(s: State, id: SwapId, caller: Address, digest: Digest)
    requires Local(s, id) && RevealPlan(s, id, caller, digest).Ok?
    ensures Legal(s, id, RevealPlan(s, id, caller, digest).value)
  {
  }

  lemma RevealThrifty(s: State, id: SwapId, caller: Address, digest: Digest)
    requires Local(s, id) && RevealPlan(s, id, caller, digest).Ok?
    ensures Thrifty(s, id, RevealPlan(s, id, caller, digest).value)
  {
  }

  lemma RevealSound(s: State, id: SwapId, caller: Address, digest: Digest)
    requires Local(s, id)
    ensures Sound(s, id, RevealPlan(s, id, caller, digest))
  {
    if RevealPlan(s, id, caller, digest).Ok? {
      RevealLegal(s, id, caller, digest);
      RevealThrifty(s, id, caller, digest);
    }
  }

  lemma RefundLegal(s: State, id: SwapId)
    requires Local(s, id) && id in s.swaps && Paid(s.swaps[id])
    ensures Legal(s, id, Refund(s, id, s.swaps[id]))
  {
  }

  lemma RefundThrifty(s: State, id: SwapId)
    requires Local(s, id) && id in s.swaps && Paid(s.swaps[id])
    ensures Thrifty(s, id, Refund(s, id, s.swaps[id]))
  {
  }

  lemma CompleteLegal(s: State, id: SwapId, fee: int)
    requires Local(s, id) && id in s.swaps && Paid(s.swaps[id])
    ensures Legal(s, id, Complete(s, id, s.swaps[id], fee))
  {
  }

  lemma CompleteThrifty(s: State, id: SwapId, fee: int)
    requires Local(s, id) && id in s.swaps && Paid(s.swaps[id]) && 0 <= fee <= s.swaps[id].price
    ensures Thrifty(s, id, Complete(s, id, s.swaps[id], fee))
  {
  }

  /** Writing to the history makes no difference to either. */
  lemma LoggedToo(s: State, id: SwapId, c: Change)
    requires Legal(s, id, c) && Thrifty(s, id, c)
    ensures Legal(s, id, c.(logged := true)) && Thrifty(s, id, c.(logged := true))
  {
  }

  lemma FeeWithin(swap: SwapRecord)
    requires swap.price > 0 && Bps(swap.price, PROTOCOL_FEE_BPS).Ok?
    ensures 0 <= Bps(swap.price, PROTOCOL_FEE_BPS).value <= swap.price
  {
  }

  lemma VerifyAndCompleteSound(s: State, id: SwapId, caller: Address, digest: Digest)
    requires Local(s, id)
    ensures Sound(s, id, VerifyAndCompletePlan(s, id, caller, digest))
  {
    if VerifyAndCompletePlan(s, id, caller, digest).Ok? {
      RefundLegal(s, id);
      RefundThrifty(s, id);
      if KeyOpens(s, s.swaps[id].ip, digest) {
        FeeWithin(s.swaps[id]);
        CompleteLegal(s, id, Bps(s.swaps[id].price, PROTOCOL_FEE_BPS).value);
        CompleteThrifty(s, id, Bps(s.swaps[id].price, PROTOCOL_FEE_BPS).value);
      }
    }
  }

  lemma ResolveDisputeSound(s: State, id: SwapId, caller: Address, refunded: bool)
    requires Local(s, id)
    ensures Sound(s, id, ResolveDisputePlan(s, id, caller, refunded))
  {
  }

  lemma TimeoutSound(s: State, id: SwapId)
    requires Local(s, id)
    ensures Sound(s, id, AutoResolveDisputePlan(s, id))
    ensures Sound(s, id, AutoRefundTimeoutPlan(s, id))
  {
  }

  lemma CancelSound(s: State, id: SwapId, caller: Address)
    requires Local(s, id)
    ensures Sound(s, id, CancelPlan(s, id, caller))
    ensures Sound(s, id, CancelPendingPlan(s, id, caller))
  {
  }

  lemma CancelExpiredSound(s: State, id: SwapId, caller: Address)
    requires Local(s, id)
    ensures Sound(s, id, CancelExpiredPlan(s, id, caller))
  {
  }

  lemma EscrowWithdrawSound(s: State, id: SwapId)
    requires Local(s, id)
    ensures Sound(s, id, EscrowWithdrawPlan(s, id))
  {
  }

  lemma ClaimInsuranceSound(s: State, id: SwapId)
    requires Local(s, id)
    ensures Sound(s, id, ClaimInsurancePlan(s, id))
  {
  }

  lemma BatchArbitrateSound(s: State, id: SwapId, refund: bool)
    requires Local(s, id)
    ensures Sound(s, id, BatchArbitratePlan(s, id, refund))
  {
    if BatchArbitratePlan(s, id, refund).Ok? {
      if refund {
        RefundLegal(s, id);
        RefundThrifty(s, id);
        LoggedToo(s, id, Refund(s, id, s.swaps[id]));
      } else {
        var fee := Bps(s.swaps[id].price, PROTOCOL_FEE_BPS).value;
        FeeWithin(s.swaps[id]);
        CompleteLegal(s, id, fee);
        CompleteThrifty(s, id, fee);
        LoggedToo(s, id, Complete(s, id, s.swaps[id], fee));
      }
    }
  }

  /** An Accepted swap, or one completed earlier in the same batch. */
  predicate RevealReady(s: State, id: SwapId) {
    id in s.swaps ==>
      s.swaps[id].status == Accepted || (s.swaps[id].status == Completed && s.swaps[id].ip !in s.active)
  }

  lemma BatchRevealLegal(s: State, id: SwapId)
    requires Local(s, id) && RevealReady(s, id) && BatchRevealPlan(s, id).Ok?
    ensures Legal(s, id, BatchRevealPlan(s, id).value)
  {
  }

  lemma BatchRevealThrifty(s: State, id: SwapId)
    requires Local(s, id) && BatchRevealPlan(s, id).Ok? && s.swaps[id].status == Accepted
    ensures Thrifty(s, id, BatchRevealPlan(s, id).value)
  {
  }

  /** An unchecked item of `batch_reveal_keys` is sound on an Accepted swap. */
  lemma BatchRevealSound(s: State, id: SwapId)
    requires Local(s, id)
    requires id in s.swaps ==> s.swaps[id].status == Accepted
    ensures Sound(s, id, BatchRevealPlan(s, id))
  {
    if BatchRevealPlan(s, id).Ok? {
      BatchRevealLegal(s, id);
      BatchRevealThrifty(s, id);
    }
  }

  predicate Acceptable(s: State, id: SwapId)
    requires id in s.swaps
  {
    s.swaps[id].status == Pending || s.swaps[id].status == Accepted
  }

  /** An unchecked item of `batch_accept_swaps` is sound on a Pending swap, and on one accepted
      earlier in the same batch, which pays its price again. */
  lemma BatchAcceptSound(s: State, id: SwapId)
    requires Local(s, id)
    requires id in s.swaps ==> s.swaps[id].buyer.Account? && Acceptable(s, id)
    ensures Sound(s, id, BatchAcceptPlan(s, id))
  {
  }

  /** A rollback leaves the store in order, whatever the status of the swap. It sets back the status of a swap
      that is completed or was rolled back for a bad key, and it takes the IP of one that is not live from
      whoever holds it. */
  lemma RollBackExactly(s: State, id: SwapId)
    requires Local(s, id) && id in s.swaps
    ensures Closing(s, id, RollBack(s, id, s.swaps[id]))
    ensures Forward(s.swaps[id].status, Cancelled) <==> s.swaps[id].status.Live() || s.swaps[id].status == Cancelled
    ensures UnlockOk(s, s.swaps[id], RollBack(s, id, s.swaps[id]))
      <==> s.swaps[id].status.Live() || s.swaps[id].ip !in s.active
  {
  }

  /** It costs the premium of a paid swap, which the pool keeps as well. */
  lemma RollBackThrifty(s: State, id: SwapId)
    requires Local(s, id) && id in s.swaps && (Paid(s.swaps[id]) ==> s.swaps[id].premium == 0)
    ensures Thrifty(s, id, RollBack(s, id, s.swaps[id]))
  {
  }

  lemma ValidateAndRollbackLegal(s: State, id: SwapId, keyValid: bool)
    requires Local(s, id)
    requires ValidateAndRollbackPlan(s, id, keyValid).Ok?
    ensures Legal(s, id, ValidateAndRollbackPlan(s, id, keyValid).value)
    ensures keyValid ==> Thrifty(s, id, ValidateAndRollbackPlan(s, id, keyValid).value)
  {
  }

  function Outcome(refund: bool): Status {
    if refund then Cancelled else Completed
  }

  /** So does `arbitrate_swap`, with the other outcome as the status it cannot take. */
  lemma ArbitrateExactly(s: State, id: SwapId, arbitrator: Address, refund: bool)
    requires Local(s, id) && ArbitratePlan(s, id, arbitrator, refund).Ok?
    ensures Closing(s, id, ArbitratePlan(s, id, arbitrator, refund).value)
    ensures ArbitratePlan(s, id, arbitrator, refund).value.swap.status == Outcome(refund)
    ensures UnlockOk(s, s.swaps[id], ArbitratePlan(s, id, arbitrator, refund).value)
      <==> s.swaps[id].status.Live() || s.swaps[id].ip !in s.active
  {
  }

  /** It costs nothing on a swap whose price is held. */
  lemma ArbitrateThrifty(s: State, id: SwapId, arbitrator: Address, refund: bool)
    requires Local(s, id) && ArbitratePlan(s, id, arbitrator, refund).Ok?
    requires Due(s.swaps[id], s.side, id) >= s.swaps[id].price
    ensures Framed(s, id, ArbitratePlan(s, id, arbitrator, refund).value)
    ensures Thrifty(s, id, ArbitratePlan(s, id, arbitrator, refund).value)
  {
  }

  /** The payment that completes a schedule. */
  predicate LastPayment(s: State, id: SwapId, index: nat) {
    var made := Lookup(s.side.paymentsMade, id, []);
    id in s.side.schedules && index < |s.side.schedules[id]| && index < |made| && AllPaid(made[index := true])
  }

  /** The last payment of a schedule makes the swap's whole price due: does the contract then hold it? */
  predicate CoversPrice(s: State, id: SwapId, index: nat)
    requires id in s.swaps
  {
    LastPayment(s, id, index) ==> s.side.schedules[id][index].amount + Due(s.swaps[id], s.side, id) >= s.swaps[id].price
  }

  /** A payment that is not negative and is on the list leaves the store in order. The last one makes its swap
      Accepted, whatever its status was. */
  lemma ScheduledPaymentExactly(s: State, id: SwapId, index: nat)
    requires Local(s, id) && ScheduledPaymentPlan(s, id, index).Ok?
    requires index < |Lookup(s.side.paymentsMade, id, [])| && s.side.schedules[id][index].amount >= 0
    ensures Closing(s, id, ScheduledPaymentPlan(s, id, index).value)
    ensures Forward(s.swaps[id].status, ScheduledPaymentPlan(s, id, index).value.swap.status)
      <==> (LastPayment(s, id, index) ==> Acceptable(s, id))
    ensures UnlockOk(s, s.swaps[id], ScheduledPaymentPlan(s, id, index).value)
      <==> (LastPayment(s, id, index) ==> s.swaps[id].status.Live())
  {
    FlagAdds(s.side.schedules[id], s.side.paymentsMade[id], index);
  }

  lemma ScheduledPaymentMoves(s: State, id: SwapId, index: nat)
    requires ScheduledPaymentPlan(s, id, index).Ok?
    ensures ScheduledPaymentPlan(s, id, index).value.moves
      == Move(s.swaps[id].buyer, Contract, s.side.schedules[id][index].amount,
              Gate(index < |Lookup(s.side.paymentsMade, id, [])|, Done))
    ensures s.swaps[id].buyer.Account?
  {
  }

  /** What a scheduled payment adds: nothing beyond the claim it raises while the swap is Pending; the last one
      makes the price due, and what was held for it counts towards that. */
  lemma ScheduledPaymentProfit(s: State, id: SwapId, index: nat)
    requires ScheduledPaymentPlan(s, id, index).Ok? && index < |Lookup(s.side.paymentsMade, id, [])|
    ensures Framed(s, id, ScheduledPaymentPlan(s, id, index).value)
    ensures Profit(s, id, ScheduledPaymentPlan(s, id, index).value)
      == if LastPayment(s, id, index)
        then s.side.schedules[id][index].amount + Due(s.swaps[id], s.side, id) - s.swaps[id].price
         else if s.swaps[id].status == Pending then 0
         else s.side.schedules[id][index].amount
  {
    ScheduledPaymentMoves(s, id, index);
    FlagAdds(s.side.schedules[id], s.side.paymentsMade[id], index);
  }

  lemma OnePaymentSettles(b: Bank, t: Token, from: Address, amount: int, met: bool)
    ensures Settle(b, t, Move(from, Contract, amount, Gate(met, Done))).Ok? ==> met && amount >= 0
    ensures from.Account? ==>
      Settle(b, t, Move(from, Contract, amount, Gate(met, Done))) != Err(InsufficientBalance(Contract))
  {
    if Transfer(b, t, from, Contract, amount).Ok? {
      var next := Transfer(b, t, from, Contract, amount).value;
      assert Settle(b, t, Move(from, Contract, amount, Gate(met, Done))) == Settle(next, t, Gate(met, Done));
    }
  }

  /** A scheduled payment that goes through was one of those on the list, and is not negative. */
  lemma ScheduledPaymentListed(s: State, id: SwapId, index: nat)
    requires ScheduledPaymentPlan(s, id, index).Ok?
    requires Settle(s.bank, s.swaps[id].token, ScheduledPaymentPlan(s, id, index).value.moves).Ok?
    ensures index < |Lookup(s.side.paymentsMade, id, [])| && s.side.schedules[id][index].amount >= 0
  {
    ScheduledPaymentMoves(s, id, index);
    OnePaymentSettles(s.bank, s.swaps[id].token, s.swaps[id].buyer, s.side.schedules[id][index].amount,
                      index < |Lookup(s.side.paymentsMade, id, [])|);
  }

  lemma ScheduledPaymentDone(s: State, id: SwapId, index: nat)
    requires Do(s, id, ScheduledPaymentPlan(s, id, index)).Ok?
    ensures id in s.swaps && id in s.side.schedules && index < |s.side.schedules[id]|
    ensures index < |Lookup(s.side.paymentsMade, id, [])| && s.side.schedules[id][index].amount >= 0
  {
    ScheduledPaymentListed(s, id, index);
  }

  // ── The same calls under the condition that makes them cost nothing ──────

  /** Like `Sound`, for a change that need not be legal. */
  ghost predicate Frugal(s: State, id: SwapId, plan: Result<Change>) {
    && (plan.Ok? ==> Framed(s, id, plan.value) && Thrifty(s, id, plan.value))
    && plan != Err(InsufficientBalance(Contract))
  }

  lemma ArbitrateFrugal(s: State, id: SwapId, arbitrator: Address, refund: bool)
    requires Local(s, id)
    requires id in s.swaps ==> Due(s.swaps[id], s.side, id) >= s.swaps[id].price
    ensures Frugal(s, id, ArbitratePlan(s, id, arbitrator, refund))
  {
    if ArbitratePlan(s, id, arbitrator, refund).Ok? {
      ArbitrateThrifty(s, id, arbitrator, refund);
    }
  }

  lemma AdminRollbackFrugal(s: State, id: SwapId, caller: Address)
    requires Local(s, id)
    requires id in s.swaps && Paid(s.swaps[id]) ==> s.swaps[id].premium == 0
    ensures Frugal(s, id, AdminRollbackPlan(s, id, caller))
  {
    if id in s.swaps {
      RollBackExactly(s, id);
      RollBackThrifty(s, id);
    }
  }

  lemma ValidKeyFrugal(s: State, id: SwapId)
    requires Local(s, id)
    ensures Frugal(s, id, ValidateAndRollbackPlan(s, id, true))
  {
    if ValidateAndRollbackPlan(s, id, true).Ok? {
      ValidateAndRollbackLegal(s, id, true);
    }
  }
}

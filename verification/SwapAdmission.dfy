/** A call about one stored swap goes through exactly when the rules say that it may, provided that the contract can
    fund it. */
module SwapAdmission {
  import opened Common
  import opened SwapState
  import opened SwapSpec
  import opened SwapClaims
  import opened SwapRuns
  import opened SwapMoney
  import opened SwapActs
  import opened SwapBatches
  import opened SwapTheorems
  import opened SwapRules

  /** The planned call goes through exactly when it may, and is not stopped for lack of the contract's funds. */
  ghost predicate Admits(s: State, id: SwapId, plan: Result<Change>, may: bool) {
    Do(s, id, plan).Ok? <==> may && Do(s, id, plan) != Err(InsufficientBalance(Contract))
  }

  /** A call that takes no money, or pays some out, goes through once its checks pass. */
  lemma PaysOutAdmits(s: State, id: SwapId, plan: Result<Change>, may: bool)
    requires plan.Ok? <==> may
    requires plan.Ok? ==> PaysOut(plan.value.moves)
    requires plan != Err(InsufficientBalance(Contract))
    ensures Admits(s, id, plan, may)
  {
    if plan.Ok? {
      PaysOutSettles(s.bank, plan.value.swap.token, plan.value.moves);
    }
  }

  /** One that takes an amount from the buyer also needs him to have signed, and to have it. */
  lemma TakesAdmits(s: State, id: SwapId, plan: Result<Change>, amount: int, may: bool)
    requires id in s.swaps
    requires plan.Ok? ==> plan.value.swap.token == s.swaps[id].token && s.swaps[id].buyer.Account?
    requires plan.Ok? ==> plan.value.moves == Take(s.swaps[id].buyer, amount, Done)
    requires may <==> plan.Ok? && BuyerPays(s, id, amount)
    requires plan != Err(InsufficientBalance(Contract))
    ensures Admits(s, id, plan, may)
  {
    if plan.Ok? {
      TakesSettle(s.bank, plan.value.swap.token, plan.value.moves, s.swaps[id].buyer);
      assert Asked(plan.value.moves) == amount;
    }
  }

  // ── Up to the settlement ─────────────────────────────────────────────────

  lemma HoldsSatisfied(conditions: seq<Condition>, price: int, now: nat)
    ensures AllHold(conditions, price, now) <==> AllSatisfied(conditions, price, now)
  {
    if AllHold(conditions, price, now) {
      forall i | 0 <= i < |conditions| ensures Satisfied(conditions[i], price, now) {
        assert conditions[i] in conditions && Holds(conditions[i], price, now);
      }
    }
  }

  /** What an acceptance asks for: security, price and premium; the pool must be able to take in the premium. */
  lemma AcceptAsks(v: Vault, swap: SwapRecord)
    requires swap.price > 0
    ensures var m := AcceptMoves(v, swap, swap.collateralAmount > 0);
            && TakesFrom(m, swap.buyer) && m.Move? && NoneNegative(m)
            && Asked(m) == Security(swap) + swap.price + PremiumDue(swap)
            && (Passable(m) <==> (PremiumDue(swap) > 0 ==> Fits(Pool(v, swap.token) + PremiumDue(swap))))
  {
    var gate := Gate(Fits(Pool(v, swap.token) + PremiumDue(swap)), Done);
    assert TakesFrom(gate, swap.buyer) && Asked(gate) == 0 && NoneNegative(gate);
    var insurance := if PremiumDue(swap) > 0 then Take(swap.buyer, PremiumDue(swap), gate) else Done;
    assert TakesFrom(insurance, swap.buyer) && Asked(insurance) == PremiumDue(swap) && NoneNegative(insurance);
    assert Passable(insurance) <==> (PremiumDue(swap) > 0 ==> Fits(Pool(v, swap.token) + PremiumDue(swap)));
    var payment := Take(swap.buyer, swap.price, insurance);
    assert TakesFrom(payment, swap.buyer) && Asked(payment) == swap.price + PremiumDue(swap) && NoneNegative(payment);
    assert Passable(payment) <==> Passable(insurance);
  }

  lemma AcceptAdmitted(s: State, id: SwapId)
    requires Local(s, id)
    ensures Admits(s, id, AcceptPlan(s, id), MayAccept(s, id))
  {
    if id in s.swaps {
      var swap := s.swaps[id];
      HoldsSatisfied(swap.conditions, swap.price, s.now);
      AcceptAsks(s.vault, swap);
      if AcceptPlan(s, id).Ok? {
        TakesSettle(s.bank, swap.token, AcceptPlan(s, id).value.moves, swap.buyer);
      }
    }
  }

  lemma AcceptConditionalAdmitted(s: State, id: SwapId, conditions: seq<Condition>)
    requires Local(s, id)
    ensures Admits(s, id, AcceptConditionalPlan(s, id, conditions), MayAcceptConditional(s, id, conditions))
  {
    if id in s.swaps {
      HoldsSatisfied(conditions, s.swaps[id].price, s.now);
      TakesAdmits(s, id, AcceptConditionalPlan(s, id, conditions), s.swaps[id].price,
                  MayAcceptConditional(s, id, conditions));
    }
  }

  lemma AcceptPartialAdmitted(s: State, id: SwapId, quantity: nat)
    requires Local(s, id)
    ensures Admits(s, id, AcceptPartialPlan(s, id, quantity), MayAcceptPartial(s, id, quantity))
  {
    if id in s.swaps {
      TakesAdmits(s, id, AcceptPartialPlan(s, id, quantity), s.swaps[id].price, MayAcceptPartial(s, id, quantity));
    }
  }

  lemma DepositAdmitted(s: State, id: SwapId)
    requires Local(s, id)
    ensures Admits(s, id, EscrowDepositPlan(s, id), MayDeposit(s, id))
  {
    if id in s.swaps {
      TakesAdmits(s, id, EscrowDepositPlan(s, id), s.swaps[id].price, MayDeposit(s, id));
    }
  }

  lemma SubmitAdmitted(s: State, id: SwapId, amount: I128)
    requires Local(s, id)
    ensures Admits(s, id, SubmitInstallmentPlan(s, id, amount), MaySubmit(s, id, amount))
  {
    if id in s.swaps {
      TakesAdmits(s, id, SubmitInstallmentPlan(s, id, amount), amount, MaySubmit(s, id, amount));
    }
  }

  lemma ScheduledAdmitted(s: State, id: SwapId, index: nat)
    ensures Admits(s, id, ScheduledPaymentPlan(s, id, index), MayPayScheduled(s, id, index))
  {
    if ScheduledPaymentPlan(s, id, index).Ok? {
      var m := ScheduledPaymentPlan(s, id, index).value.moves;
      TakesSettle(s.bank, s.swaps[id].token, m, s.swaps[id].buyer);
      assert Asked(m) == s.side.schedules[id][index].amount;
      assert Passable(m) <==> s.side.schedules[id][index].amount >= 0 && index < |Flags(s, id)|;
    }
  }

  lemma OfferAdmitted(s: State, id: SwapId, price: I128, expiry: nat)
    ensures Admits(s, id, RenegotiatePlan(s, id, price), MayRenegotiate(s, id, price))
    ensures Admits(s, id, AcceptRenegotiationPlan(s, id), MayAcceptRenegotiation(s, id))
    ensures Admits(s, id, ExtendExpiryPlan(s, id, expiry), MayExtend(s, id, expiry))
  {
  }

  lemma SignOffAdmitted(s: State, id: SwapId, party: Address, minimum: nat)
    ensures Admits(s, id, ApprovePlan(s, id, party), MayApprove(s, id, party))
    ensures Admits(s, id, SetMinReputationPlan(s, id, minimum), MaySetMinReputation(s, id))
    ensures Admits(s, id, SignRevealPlan(s, id, party), MaySign(s, id, party))
  {
  }

  lemma PreparingAdmitted(s: State, id: SwapId, act: Act)
    requires Local(s, id) && Prepares(act)
    ensures Admits(s, id, Plan(s, id, act), May(s, id, act))
  {
    if act.Accept? {
      AcceptAdmitted(s, id);
    } else if act.AcceptConditional? {
      AcceptConditionalAdmitted(s, id, act.conditions);
    } else if act.AcceptPartial? {
      AcceptPartialAdmitted(s, id, act.quantity);
    } else if act.EscrowDeposit? {
      DepositAdmitted(s, id);
    } else if act.SubmitInstallment? {
      SubmitAdmitted(s, id, act.amount);
    } else if act.MakeScheduledPayment? {
      ScheduledAdmitted(s, id, act.index);
    } else if act.Renegotiate? {
      OfferAdmitted(s, id, act.price, 0);
    } else if act.AcceptRenegotiation? {
      OfferAdmitted(s, id, 0, 0);
    } else if act.ExtendExpiry? {
      OfferAdmitted(s, id, 0, act.expiry);
    } else if act.Approve? {
      SignOffAdmitted(s, id, act.approver, 0);
    } else if act.SetMinReputation? {
      SignOffAdmitted(s, id, TREASURY, act.minimum);
    } else {
      SignOffAdmitted(s, id, act.signer, 0);
    }
  }

  // ── Disputes and settlement ──────────────────────────────────────────────

  lemma DisputeAdmitted(s: State, id: SwapId, requester: Address)
    ensures Admits(s, id, RaiseDisputePlan(s, id), MayDispute(s, id))
    ensures Admits(s, id, RequestArbitrationPlan(s, id, requester), MayRequestArbitration(s, id, requester))
  {
  }

  // Everything that is paid out is paid by the contract, and none of it is negative.

  lemma CollateralPaysOut(v: Vault, id: SwapId, swap: SwapRecord, to: Address, rest: Moves)
    requires PaysOut(rest) && Stored(v, id) >= 0
    ensures PaysOut(GiveCollateral(v, id, swap, to, rest))
  {
    GivesPayOut(to, Stored(v, id), rest);
  }

  lemma ReferrerPaysOut(swap: SwapRecord, amount: int, rest: Moves)
    requires PaysOut(rest) && amount >= 0
    ensures PaysOut(GiveReferrer(swap, amount, rest))
  {
    if swap.referrer.Some? {
      GivesPayOut(swap.referrer.value, amount, rest);
    }
  }

  lemma RevealPaysOut(s: State, id: SwapId, caller: Address, digest: Digest)
    requires Local(s, id) && RevealPlan(s, id, caller, digest).Ok?
    ensures PaysOut(RevealPlan(s, id, caller, digest).value.moves)
  {
    var swap := s.swaps[id];
    var fee := Bps(swap.price, PROTOCOL_FEE_BPS).value;
    var referral := Referral(swap).value;
    var last := GiveCollateral(s.vault, id, swap, swap.buyer, Done);
    var pay := Give(swap.seller, swap.price - fee - referral, last);
    CollateralPaysOut(s.vault, id, swap, swap.buyer, Done);
    GivesPayOut(swap.seller, swap.price - fee - referral, last);
    ReferrerPaysOut(swap, referral, pay);
    GivesPayOut(TREASURY, fee, GiveReferrer(swap, referral, pay));
  }

  lemma RefundPaysOut(s: State, id: SwapId)
    requires Local(s, id) && id in s.swaps
    ensures PaysOut(RefundMoves(s.vault, id, s.swaps[id]))
  {
    CollateralPaysOut(s.vault, id, s.swaps[id], s.swaps[id].buyer, Done);
  }

  lemma CompletePaysOut(s: State, id: SwapId, fee: int)
    requires Local(s, id) && id in s.swaps && 0 <= fee <= s.swaps[id].price
    ensures PaysOut(CompleteMoves(s.vault, id, s.swaps[id], fee))
    ensures PaysOut(ArbitrateMoves(s.vault, id, s.swaps[id], fee))
  {
    var swap := s.swaps[id];
    CollateralPaysOut(s.vault, id, swap, swap.seller, Done);
    GivesPayOut(TREASURY, fee, GiveCollateral(s.vault, id, swap, swap.seller, Done));
    GivesPayOut(TREASURY, fee, Done);
    GivesPayOut(swap.seller, swap.price - fee, GiveSome(TREASURY, fee, Done));
    CollateralPaysOut(s.vault, id, swap, swap.seller,
                      Give(swap.seller, swap.price - fee, GiveSome(TREASURY, fee, Done)));
  }

  lemma VerifyPaysOut(s: State, id: SwapId, caller: Address, digest: Digest)
    requires Local(s, id) && VerifyAndCompletePlan(s, id, caller, digest).Ok?
    ensures PaysOut(VerifyAndCompletePlan(s, id, caller, digest).value.moves)
  {
    RefundPaysOut(s, id);
    if KeyOpens(s, s.swaps[id].ip, digest) {
      FeeWithin(s.swaps[id]);
      CompletePaysOut(s, id, Bps(s.swaps[id].price, PROTOCOL_FEE_BPS).value);
    }
  }

  lemma ArbitratePaysOut(s: State, id: SwapId, arbitrator: Address, refund: bool)
    requires Local(s, id) && ArbitratePlan(s, id, arbitrator, refund).Ok?
    ensures PaysOut(ArbitratePlan(s, id, arbitrator, refund).value.moves)
  {
    RefundPaysOut(s, id);
    if !refund {
      FeeWithin(s.swaps[id]);
      CompletePaysOut(s, id, Bps(s.swaps[id].price, PROTOCOL_FEE_BPS).value);
    }
  }

  lemma RollbackPaysOut(s: State, id: SwapId)
    requires Local(s, id) && id in s.swaps
    ensures PaysOut(RollBackMoves(s.vault, id, s.swaps[id]))
  {
    var premium := GiveSome(s.swaps[id].buyer, s.swaps[id].premium, Done);
    GivesPayOut(s.swaps[id].buyer, s.swaps[id].premium, Done);
    GivesPayOut(s.swaps[id].buyer, Stored(s.vault, id), premium);
  }

  lemma RevealAdmitted(s: State, id: SwapId, caller: Address, digest: Digest)
    requires Local(s, id)
    ensures Admits(s, id, RevealPlan(s, id, caller, digest), MayReveal(s, id, caller, digest))
  {
    if id in s.swaps {
      HoldsSatisfied(s.swaps[id].conditions, s.swaps[id].price, s.now);
    }
    if RevealPlan(s, id, caller, digest).Ok? {
      RevealPaysOut(s, id, caller, digest);
    }
    PaysOutAdmits(s, id, RevealPlan(s, id, caller, digest), MayReveal(s, id, caller, digest));
  }

  lemma VerifyAdmitted(s: State, id: SwapId, caller: Address, digest: Digest)
    requires Local(s, id)
    ensures Admits(s, id, VerifyAndCompletePlan(s, id, caller, digest), MayVerify(s, id, caller, digest))
  {
    if VerifyAndCompletePlan(s, id, caller, digest).Ok? {
      VerifyPaysOut(s, id, caller, digest);
    }
    PaysOutAdmits(s, id, VerifyAndCompletePlan(s, id, caller, digest), MayVerify(s, id, caller, digest));
  }

  lemma ResolveAdmitted(s: State, id: SwapId, caller: Address, refunded: bool)
    requires Local(s, id)
    ensures Admits(s, id, ResolveDisputePlan(s, id, caller, refunded), MayResolve(s, id, caller, refunded))
  {
    PaysOutAdmits(s, id, ResolveDisputePlan(s, id, caller, refunded), MayResolve(s, id, caller, refunded));
  }

  lemma TimeoutAdmitted(s: State, id: SwapId)
    requires Local(s, id)
    ensures Admits(s, id, AutoResolveDisputePlan(s, id), MayAutoResolve(s, id))
    ensures Admits(s, id, AutoRefundTimeoutPlan(s, id), MayAutoRefund(s, id))
  {
    PaysOutAdmits(s, id, AutoResolveDisputePlan(s, id), MayAutoResolve(s, id));
    PaysOutAdmits(s, id, AutoRefundTimeoutPlan(s, id), MayAutoRefund(s, id));
  }

  lemma ArbitrateAdmitted(s: State, id: SwapId, arbitrator: Address, refund: bool)
    requires Local(s, id)
    ensures Admits(s, id, ArbitratePlan(s, id, arbitrator, refund), MayArbitrate(s, id, arbitrator, refund))
  {
    if ArbitratePlan(s, id, arbitrator, refund).Ok? {
      ArbitratePaysOut(s, id, arbitrator, refund);
    }
    PaysOutAdmits(s, id, ArbitratePlan(s, id, arbitrator, refund), MayArbitrate(s, id, arbitrator, refund));
  }

  lemma CancelAdmitted(s: State, id: SwapId, caller: Address)
    ensures Admits(s, id, CancelPlan(s, id, caller), MayCancel(s, id, caller))
    ensures Admits(s, id, CancelPendingPlan(s, id, caller), MayCancelPending(s, id, caller))
  {
  }

  lemma CancelExpiredAdmitted(s: State, id: SwapId, caller: Address)
    requires Local(s, id)
    ensures Admits(s, id, CancelExpiredPlan(s, id, caller), MayCancelExpired(s, id, caller))
  {
    PaysOutAdmits(s, id, CancelExpiredPlan(s, id, caller), MayCancelExpired(s, id, caller));
  }

  lemma WithdrawAdmitted(s: State, id: SwapId)
    requires Local(s, id)
    ensures Admits(s, id, EscrowWithdrawPlan(s, id), MayWithdraw(s, id))
  {
    PaysOutAdmits(s, id, EscrowWithdrawPlan(s, id), MayWithdraw(s, id));
  }

  lemma RollBackAdmitted(s: State, id: SwapId, caller: Address)
    requires Local(s, id)
    ensures Admits(s, id, AdminRollbackPlan(s, id, caller), MayRollBack(s, id, caller))
  {
    if AdminRollbackPlan(s, id, caller).Ok? {
      RollbackPaysOut(s, id);
    }
    PaysOutAdmits(s, id, AdminRollbackPlan(s, id, caller), MayRollBack(s, id, caller));
  }

  lemma ReportAdmitted(s: State, id: SwapId, keyValid: bool)
    requires Local(s, id)
    ensures Admits(s, id, ValidateAndRollbackPlan(s, id, keyValid), MayReport(s, id, keyValid))
  {
    PaysOutAdmits(s, id, ValidateAndRollbackPlan(s, id, keyValid), MayReport(s, id, keyValid));
  }

  lemma ClaimAdmitted(s: State, id: SwapId)
    requires Local(s, id)
    ensures Admits(s, id, ClaimInsurancePlan(s, id), MayClaim(s, id))
  {
    PaysOutAdmits(s, id, ClaimInsurancePlan(s, id), MayClaim(s, id));
  }

  lemma DecidingAdmitted(s: State, id: SwapId, act: Act)
    requires Local(s, id)
    requires act.Reveal? || act.VerifyAndComplete? || act.ResolveDispute? || act.AutoResolveDispute?
      || act.AutoRefundTimeout? || act.Arbitrate?
    ensures Admits(s, id, Plan(s, id, act), May(s, id, act))
  {
    if act.Reveal? {
      RevealAdmitted(s, id, act.caller, act.digest);
    } else if act.VerifyAndComplete? {
      VerifyAdmitted(s, id, act.caller, act.digest);
    } else if act.ResolveDispute? {
      ResolveAdmitted(s, id, act.caller, act.refunded);
    } else if act.Arbitrate? {
      ArbitrateAdmitted(s, id, act.arbitrator, act.refund);
    } else {
      TimeoutAdmitted(s, id);
    }
  }

  lemma SettlingAdmitted(s: State, id: SwapId, act: Act)
    requires Local(s, id) && !Prepares(act)
    requires !(act.Reveal? || act.VerifyAndComplete? || act.ResolveDispute? || act.AutoResolveDispute?
               || act.AutoRefundTimeout? || act.Arbitrate?)
    ensures Admits(s, id, Plan(s, id, act), May(s, id, act))
  {
    if act.RequestArbitration? {
      DisputeAdmitted(s, id, act.requester);
    } else if act.RaiseDispute? {
      DisputeAdmitted(s, id, TREASURY);
    } else if act.Cancel? || act.CancelPending? {
      CancelAdmitted(s, id, act.caller);
    } else if act.CancelExpired? {
      CancelExpiredAdmitted(s, id, act.caller);
    } else if act.EscrowWithdraw? {
      WithdrawAdmitted(s, id);
    } else if act.AdminRollback? {
      RollBackAdmitted(s, id, act.caller);
    } else if act.ValidateAndRollback? {
      ReportAdmitted(s, id, act.keyValid);
    } else {
      ClaimAdmitted(s, id);
    }
  }

  // ── All calls about one swap ─────────────────────────────────────────────

  lemma ActAdmitted(s: State, id: SwapId, act: Act)
    requires Local(s, id)
    ensures Admits(s, id, Plan(s, id, act), May(s, id, act))
  {
    if Prepares(act) {
      PreparingAdmitted(s, id, act);
    } else if act.Reveal? || act.VerifyAndComplete? || act.ResolveDispute? || act.AutoResolveDispute?
              || act.AutoRefundTimeout? || act.Arbitrate? {
      DecidingAdmitted(s, id, act);
    } else {
      SettlingAdmitted(s, id, act);
    }
  }

  /** In every store that is in order, a call goes through exactly when it may, unless the contract lacks the funds. */
  lemma GoesThroughExactly(s: State, id: SwapId, act: Act)
    requires Inv(s)
    ensures Step(s, On(id, act)).Ok? <==> May(s, id, act) && Step(s, On(id, act)) != Err(InsufficientBalance(Contract))
  {
    LocalFromInv(s, id);
    ActAdmitted(s, id, act);
  }

  /** Along every run of backed calls from a new contract that proviso falls away: the next backed call goes through
      exactly when it may. */
  lemma RunGoesThroughExactly(s: State, ops: seq<Op>, id: SwapId, act: Act)
    requires Genesis(s) && BackedRun(s, ops) && BackedAct(Run(s, ops), id, act)
    ensures Step(Run(s, ops), On(id, act)).Ok? <==> May(Run(s, ops), id, act)
  {
    GenesisOk(s);
    RunInv(s, ops);
    NeverShort(s, ops, On(id, act));
    GoesThroughExactly(Run(s, ops), id, act);
  }
}

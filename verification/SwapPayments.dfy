/** A call about one stored swap changes the balances of accounts exactly as the rules say: who is paid, by whom and
    how much, to the last unit. */
module SwapPayments {
  import opened Common
  import opened SwapState
  import opened SwapSpec
  import opened SwapClaims
  import opened SwapRuns
  import opened SwapMoney
  import opened SwapActs
  import opened SwapBatches
  import opened SwapBook
  import opened SwapRules

  /** What the plan moves is what the rules say that the call gives to `a`. */
  ghost predicate Moving(s: State, id: SwapId, plan: Result<Change>, act: Act, a: Address) {
    plan.Ok? ==> id in s.swaps && Flow(plan.value.moves, a) == Receives(s, id, act, a)
  }

  // ── Shares of a price ────────────────────────────────────────────────────

  lemma FeeIs(price: int)
    requires price > 0
    ensures TruncDiv(price * PROTOCOL_FEE_BPS, 10_000) == Fee(price)
    ensures Bps(price, PROTOCOL_FEE_BPS).Ok? ==> Bps(price, PROTOCOL_FEE_BPS).value == Fee(price)
    ensures 0 <= Fee(price) <= price
  {
  }

  lemma ReferralIs(swap: SwapRecord)
    requires swap.price > 0 && Referral(swap).Ok?
    ensures Referral(swap).value == ReferralShare(swap) >= 0
  {
  }

  lemma NineTenths(price: int)
    requires price > 0
    ensures TruncDiv(price * 90, 100) == price * 9 / 10 <= price
  {
  }

  // ── Chains of payments ───────────────────────────────────────────────────

  lemma TakeFlow(from: Address, amount: int, rest: Moves, a: Address)
    requires a.Account?
    ensures Flow(Take(from, amount, rest), a) == Flow(rest, a) - Share(a == from, amount)
  {
  }

  lemma CollateralFlow(s: State, id: SwapId, to: Address, rest: Moves, a: Address)
    requires id in s.swaps && a.Account?
    ensures Flow(GiveCollateral(s.vault, id, s.swaps[id], to, rest), a)
      == Flow(rest, a) + Share(a == to, Collateral(s, id))
  {
    FlowGive(to, Stored(s.vault, id), rest, a);
  }

  lemma ReferrerFlow(swap: SwapRecord, amount: nat, rest: Moves, a: Address)
    requires a.Account? && (swap.referrer.Some? || amount == 0)
    ensures Flow(GiveReferrer(swap, amount, rest), a) == Flow(rest, a) + Share(swap.referrer == Some(a), amount)
  {
    if swap.referrer.Some? {
      FlowGive(swap.referrer.value, amount, rest, a);
    }
  }

  lemma RefundFlow(s: State, id: SwapId, a: Address)
    requires id in s.swaps && a.Account?
    ensures Flow(RefundMoves(s.vault, id, s.swaps[id]), a) == BuyerWins(s.swaps[id], Collateral(s, id), a)
  {
    var swap := s.swaps[id];
    CollateralFlow(s, id, swap.buyer, Done, a);
    FlowGive(swap.buyer, swap.price, GiveCollateral(s.vault, id, swap, swap.buyer, Done), a);
  }

  lemma CompleteFlow(s: State, id: SwapId, a: Address)
    requires Local(s, id) && id in s.swaps && a.Account?
    ensures Flow(CompleteMoves(s.vault, id, s.swaps[id], Fee(s.swaps[id].price)), a)
      == SellerWins(s.swaps[id], Collateral(s, id), a)
    ensures Flow(ArbitrateMoves(s.vault, id, s.swaps[id], Fee(s.swaps[id].price)), a)
      == SellerWins(s.swaps[id], Collateral(s, id), a)
  {
    var swap := s.swaps[id];
    var fee := Fee(swap.price);
    FeeIs(swap.price);
    var last := GiveCollateral(s.vault, id, swap, swap.seller, Done);
    CollateralFlow(s, id, swap.seller, Done, a);
    FlowGive(TREASURY, fee, last, a);
    FlowGive(swap.seller, swap.price - fee, GiveSome(TREASURY, fee, last), a);
    FlowGive(TREASURY, fee, Done, a);
    FlowGive(swap.seller, swap.price - fee, GiveSome(TREASURY, fee, Done), a);
    CollateralFlow(s, id, swap.seller, Give(swap.seller, swap.price - fee, GiveSome(TREASURY, fee, Done)), a);
  }

  // ── Call by call ─────────────────────────────────────────────────────────

  lemma AcceptFlow(s: State, id: SwapId, a: Address)
    requires a.Account?
    ensures Moving(s, id, AcceptPlan(s, id), Accept, a)
  {
    if AcceptPlan(s, id).Ok? {
      var swap := s.swaps[id];
      var gate := Gate(Fits(Pool(s.vault, swap.token) + PremiumDue(swap)), Done);
      assert Flow(gate, a) == 0;
      var insurance := if PremiumDue(swap) > 0 then Take(swap.buyer, PremiumDue(swap), gate) else Done;
      var payment := Take(swap.buyer, swap.price, insurance);
      TakeFlow(swap.buyer, PremiumDue(swap), gate, a);
      TakeFlow(swap.buyer, swap.price, insurance, a);
      TakeFlow(swap.buyer, swap.collateralAmount, payment, a);
    }
  }

  lemma SimplePaymentFlow(s: State, id: SwapId, act: Act, a: Address)
    requires Local(s, id) && a.Account?
    requires act.AcceptConditional? || act.AcceptPartial? || act.EscrowDeposit? || act.SubmitInstallment?
    ensures Moving(s, id, Plan(s, id, act), act, a)
  {
    if Plan(s, id, act).Ok? {
      TakeFlow(s.swaps[id].buyer, s.swaps[id].price, Done, a);
      if act.SubmitInstallment? {
        TakeFlow(s.swaps[id].buyer, act.amount, Done, a);
      }
    }
  }

  lemma ScheduledFlow(s: State, id: SwapId, index: nat, a: Address)
    requires a.Account?
    ensures Moving(s, id, ScheduledPaymentPlan(s, id, index), MakeScheduledPayment(index), a)
  {
    if ScheduledPaymentPlan(s, id, index).Ok? {
      var gate := Gate(index < |Flags(s, id)|, Done);
      assert Flow(gate, a) == 0;
      TakeFlow(s.swaps[id].buyer, s.side.schedules[id][index].amount, gate, a);
    }
  }

  lemma PreparingFlow(s: State, id: SwapId, act: Act, a: Address)
    requires Local(s, id) && a.Account? && Prepares(act)
    ensures Moving(s, id, Plan(s, id, act), act, a)
  {
    if act.Accept? {
      AcceptFlow(s, id, a);
    } else if act.AcceptConditional? || act.AcceptPartial? || act.EscrowDeposit? || act.SubmitInstallment? {
      SimplePaymentFlow(s, id, act, a);
    } else if act.MakeScheduledPayment? {
      ScheduledFlow(s, id, act.index, a);
    }
  }

  lemma ProceedsFlow(s: State, id: SwapId, proceeds: int, a: Address)
    requires id in s.swaps && a.Account?
    ensures var last := GiveCollateral(s.vault, id, s.swaps[id], s.swaps[id].buyer, Done);
            Flow(Give(s.swaps[id].seller, proceeds, last), a)
            == Share(a == s.swaps[id].seller, proceeds) + Share(a == s.swaps[id].buyer, Collateral(s, id))
  {
    CollateralFlow(s, id, s.swaps[id].buyer, Done, a);
    FlowGive(s.swaps[id].seller, proceeds, GiveCollateral(s.vault, id, s.swaps[id], s.swaps[id].buyer, Done), a);
  }

  lemma SharesFlow(s: State, id: SwapId, fee: nat, referral: nat, a: Address)
    requires id in s.swaps && a.Account? && (s.swaps[id].referrer.Some? || referral == 0)
    ensures var swap := s.swaps[id];
            Flow(RevealMoves(s.vault, id, swap, fee, referral), a)
            == Share(a == swap.seller, swap.price - fee - referral) + Share(a == TREASURY, fee)
               + Share(swap.referrer == Some(a), referral) + Share(a == swap.buyer, Collateral(s, id))
  {
    var swap := s.swaps[id];
    var pay := Give(swap.seller, swap.price - fee - referral, GiveCollateral(s.vault, id, swap, swap.buyer, Done));
    ProceedsFlow(s, id, swap.price - fee - referral, a);
    ReferrerFlow(swap, referral, pay, a);
    FlowGive(TREASURY, fee, GiveReferrer(swap, referral, pay), a);
  }

  lemma RevealMovesFlow(s: State, id: SwapId, a: Address)
    requires Local(s, id) && id in s.swaps && a.Account?
    ensures Flow(RevealMoves(s.vault, id, s.swaps[id], Fee(s.swaps[id].price), ReferralShare(s.swaps[id])), a)
      == FromReveal(s.swaps[id], Collateral(s, id), a)
  {
    FeeIs(s.swaps[id].price);
    SharesFlow(s, id, Fee(s.swaps[id].price), ReferralShare(s.swaps[id]), a);
  }

  lemma RevealFlow(s: State, id: SwapId, caller: Address, digest: Digest, a: Address)
    requires Local(s, id) && a.Account?
    ensures Moving(s, id, RevealPlan(s, id, caller, digest), Reveal(caller, digest), a)
  {
    if RevealPlan(s, id, caller, digest).Ok? {
      FeeIs(s.swaps[id].price);
      ReferralIs(s.swaps[id]);
      RevealMovesFlow(s, id, a);
    }
  }

  lemma VerifyFlow(s: State, id: SwapId, caller: Address, digest: Digest, a: Address)
    requires Local(s, id) && a.Account?
    ensures Moving(s, id, VerifyAndCompletePlan(s, id, caller, digest), VerifyAndComplete(caller, digest), a)
  {
    if VerifyAndCompletePlan(s, id, caller, digest).Ok? {
      FeeIs(s.swaps[id].price);
      RefundFlow(s, id, a);
      CompleteFlow(s, id, a);
    }
  }

  lemma ArbitrateFlow(s: State, id: SwapId, arbitrator: Address, refund: bool, a: Address)
    requires Local(s, id) && a.Account?
    ensures Moving(s, id, ArbitratePlan(s, id, arbitrator, refund), Arbitrate(arbitrator, refund), a)
  {
    if ArbitratePlan(s, id, arbitrator, refund).Ok? {
      if refund {
        RefundFlow(s, id, a);
      } else {
        FeeIs(s.swaps[id].price);
        CompleteFlow(s, id, a);
      }
    }
  }

  lemma ResolveFlow(s: State, id: SwapId, caller: Address, refunded: bool, a: Address)
    requires Local(s, id) && a.Account?
    ensures Moving(s, id, ResolveDisputePlan(s, id, caller, refunded), ResolveDispute(caller, refunded), a)
  {
    if ResolveDisputePlan(s, id, caller, refunded).Ok? {
      var swap := s.swaps[id];
      FeeIs(swap.price);
      FlowGive(swap.buyer, swap.price, Done, a);
      FlowGive(swap.seller, swap.price - Fee(swap.price), Done, a);
      FlowGive(TREASURY, Fee(swap.price), Give(swap.seller, swap.price - Fee(swap.price), Done), a);
    }
  }

  lemma TimeoutFlow(s: State, id: SwapId, a: Address)
    requires a.Account?
    ensures Moving(s, id, AutoResolveDisputePlan(s, id), AutoResolveDispute, a)
    ensures Moving(s, id, AutoRefundTimeoutPlan(s, id), AutoRefundTimeout, a)
  {
    if id in s.swaps {
      FlowGive(s.swaps[id].buyer, s.swaps[id].price, Done, a);
    }
  }

  lemma CancelExpiredFlow(s: State, id: SwapId, caller: Address, a: Address)
    requires a.Account?
    ensures Moving(s, id, CancelExpiredPlan(s, id, caller), CancelExpired(caller), a)
  {
    if id in s.swaps {
      RefundFlow(s, id, a);
    }
  }

  lemma WithdrawFlow(s: State, id: SwapId, a: Address)
    requires Local(s, id) && a.Account?
    ensures Moving(s, id, EscrowWithdrawPlan(s, id), EscrowWithdraw, a)
  {
    if id in s.swaps {
      FlowGive(s.swaps[id].buyer, Lookup(s.vault.deposits, id, 0), Done, a);
    }
  }

  lemma RollbackFlow(s: State, id: SwapId, caller: Address, a: Address)
    requires Local(s, id) && a.Account?
    ensures Moving(s, id, AdminRollbackPlan(s, id, caller), AdminRollback(caller), a)
  {
    if id in s.swaps {
      var swap := s.swaps[id];
      var premium := GiveSome(swap.buyer, swap.premium, Done);
      var stored := Give(swap.buyer, Stored(s.vault, id), premium);
      FlowGive(swap.buyer, swap.premium, Done, a);
      FlowGive(swap.buyer, Stored(s.vault, id), premium, a);
      FlowGive(swap.buyer, swap.price, if id in s.vault.collateral then stored else premium, a);
    }
  }

  lemma ReportFlow(s: State, id: SwapId, keyValid: bool, a: Address)
    requires Local(s, id) && a.Account?
    ensures Moving(s, id, ValidateAndRollbackPlan(s, id, keyValid), ValidateAndRollback(keyValid), a)
  {
    if id in s.swaps {
      var swap := s.swaps[id];
      var refund := swap.price * 9 / 10;
      NineTenths(swap.price);
      FlowGive(TREASURY, swap.price - refund, Done, a);
      FlowGive(swap.buyer, refund, GiveSome(TREASURY, swap.price - refund, Done), a);
    }
  }

  lemma ClaimFlow(s: State, id: SwapId, a: Address)
    requires a.Account?
    ensures Moving(s, id, ClaimInsurancePlan(s, id), ClaimInsurance, a)
  {
    if id in s.swaps {
      var swap := s.swaps[id];
      var funds := Pool(s.vault, swap.token);
      FlowGive(swap.buyer, if funds >= swap.price then swap.price else funds, Done, a);
    }
  }

  lemma DecidingFlow(s: State, id: SwapId, act: Act, a: Address)
    requires Local(s, id) && a.Account?
    requires act.Reveal? || act.VerifyAndComplete? || act.ResolveDispute? || act.AutoResolveDispute?
      || act.AutoRefundTimeout? || act.Arbitrate?
    ensures Moving(s, id, Plan(s, id, act), act, a)
  {
    if act.Reveal? {
      RevealFlow(s, id, act.caller, act.digest, a);
    } else if act.VerifyAndComplete? {
      VerifyFlow(s, id, act.caller, act.digest, a);
    } else if act.ResolveDispute? {
      ResolveFlow(s, id, act.caller, act.refunded, a);
    } else if act.Arbitrate? {
      ArbitrateFlow(s, id, act.arbitrator, act.refund, a);
    } else {
      TimeoutFlow(s, id, a);
    }
  }

  lemma ReturningFlow(s: State, id: SwapId, act: Act, a: Address)
    requires Local(s, id) && a.Account?
    requires act.CancelExpired? || act.EscrowWithdraw? || act.AdminRollback? || act.ValidateAndRollback?
      || act.ClaimInsurance?
    ensures Moving(s, id, Plan(s, id, act), act, a)
  {
    if act.CancelExpired? {
      CancelExpiredFlow(s, id, act.caller, a);
    } else if act.EscrowWithdraw? {
      WithdrawFlow(s, id, a);
    } else if act.AdminRollback? {
      RollbackFlow(s, id, act.caller, a);
    } else if act.ValidateAndRollback? {
      ReportFlow(s, id, act.keyValid, a);
    } else {
      ClaimFlow(s, id, a);
    }
  }

  lemma ActFlow(s: State, id: SwapId, act: Act, a: Address)
    requires Local(s, id) && a.Account?
    ensures Moving(s, id, Plan(s, id, act), act, a)
  {
    if Prepares(act) {
      PreparingFlow(s, id, act, a);
    } else if act.Reveal? || act.VerifyAndComplete? || act.ResolveDispute? || act.AutoResolveDispute?
              || act.AutoRefundTimeout? || act.Arbitrate? {
      DecidingFlow(s, id, act, a);
    } else if act.CancelExpired? || act.EscrowWithdraw? || act.AdminRollback? || act.ValidateAndRollback?
              || act.ClaimInsurance? {
      ReturningFlow(s, id, act, a);
    }
  }

  // ── All calls about one swap ─────────────────────────────────────────────

  lemma DonePaysExactly(s: State, id: SwapId, plan: Result<Change>, act: Act, t: Token, a: Address)
    requires Do(s, id, plan).Ok? && id in s.swaps && plan.value.swap.token == s.swaps[id].token
    requires Moving(s, id, plan, act, a)
    ensures Funds(Do(s, id, plan).value, t, a)
      == Funds(s, t, a) + Share(t == s.swaps[id].token, Receives(s, id, act, a))
  {
    SettleFlow(s.bank, s.swaps[id].token, plan.value.moves, t, a);
  }

  /** A call that goes through gives every account exactly what the rules say, in the token of the swap, and changes no
      balance in any other token. */
  lemma PaysExactly(s: State, id: SwapId, act: Act, t: Token, a: Address)
    requires Inv(s) && Step(s, On(id, act)).Ok? && a.Account?
    ensures id in s.swaps
    ensures Funds(Step(s, On(id, act)).value, t, a)
      == Funds(s, t, a) + Share(t == s.swaps[id].token, Receives(s, id, act, a))
  {
    LocalFromInv(s, id);
    ActFlow(s, id, act, a);
    ActParties(s, id, act);
    DonePaysExactly(s, id, Plan(s, id, act), act, t, a);
  }
}

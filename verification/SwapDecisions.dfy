/** The calls that decide over the price of a swap, spelled out: which way they decide, and who is paid what. */
module SwapDecisions {
  import opened Common
  import opened SwapState
  import opened SwapSpec
  import opened SwapClaims
  import opened SwapRuns
  import opened SwapRules
  import opened SwapPayments
  import opened SwapOutcomes

  /** The store after a call that goes through. */
  function Next(s: State, id: SwapId, act: Act): State
    requires Step(s, On(id, act)).Ok?
  {
    Step(s, On(id, act)).value
  }

  /** The seller has the price but for the fee, the treasury the fee, and the seller the collateral; or the buyer has
      both back. Nobody else has gained or lost anything, in any token. */
  ghost predicate PaidOut(s: State, s': State, swap: SwapRecord, collateral: int) {
    forall t: Token, a: Address :: a.Account? ==>
      Funds(s', t, a) == Funds(s, t, a)
        + Share(t == swap.token && a == swap.seller, swap.price - swap.price / 40 + collateral)
        + Share(t == swap.token && a == TREASURY, swap.price / 40)
  }

  ghost predicate PaidBack(s: State, s': State, swap: SwapRecord, collateral: int) {
    forall t: Token, a: Address :: a.Account? ==>
      Funds(s', t, a) == Funds(s, t, a) + Share(t == swap.token && a == swap.buyer, swap.price + collateral)
  }

  lemma SellerIsPaid(s: State, id: SwapId, act: Act, collateral: int)
    requires Inv(s) && Step(s, On(id, act)).Ok? && id in s.swaps
    requires forall a: Address :: a.Account? ==> Receives(s, id, act, a) == SellerWins(s.swaps[id], collateral, a)
    ensures PaidOut(s, Next(s, id, act), s.swaps[id], collateral)
  {
    forall t: Token, a: Address | a.Account?
      ensures Funds(Next(s, id, act), t, a) == Funds(s, t, a)
        + Share(t == s.swaps[id].token, SellerWins(s.swaps[id], collateral, a))
    {
      PaysExactly(s, id, act, t, a);
    }
  }

  lemma BuyerIsPaid(s: State, id: SwapId, act: Act, collateral: int)
    requires Inv(s) && Step(s, On(id, act)).Ok? && id in s.swaps
    requires forall a: Address :: a.Account? ==> Receives(s, id, act, a) == BuyerWins(s.swaps[id], collateral, a)
    ensures PaidBack(s, Next(s, id, act), s.swaps[id], collateral)
  {
    forall t: Token, a: Address | a.Account?
      ensures Funds(Next(s, id, act), t, a) == Funds(s, t, a)
        + Share(t == s.swaps[id].token, BuyerWins(s.swaps[id], collateral, a))
    {
      PaysExactly(s, id, act, t, a);
    }
  }

  lemma EndsAs(s: State, id: SwapId, act: Act)
    requires Inv(s) && Step(s, On(id, act)).Ok?
    ensures id in s.swaps && Is(Next(s, id, act), id, Becomes(s, id, act))
  {
    LeavesExactly(s, id, act);
  }

  lemma KeyIsCompared(s: State, id: SwapId, caller: Address, digest: Digest)
    requires Step(s, On(id, VerifyAndComplete(caller, digest))).Ok?
    ensures id in s.swaps && s.swaps[id].ip in s.world.ips
  {
    assert VerifyAndCompletePlan(s, id, caller, digest).Ok?;
  }

  /** A seller's key completes the swap if it is the key of the IP's commitment, and cancels it otherwise. */
  lemma KeyDecides(s: State, id: SwapId, caller: Address, digest: Digest)
    requires Inv(s) && Step(s, On(id, VerifyAndComplete(caller, digest))).Ok?
    ensures id in s.swaps && s.swaps[id].ip in s.world.ips
    ensures var s' := Next(s, id, VerifyAndComplete(caller, digest));
            if s.world.ips[s.swaps[id].ip].commitment == digest
            then Is(s', id, Completed) && PaidOut(s, s', s.swaps[id], Collateral(s, id))
            else Is(s', id, Cancelled) && PaidBack(s, s', s.swaps[id], Collateral(s, id))
  {
    var act := VerifyAndComplete(caller, digest);
    EndsAs(s, id, act);
    KeyIsCompared(s, id, caller, digest);
    if RightKey(s, id, digest) {
      SellerIsPaid(s, id, act, Collateral(s, id));
    } else {
      BuyerIsPaid(s, id, act, Collateral(s, id));
    }
  }

  lemma DisputeKeepsCollateral(s: State, id: SwapId, caller: Address, refunded: bool)
    requires Inv(s) && Step(s, On(id, ResolveDispute(caller, refunded))).Ok?
    ensures Next(s, id, ResolveDispute(caller, refunded)).vault.collateral == s.vault.collateral
  {
    LeavesExactly(s, id, ResolveDispute(caller, refunded));
  }

  /** The administrator's word decides a dispute: `refunded` gives the price back, and the collateral stays. */
  lemma AdminDecides(s: State, id: SwapId, caller: Address, refunded: bool)
    requires Inv(s) && Step(s, On(id, ResolveDispute(caller, refunded))).Ok?
    ensures id in s.swaps
    ensures var s' := Next(s, id, ResolveDispute(caller, refunded));
            && s'.vault.collateral == s.vault.collateral
            && if refunded
               then Is(s', id, Cancelled) && PaidBack(s, s', s.swaps[id], 0)
               else Is(s', id, Completed) && PaidOut(s, s', s.swaps[id], 0)
  {
    var act := ResolveDispute(caller, refunded);
    EndsAs(s, id, act);
    DisputeKeepsCollateral(s, id, caller, refunded);
    if refunded {
      BuyerIsPaid(s, id, act, 0);
    } else {
      SellerIsPaid(s, id, act, 0);
    }
  }

  /** So does an arbitrator's, and he hands out the collateral with the price. */
  lemma ArbitratorDecides(s: State, id: SwapId, arbitrator: Address, refund: bool)
    requires Inv(s) && Step(s, On(id, Arbitrate(arbitrator, refund))).Ok?
    ensures id in s.swaps
    ensures var s' := Next(s, id, Arbitrate(arbitrator, refund));
            if refund
            then Is(s', id, Cancelled) && PaidBack(s, s', s.swaps[id], Collateral(s, id))
            else Is(s', id, Completed) && PaidOut(s, s', s.swaps[id], Collateral(s, id))
  {
    var act := Arbitrate(arbitrator, refund);
    EndsAs(s, id, act);
    if refund {
      BuyerIsPaid(s, id, act, Collateral(s, id));
    } else {
      SellerIsPaid(s, id, act, Collateral(s, id));
    }
  }

  /** Time decides for the buyer: an expired swap pays him back price and collateral, a dispute that has timed out, in
      either way, the price. */
  lemma TimeDecides(s: State, id: SwapId, act: Act)
    requires Inv(s) && Step(s, On(id, act)).Ok?
    requires act.CancelExpired? || act.AutoResolveDispute? || act.AutoRefundTimeout?
    ensures id in s.swaps && Is(Next(s, id, act), id, Cancelled)
    ensures PaidBack(s, Next(s, id, act), s.swaps[id], if act.CancelExpired? then Collateral(s, id) else 0)
  {
    EndsAs(s, id, act);
    BuyerIsPaid(s, id, act, if act.CancelExpired? then Collateral(s, id) else 0);
  }
}

/** A call about one stored swap leaves exactly what the rules say: the record with its status and clocks, the entries
    that hold money, all other entries, the history and the reputations, and nothing else. */
module SwapOutcomes {
  import opened Common
  import opened SwapState
  import opened SwapSpec
  import opened SwapClaims
  import opened SwapRuns
  import opened SwapActs
  import opened SwapBatches
  import opened SwapBook
  import opened SwapRules

  // ── What a plan leaves ───────────────────────────────────────────────────

  /** The swap and its history. */
  predicate RecordFits(s: State, id: SwapId, plan: Result<Change>, act: Act) {
    plan.Ok? ==>
      id in s.swaps && plan.value.swap == Updated(s, id, act) && (plan.value.logged <==> Writes(s, id, act))
  }

  /** The entries that hold money. */
  ghost predicate VaultFits(s: State, id: SwapId, plan: Result<Change>, act: Act) {
    plan.Ok? && id in s.swaps ==>
      && plan.value.vault.collateral == CollateralAfter(s, id, act)
      && plan.value.vault.deposits == DepositsAfter(s, id, act)
      && (forall t :: Pool(plan.value.vault, t)
                      == if t == s.swaps[id].token then InsuranceAfter(s, id, act) else Insurance(s, t))
  }

  /** Reputations, and all other entries. */
  ghost predicate EntriesFit(s: State, id: SwapId, plan: Result<Change>, act: Act) {
    plan.Ok? && id in s.swaps ==>
      && plan.value.side == EntriesAfter(s, id, act)
      && (forall a :: Lookup(plan.value.reputation, a, 50)
                      == StandingAfter(s, id, act, a))
  }

  ghost predicate Fitting(s: State, id: SwapId, plan: Result<Change>, act: Act) {
    RecordFits(s, id, plan, act) && VaultFits(s, id, plan, act) && EntriesFit(s, id, plan, act)
  }

  lemma AcceptFits(s: State, id: SwapId)
    ensures Fitting(s, id, AcceptPlan(s, id), Accept)
  {
  }

  lemma AcceptTermsFit(s: State, id: SwapId, conditions: seq<Condition>, quantity: nat)
    requires Local(s, id)
    ensures Fitting(s, id, AcceptConditionalPlan(s, id, conditions), AcceptConditional(conditions))
    ensures Fitting(s, id, AcceptPartialPlan(s, id, quantity), AcceptPartial(quantity))
  {
  }

  lemma DepositFits(s: State, id: SwapId)
    ensures Fitting(s, id, EscrowDepositPlan(s, id), EscrowDeposit)
  {
  }

  lemma SubmitFits(s: State, id: SwapId, amount: I128)
    requires Local(s, id)
    ensures Fitting(s, id, SubmitInstallmentPlan(s, id, amount), SubmitInstallment(amount))
  {
  }

  lemma LastFlag(s: State, id: SwapId, index: nat)
    requires index < |Flags(s, id)|
    ensures AllPaid(Flags(s, id)[index := true]) <==> Completes(s, id, index)
  {
    var marked := Flags(s, id)[index := true];
    if AllPaid(marked) {
      forall i | 0 <= i < |Flags(s, id)| && i != index ensures Flags(s, id)[i] {
        assert marked[i];
      }
    }
  }

  lemma ScheduledFits(s: State, id: SwapId, index: nat)
    requires Do(s, id, ScheduledPaymentPlan(s, id, index)).Ok?
    ensures Fitting(s, id, ScheduledPaymentPlan(s, id, index), MakeScheduledPayment(index))
  {
    ScheduledPaymentDone(s, id, index);
    LastFlag(s, id, index);
  }

  lemma RenegotiateFits(s: State, id: SwapId, price: I128)
    ensures Fitting(s, id, RenegotiatePlan(s, id, price), Renegotiate(price))
  {
  }

  lemma AcceptRenegotiationFits(s: State, id: SwapId)
    ensures Fitting(s, id, AcceptRenegotiationPlan(s, id), AcceptRenegotiation)
  {
  }

  lemma ExtendFits(s: State, id: SwapId, expiry: nat)
    ensures Fitting(s, id, ExtendExpiryPlan(s, id, expiry), ExtendExpiry(expiry))
  {
  }

  lemma ApproveFits(s: State, id: SwapId, approver: Address)
    ensures Fitting(s, id, ApprovePlan(s, id, approver), Approve(approver))
  {
  }

  lemma SetMinReputationFits(s: State, id: SwapId, minimum: nat)
    ensures Fitting(s, id, SetMinReputationPlan(s, id, minimum), SetMinReputation(minimum))
  {
  }

  lemma SignFits(s: State, id: SwapId, signer: Address)
    ensures Fitting(s, id, SignRevealPlan(s, id, signer), SignReveal(signer))
  {
  }

  lemma PreparingFits(s: State, id: SwapId, act: Act)
    requires Local(s, id) && Prepares(act) && Do(s, id, Plan(s, id, act)).Ok?
    ensures Fitting(s, id, Plan(s, id, act), act)
  {
    if act.Accept? {
      AcceptFits(s, id);
    } else if act.AcceptConditional? {
      AcceptTermsFit(s, id, act.conditions, 0);
    } else if act.AcceptPartial? {
      AcceptTermsFit(s, id, [], act.quantity);
    } else if act.EscrowDeposit? {
      DepositFits(s, id);
    } else if act.SubmitInstallment? {
      SubmitFits(s, id, act.amount);
    } else if act.MakeScheduledPayment? {
      ScheduledFits(s, id, act.index);
    } else if act.Renegotiate? {
      RenegotiateFits(s, id, act.price);
    } else if act.AcceptRenegotiation? {
      AcceptRenegotiationFits(s, id);
    } else if act.ExtendExpiry? {
      ExtendFits(s, id, act.expiry);
    } else if act.Approve? {
      ApproveFits(s, id, act.approver);
    } else if act.SetMinReputation? {
      SetMinReputationFits(s, id, act.minimum);
    } else {
      SignFits(s, id, act.signer);
    }
  }

  lemma RaiseDisputeFits(s: State, id: SwapId)
    ensures Fitting(s, id, RaiseDisputePlan(s, id), RaiseDispute)
  {
  }

  lemma RequestArbitrationFits(s: State, id: SwapId, requester: Address)
    ensures Fitting(s, id, RequestArbitrationPlan(s, id, requester), RequestArbitration(requester))
  {
  }

  lemma RevealRecordFits(s: State, id: SwapId, caller: Address, digest: Digest)
    ensures RecordFits(s, id, RevealPlan(s, id, caller, digest), Reveal(caller, digest))
  {
  }

  lemma RevealVaultFits(s: State, id: SwapId, caller: Address, digest: Digest)
    ensures VaultFits(s, id, RevealPlan(s, id, caller, digest), Reveal(caller, digest))
  {
  }

  lemma RevealEntriesFit(s: State, id: SwapId, caller: Address, digest: Digest)
    ensures EntriesFit(s, id, RevealPlan(s, id, caller, digest), Reveal(caller, digest))
  {
  }

  lemma RevealFits(s: State, id: SwapId, caller: Address, digest: Digest)
    ensures Fitting(s, id, RevealPlan(s, id, caller, digest), Reveal(caller, digest))
  {
    RevealRecordFits(s, id, caller, digest);
    RevealVaultFits(s, id, caller, digest);
    RevealEntriesFit(s, id, caller, digest);
  }

  lemma VerifyVaultFits(s: State, id: SwapId, caller: Address, digest: Digest)
    ensures VaultFits(s, id, VerifyAndCompletePlan(s, id, caller, digest), VerifyAndComplete(caller, digest))
  {
  }

  lemma VerifyEntriesFit(s: State, id: SwapId, caller: Address, digest: Digest)
    ensures EntriesFit(s, id, VerifyAndCompletePlan(s, id, caller, digest), VerifyAndComplete(caller, digest))
  {
  }

  lemma VerifyFits(s: State, id: SwapId, caller: Address, digest: Digest)
    ensures Fitting(s, id, VerifyAndCompletePlan(s, id, caller, digest), VerifyAndComplete(caller, digest))
  {
    VerifyVaultFits(s, id, caller, digest);
    VerifyEntriesFit(s, id, caller, digest);
  }

  lemma ResolveFits(s: State, id: SwapId, caller: Address, refunded: bool)
    ensures Fitting(s, id, ResolveDisputePlan(s, id, caller, refunded), ResolveDispute(caller, refunded))
  {
  }

  lemma AutoResolveFits(s: State, id: SwapId)
    ensures Fitting(s, id, AutoResolveDisputePlan(s, id), AutoResolveDispute)
  {
  }

  lemma AutoRefundFits(s: State, id: SwapId)
    ensures Fitting(s, id, AutoRefundTimeoutPlan(s, id), AutoRefundTimeout)
  {
  }

  lemma ArbitrateFits(s: State, id: SwapId, arbitrator: Address, refund: bool)
    ensures Fitting(s, id, ArbitratePlan(s, id, arbitrator, refund), Arbitrate(arbitrator, refund))
  {
  }

  lemma DecidingFits(s: State, id: SwapId, act: Act)
    requires act.Reveal? || act.VerifyAndComplete? || act.ResolveDispute? || act.AutoResolveDispute?
      || act.AutoRefundTimeout? || act.Arbitrate?
    ensures Fitting(s, id, Plan(s, id, act), act)
  {
    if act.Reveal? {
      RevealFits(s, id, act.caller, act.digest);
    } else if act.VerifyAndComplete? {
      VerifyFits(s, id, act.caller, act.digest);
    } else if act.ResolveDispute? {
      ResolveFits(s, id, act.caller, act.refunded);
    } else if act.Arbitrate? {
      ArbitrateFits(s, id, act.arbitrator, act.refund);
    } else {
      AutoResolveFits(s, id);
      AutoRefundFits(s, id);
    }
  }

  lemma CancelFits(s: State, id: SwapId, caller: Address)
    ensures Fitting(s, id, CancelPlan(s, id, caller), Cancel(caller))
  {
  }

  lemma CancelPendingFits(s: State, id: SwapId, caller: Address)
    ensures Fitting(s, id, CancelPendingPlan(s, id, caller), CancelPending(caller))
  {
  }

  lemma CancelExpiredFits(s: State, id: SwapId, caller: Address)
    ensures Fitting(s, id, CancelExpiredPlan(s, id, caller), CancelExpired(caller))
  {
  }

  lemma WithdrawFits(s: State, id: SwapId)
    ensures Fitting(s, id, EscrowWithdrawPlan(s, id), EscrowWithdraw)
  {
  }

  lemma RollbackFits(s: State, id: SwapId, caller: Address)
    ensures Fitting(s, id, AdminRollbackPlan(s, id, caller), AdminRollback(caller))
  {
  }

  lemma ReportFits(s: State, id: SwapId, keyValid: bool)
    ensures Fitting(s, id, ValidateAndRollbackPlan(s, id, keyValid), ValidateAndRollback(keyValid))
  {
  }

  lemma ClaimFits(s: State, id: SwapId)
    ensures Fitting(s, id, ClaimInsurancePlan(s, id), ClaimInsurance)
  {
  }

  lemma SettlingFits(s: State, id: SwapId, act: Act)
    requires !Prepares(act)
    requires !(act.Reveal? || act.VerifyAndComplete? || act.ResolveDispute? || act.AutoResolveDispute?
               || act.AutoRefundTimeout? || act.Arbitrate?)
    ensures Fitting(s, id, Plan(s, id, act), act)
  {
    if act.RequestArbitration? {
      RequestArbitrationFits(s, id, act.requester);
    } else if act.RaiseDispute? {
      RaiseDisputeFits(s, id);
    } else if act.Cancel? {
      CancelFits(s, id, act.caller);
    } else if act.CancelPending? {
      CancelPendingFits(s, id, act.caller);
    } else if act.CancelExpired? {
      CancelExpiredFits(s, id, act.caller);
    } else if act.EscrowWithdraw? {
      WithdrawFits(s, id);
    } else if act.AdminRollback? {
      RollbackFits(s, id, act.caller);
    } else if act.ValidateAndRollback? {
      ReportFits(s, id, act.keyValid);
    } else {
      ClaimFits(s, id);
    }
  }

  lemma ActFits(s: State, id: SwapId, act: Act)
    requires Local(s, id) && Do(s, id, Plan(s, id, act)).Ok?
    ensures Fitting(s, id, Plan(s, id, act), act)
  {
    if Prepares(act) {
      PreparingFits(s, id, act);
    } else if act.Reveal? || act.VerifyAndComplete? || act.ResolveDispute? || act.AutoResolveDispute?
              || act.AutoRefundTimeout? || act.Arbitrate? {
      DecidingFits(s, id, act);
    } else {
      SettlingFits(s, id, act);
    }
  }

  // ── All calls about one swap ─────────────────────────────────────────────

  /** Nothing outside the entries of one swap and the balances of its token is touched, and locks are at most freed. */
  ghost predicate Elsewhere(s: State, s': State, id: SwapId) {
    && s'.now == s.now && s'.world == s.world && s'.nextId == s.nextId && s'.index == s.index && s'.house == s.house
    && (forall j :: j != id ==> Log(s', j) == Log(s, j))
    && (forall ip :: ip in s'.active ==> ip in s.active && s'.active[ip] == s.active[ip])
  }

  /** What the call leaves in the store, as the rules have it. */
  ghost predicate Leaves(s: State, s': State, id: SwapId, act: Act)
    requires id in s.swaps
  {
    && s'.swaps == s.swaps[id := Updated(s, id, act)]
    && Log(s', id) == Log(s, id) + (if Writes(s, id, act) then [HistoryEntry(Becomes(s, id, act), s.now)] else [])
    && s'.vault.collateral == CollateralAfter(s, id, act) && s'.vault.deposits == DepositsAfter(s, id, act)
    && (forall t :: Insurance(s', t) == if t == s.swaps[id].token then InsuranceAfter(s, id, act) else Insurance(s, t))
    && s'.side == EntriesAfter(s, id, act)
    && (forall a :: Standing(s', a)
                    == StandingAfter(s, id, act, a))
    && Elsewhere(s, s', id)
  }

  lemma DoneElsewhere(s: State, id: SwapId, plan: Result<Change>)
    requires Do(s, id, plan).Ok?
    ensures Elsewhere(s, Do(s, id, plan).value, id)
  {
  }

  lemma DoneLeaves(s: State, id: SwapId, plan: Result<Change>, act: Act)
    requires id in s.swaps && Do(s, id, plan).Ok? && Fitting(s, id, plan, act)
    ensures Leaves(s, Do(s, id, plan).value, id, act)
  {
    var s' := Do(s, id, plan).value;
    DoneElsewhere(s, id, plan);
    forall t ensures Insurance(s', t) == Pool(plan.value.vault, t) {
    }
    forall a ensures Standing(s', a) == Lookup(plan.value.reputation, a, 50) {
    }
  }

  /** A call that goes through leaves exactly what the rules say. */
  lemma LeavesExactly(s: State, id: SwapId, act: Act)
    requires Inv(s) && Step(s, On(id, act)).Ok?
    ensures id in s.swaps && Leaves(s, Step(s, On(id, act)).value, id, act)
  {
    LocalFromInv(s, id);
    ActFits(s, id, act);
    DoneLeaves(s, id, Plan(s, id, act), act);
  }
}

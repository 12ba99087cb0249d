/** What stands behind an acceptance, along any run of calls. */
module SwapAcceptance {
  import opened Common
  import opened SwapState
  import opened SwapSpec
  import opened SwapClaims
  import opened SwapRuns
  import opened SwapMoney
  import opened SwapActs
  import opened SwapBatches
  import opened SwapTheorems
  import opened SwapSigners
  import opened SwapRules
  import opened SwapAdmission
  import opened SwapBatchRules

  /** The approvers that are stored are all different, and are those who approved in the course of the run. */
  lemma ApproversCounted(s: State, ops: seq<Op>, id: SwapId)
    requires s.side.approvals == map[]
    ensures |Approvers(Run(s, ops), id)| == |ApprovedBy(s, ops, id)|
  {
    RunApprovals(s, ops, id);
    DistinctCount(Approvals(Run(s, ops), id));
  }

  /** Enough different accounts have approved the offer in the course of the run. */
  predicate EnoughApproved(s: State, ops: seq<Op>, id: SwapId) {
    id in Run(s, ops).swaps && |ApprovedBy(s, ops, id)| >= Run(s, ops).swaps[id].requiredApprovals
  }

  /** Whatever was called before, an offer is accepted only if it is Pending, enough different accounts have approved
      it, its conditions hold at its price and at this time, and its buyer's reputation is no less than the minimum. */
  lemma AcceptanceIsEarned(s: State, ops: seq<Op>, id: SwapId)
    requires s.side.approvals == map[] && Step(Run(s, ops), On(id, Act.Accept)).Ok?
    ensures var now := Run(s, ops);
            && Is(now, id, Pending) && EnoughApproved(s, ops, id)
            && AllSatisfied(now.swaps[id].conditions, now.swaps[id].price, now.now)
            && (id in now.side.minReputation ==> Standing(now, now.swaps[id].buyer) >= now.side.minReputation[id])
  {
    var now := Run(s, ops);
    ApproversCounted(s, ops, id);
    assert AcceptPlan(now, id).Ok?;
    HoldsSatisfied(now.swaps[id].conditions, now.swaps[id].price, now.now);
  }

  /** The form that names its own conditions asks for the same approvals, and for these conditions to hold. */
  lemma ConditionalAcceptanceIsEarned(s: State, ops: seq<Op>, id: SwapId, conditions: seq<Condition>)
    requires s.side.approvals == map[] && Step(Run(s, ops), On(id, Act.AcceptConditional(conditions))).Ok?
    ensures var now := Run(s, ops);
            Is(now, id, Pending) && EnoughApproved(s, ops, id) && AllSatisfied(conditions, now.swaps[id].price, now.now)
  {
    var now := Run(s, ops);
    ApproversCounted(s, ops, id);
    assert AcceptConditionalPlan(now, id, conditions).Ok?;
    HoldsSatisfied(conditions, now.swaps[id].price, now.now);
  }

  /** So does the batch, for every swap that it names. */
  lemma BatchAcceptanceIsEarned(s: State, ops: seq<Op>, ids: seq<SwapId>, buyer: Address, id: SwapId)
    requires s.side.approvals == map[] && Step(Run(s, ops), Op.BatchAccept(ids, buyer)).Ok? && id in ids
    ensures Is(Run(s, ops), id, Pending) && Run(s, ops).swaps[id].buyer == buyer && EnoughApproved(s, ops, id)
  {
    ApproversCounted(s, ops, id);
    BatchAcceptNeedsApproval(Run(s, ops), ids, buyer);
    assert Admissible(Run(s, ops), id, buyer);
  }

  /** What the buyer has to pay, and can: the premium must fit into the pool, too. */
  predicate CanPay(s: State, id: SwapId)
    requires id in s.swaps
  {
    var swap := s.swaps[id];
    && BuyerPays(s, id, Security(swap) + swap.price + PremiumDue(swap))
    && (PremiumDue(swap) > 0 ==> Insurance(s, swap.token) + PremiumDue(swap) <= I128_MAX)
  }

  lemma AcceptNeverShort(s: State, id: SwapId)
    requires Local(s, id)
    ensures Do(s, id, AcceptPlan(s, id)) != Err(InsufficientBalance(Contract))
  {
    if AcceptPlan(s, id).Ok? {
      AcceptAsks(s.vault, s.swaps[id]);
      TakesSettle(s.bank, s.swaps[id].token, AcceptPlan(s, id).value.moves, s.swaps[id].buyer);
    }
  }

  /** And conversely: along any run from a new contract, exactly then is it accepted, if the contract is not paused, no
      collateral is stored for it that it asks for again, and its buyer can pay. */
  lemma AcceptedExactlyIfEarned(s: State, ops: seq<Op>, id: SwapId)
    requires Genesis(s) && s.side.approvals == map[]
    ensures var now := Run(s, ops);
            Step(now, On(id, Act.Accept)).Ok?
            <==> && Is(now, id, Pending) && EnoughApproved(s, ops, id)
                 && AllSatisfied(now.swaps[id].conditions, now.swaps[id].price, now.now)
                 && (id in now.side.minReputation ==>
                      Standing(now, now.swaps[id].buyer) >= now.side.minReputation[id])
                 && !now.world.paused && !(now.swaps[id].collateralAmount > 0 && id in now.vault.collateral)
                 && CanPay(now, id)
  {
    GenesisOk(s);
    RunInv(s, ops);
    LocalFromInv(Run(s, ops), id);
    ApproversCounted(s, ops, id);
    AcceptNeverShort(Run(s, ops), id);
    GoesThroughExactly(Run(s, ops), id, Act.Accept);
  }
}

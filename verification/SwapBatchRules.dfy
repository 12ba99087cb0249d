/** What the batches do, in terms of the calls about one swap whose rules are proved elsewhere: most are those calls one
    after another; the two that are not are given their own rules. */
module SwapBatchRules {
  import opened Common
  import opened SwapState
  import opened SwapSpec
  import opened SwapClaims
  import opened SwapRuns
  import opened SwapMoney
  import opened SwapActs
  import opened SwapBatches
  import opened SwapBook
  import opened SwapRules
  import opened SwapAdmission
  import opened SwapPayments
  import opened SwapOutcomes

  /** The same call on one swap after another. */
  function Each(s: State, ids: seq<SwapId>, act: Act): Result<State>
    decreases |ids|
  {
    if ids == [] then Ok(s) else
    var next :- Do(s, ids[0], Plan(s, ids[0], act));
    Each(next, ids[1..], act)
  }

  /** The buyer of all listed swaps. */
  predicate AllBoughtBy(s: State, ids: seq<SwapId>, buyer: Address) {
    forall id :: id in ids && id in s.swaps ==> s.swaps[id].buyer == buyer
  }

  lemma BuyersStay(s: State, id: SwapId, act: Act, ids: seq<SwapId>, buyer: Address)
    requires Do(s, id, Plan(s, id, act)).Ok?
    ensures AllBoughtBy(Do(s, id, Plan(s, id, act)).value, ids, buyer) <==> AllBoughtBy(s, ids, buyer)
  {
    ActParties(s, id, act);
    var next := Do(s, id, Plan(s, id, act)).value;
    forall j | j in ids
      ensures (j in next.swaps <==> j in s.swaps) && (j in s.swaps ==> next.swaps[j].buyer == s.swaps[j].buyer)
    {
    }
  }

  // ── Deposits ─────────────────────────────────────────────────────────────

  lemma DepositItem(s: State, id: SwapId, buyer: Address)
    requires buyer.Account?
    ensures Do(s, id, BatchDepositPlan(s, id, buyer)).Ok?
      <==> Do(s, id, Plan(s, id, EscrowDeposit)).Ok? && s.swaps[id].buyer == buyer
    ensures Do(s, id, BatchDepositPlan(s, id, buyer)).Ok? ==>
      Do(s, id, BatchDepositPlan(s, id, buyer)) == Do(s, id, Plan(s, id, EscrowDeposit))
  {
  }

  /** A batch of deposits is one deposit after another, all by one buyer. */
  lemma {:induction false} BatchDepositIsEach(s: State, ids: seq<SwapId>, buyer: Address)
    requires buyer.Account?
    ensures SwapSpec.BatchEscrowDeposit(s, ids, buyer).Ok?
      <==> Each(s, ids, EscrowDeposit).Ok? && AllBoughtBy(s, ids, buyer)
    ensures SwapSpec.BatchEscrowDeposit(s, ids, buyer).Ok? ==>
      SwapSpec.BatchEscrowDeposit(s, ids, buyer) == Each(s, ids, EscrowDeposit)
    decreases |ids|
  {
    if ids == [] {
    } else {
      DepositItem(s, ids[0], buyer);
      if Do(s, ids[0], Plan(s, ids[0], EscrowDeposit)).Ok? {
        var next := Do(s, ids[0], Plan(s, ids[0], EscrowDeposit)).value;
        BatchDepositIsEach(next, ids[1..], buyer);
        BuyersStay(s, ids[0], EscrowDeposit, ids[1..], buyer);
      }
    }
  }

  // ── Cancellations ────────────────────────────────────────────────────────

  lemma {:induction false} CancelAllIsEach(s: State, ids: seq<SwapId>, caller: Address)
    ensures CancelAll(s, ids, caller) == Each(s, ids, Cancel(caller))
    decreases |ids|
  {
    if ids == [] {
    } else if Do(s, ids[0], CancelPlan(s, ids[0], caller)).Ok? {
      CancelAllIsEach(Do(s, ids[0], CancelPlan(s, ids[0], caller)).value, ids[1..], caller);
    }
  }

  /** A batch of cancellations, with a reason for each, is one cancellation after another, errors included. */
  lemma BatchCancelIsEach(s: State, ids: seq<SwapId>, caller: Address, reasons: nat)
    ensures SwapSpec.BatchCancel(s, ids, caller, reasons)
      == if caller == Contract then Err(NotAuthorized)
         else if reasons != |ids| then Err(InvalidKey)
         else Each(s, ids, Cancel(caller))
  {
    CancelAllIsEach(s, ids, caller);
  }

  // ── Rollbacks ────────────────────────────────────────────────────────────

  ghost predicate NoneCompleted(s: State, ids: seq<SwapId>) {
    forall id :: id in ids ==> id in s.swaps && s.swaps[id].status != Completed
  }

  lemma {:induction false} RollbacksValid(s: State, ids: seq<SwapId>)
    ensures ValidateRollbacks(s, ids).Pass? <==> NoneCompleted(s, ids)
  {
    if ids == [] {
    } else {
      RollbacksValid(s, ids[1..]);
    }
  }

  lemma RollbackItem(s: State, id: SwapId, caller: Address)
    requires AdminCalls(s, caller)
    ensures Do(s, id, Plan(s, id, AdminRollback(caller))).Ok?
      <==> Do(s, id, BatchRollbackPlan(s, id)).Ok? && s.swaps[id].status != Completed
    ensures id in s.swaps && s.swaps[id].status != Completed ==>
      Do(s, id, Plan(s, id, AdminRollback(caller))) == Do(s, id, BatchRollbackPlan(s, id))
  {
  }

  lemma RollbackLeaves(s: State, id: SwapId, ids: seq<SwapId>, caller: Address)
    requires AdminCalls(s, caller) && Do(s, id, Plan(s, id, AdminRollback(caller))).Ok?
    ensures var next := Do(s, id, Plan(s, id, AdminRollback(caller))).value;
            AdminCalls(next, caller) && (NoneCompleted(next, ids) <==> NoneCompleted(s, ids))
  {
    var next := Do(s, id, Plan(s, id, AdminRollback(caller))).value;
    assert s.swaps[id].status != Completed;
    assert next.swaps == s.swaps[id := s.swaps[id].(status := Cancelled)] && next.world == s.world;
  }

  lemma {:induction false} RollBackAllIsEach(s: State, ids: seq<SwapId>, caller: Address)
    requires AdminCalls(s, caller)
    ensures Each(s, ids, AdminRollback(caller)).Ok? <==> NoneCompleted(s, ids) && RollBackAll(s, ids).Ok?
    ensures Each(s, ids, AdminRollback(caller)).Ok? ==> Each(s, ids, AdminRollback(caller)) == RollBackAll(s, ids)
    decreases |ids|
  {
    if ids == [] {
    } else {
      RollbackItem(s, ids[0], caller);
      if Do(s, ids[0], Plan(s, ids[0], AdminRollback(caller))).Ok? {
        RollbackLeaves(s, ids[0], ids[1..], caller);
        RollBackAllIsEach(Do(s, ids[0], Plan(s, ids[0], AdminRollback(caller))).value, ids[1..], caller);
      }
    }
  }

  /** A batch of 1 to 50 rollbacks, repeated ids included, is one administrator's rollback after another. */
  lemma BatchRollbackIsEach(s: State, ids: seq<SwapId>, caller: Address)
    ensures SwapSpec.BatchRollback(s, ids, caller).Ok?
      <==> AdminCalls(s, caller) && 1 <= |ids| <= 50 && Each(s, ids, AdminRollback(caller)).Ok?
    ensures SwapSpec.BatchRollback(s, ids, caller).Ok? ==>
      SwapSpec.BatchRollback(s, ids, caller) == Each(s, ids, AdminRollback(caller))
  {
    RollbacksValid(s, ids);
    if AdminCalls(s, caller) {
      RollBackAllIsEach(s, ids, caller);
    }
  }

  // ── Acceptances ──────────────────────────────────────────────────────────

  /** What the batch of acceptances does not look at: conditions, reputation, and collateral that is there already. */
  predicate Undemanding(s: State, id: SwapId) {
    id in s.swaps ==>
      && AllSatisfied(s.swaps[id].conditions, s.swaps[id].price, s.now)
      && (id in s.side.minReputation ==> Standing(s, s.swaps[id].buyer) >= s.side.minReputation[id])
      && !(s.swaps[id].collateralAmount > 0 && id in s.vault.collateral)
  }

  predicate AllUndemanding(s: State, ids: seq<SwapId>) {
    forall id :: id in ids ==> Undemanding(s, id)
  }

  /** The items that the batch of acceptances admits. */
  predicate Admissible(s: State, id: SwapId, buyer: Address) {
    Is(s, id, Pending) && s.swaps[id].buyer == buyer && |Approvers(s, id)| >= s.swaps[id].requiredApprovals
  }

  lemma AcceptValid(s: State, id: SwapId, buyer: Address)
    ensures ValidateAccept(s, id, buyer).Pass? <==> Admissible(s, id, buyer)
  {
  }

  lemma {:induction false} AcceptsValid(s: State, ids: seq<SwapId>, buyer: Address)
    ensures ValidateAccepts(s, ids, buyer).Pass? <==> forall id :: id in ids ==> Admissible(s, id, buyer)
  {
    if ids == [] {
    } else {
      AcceptsValid(s, ids[1..], buyer);
      AcceptValid(s, ids[0], buyer);
      assert forall id :: id in ids <==> id == ids[0] || id in ids[1..];
    }
  }

  lemma AcceptItem(s: State, id: SwapId, buyer: Address)
    requires !s.world.paused && buyer.Account? && Undemanding(s, id)
    ensures Do(s, id, Plan(s, id, Accept)).Ok? && s.swaps[id].buyer == buyer
      <==> Admissible(s, id, buyer) && Do(s, id, BatchAcceptPlan(s, id)).Ok?
    ensures Admissible(s, id, buyer) ==> Do(s, id, Plan(s, id, Accept)) == Do(s, id, BatchAcceptPlan(s, id))
  {
    if id in s.swaps {
      HoldsSatisfied(s.swaps[id].conditions, s.swaps[id].price, s.now);
    }
  }

  lemma AcceptLeaves(s: State, id: SwapId, ids: seq<SwapId>, buyer: Address)
    requires Do(s, id, BatchAcceptPlan(s, id)).Ok? && id !in ids
    ensures var next := Do(s, id, BatchAcceptPlan(s, id)).value;
            && next.world == s.world
            && (AllUndemanding(s, ids) ==> AllUndemanding(next, ids))
            && (forall j :: j in ids ==> (Admissible(next, j, buyer) <==> Admissible(s, j, buyer)))
            && (AllBoughtBy(next, ids, buyer) <==> AllBoughtBy(s, ids, buyer))
  {
    var next := Do(s, id, BatchAcceptPlan(s, id)).value;
    assert next.side == s.side && next.reputation == s.reputation && next.now == s.now;
    forall j | j in ids ensures Undemanding(s, j) ==> Undemanding(next, j) {
    }
  }

  lemma {:induction false} AcceptAllIsEach(s: State, ids: seq<SwapId>, buyer: Address)
    requires !s.world.paused && buyer.Account? && Distinct(ids) && AllUndemanding(s, ids)
    ensures Each(s, ids, Accept).Ok? && AllBoughtBy(s, ids, buyer)
      <==> (forall id :: id in ids ==> Admissible(s, id, buyer)) && AcceptAll(s, ids).Ok?
    ensures Each(s, ids, Accept).Ok? && AllBoughtBy(s, ids, buyer) ==> Each(s, ids, Accept) == AcceptAll(s, ids)
    decreases |ids|
  {
    if ids == [] {
    } else {
      DistinctSplits(ids);
      AcceptItem(s, ids[0], buyer);
      if Do(s, ids[0], BatchAcceptPlan(s, ids[0])).Ok? && Admissible(s, ids[0], buyer) {
        AcceptLeaves(s, ids[0], ids[1..], buyer);
        AcceptAllIsEach(Do(s, ids[0], BatchAcceptPlan(s, ids[0])).value, ids[1..], buyer);
      }
    }
  }

  /** On different swaps that make no such demands, a batch of 1 to 50 acceptances is one acceptance after another. */
  lemma BatchAcceptIsEach(s: State, ids: seq<SwapId>, buyer: Address)
    requires Distinct(ids) && AllUndemanding(s, ids)
    ensures SwapSpec.BatchAccept(s, ids, buyer).Ok?
      <==> && !s.world.paused && buyer.Account? && 1 <= |ids| <= 50
           && Each(s, ids, Accept).Ok? && AllBoughtBy(s, ids, buyer)
    ensures SwapSpec.BatchAccept(s, ids, buyer).Ok? ==> SwapSpec.BatchAccept(s, ids, buyer) == Each(s, ids, Accept)
  {
    AcceptsValid(s, ids, buyer);
    if !s.world.paused && buyer.Account? {
      AcceptAllIsEach(s, ids, buyer);
    }
  }

  /** Whatever they demand, the batch goes through only if all swaps are Pending, of this buyer, and approved. */
  lemma BatchAcceptNeedsApproval(s: State, ids: seq<SwapId>, buyer: Address)
    requires SwapSpec.BatchAccept(s, ids, buyer).Ok?
    ensures !s.world.paused && buyer.Account? && 1 <= |ids| <= 50 && forall id :: id in ids ==> Admissible(s, id, buyer)
  {
    AcceptsValid(s, ids, buyer);
  }

  // ── Arbitrations ─────────────────────────────────────────────────────────

  /** The items that the batch of arbitrations admits. */
  predicate Decidable(s: State, id: SwapId, refund: bool) {
    Is(s, id, Disputed) && (refund || FeeFits(s.swaps[id].price))
  }

  lemma ArbitrateItemPaysOut(s: State, id: SwapId, refund: bool)
    requires Local(s, id) && BatchArbitratePlan(s, id, refund).Ok?
    ensures PaysOut(BatchArbitratePlan(s, id, refund).value.moves)
  {
    RefundPaysOut(s, id);
    if !refund {
      FeeWithin(s.swaps[id]);
      CompletePaysOut(s, id, Bps(s.swaps[id].price, PROTOCOL_FEE_BPS).value);
    }
  }

  lemma ArbitrateItem(s: State, id: SwapId, refund: bool)
    requires Local(s, id)
    ensures Admits(s, id, BatchArbitratePlan(s, id, refund), Decidable(s, id, refund))
  {
    if BatchArbitratePlan(s, id, refund).Ok? {
      ArbitrateItemPaysOut(s, id, refund);
    }
    PaysOutAdmits(s, id, BatchArbitratePlan(s, id, refund), Decidable(s, id, refund));
  }

  /** What one item gives to an account. */
  function Decided(s: State, id: SwapId, refund: bool, t: Token, a: Address): int {
    if id in s.swaps && s.swaps[id].token == t
    then if refund then BuyerWins(s.swaps[id], Collateral(s, id), a) else SellerWins(s.swaps[id], Collateral(s, id), a)
    else 0
  }

  function AllDecided(s: State, ids: seq<SwapId>, refund: bool, t: Token, a: Address): int {
    if ids == [] then 0 else Decided(s, ids[0], refund, t, a) + AllDecided(s, ids[1..], refund, t, a)
  }

  lemma ArbitrateItemPays(s: State, id: SwapId, refund: bool, t: Token, a: Address)
    requires Local(s, id) && Do(s, id, BatchArbitratePlan(s, id, refund)).Ok? && a.Account?
    ensures Funds(Do(s, id, BatchArbitratePlan(s, id, refund)).value, t, a)
      == Funds(s, t, a) + Decided(s, id, refund, t, a)
  {
    if refund {
      RefundFlow(s, id, a);
    } else {
      FeeIs(s.swaps[id].price);
      CompleteFlow(s, id, a);
    }
    SettleFlow(s.bank, s.swaps[id].token, BatchArbitratePlan(s, id, refund).value.moves, t, a);
  }

  /** One item leaves the others as they were. */
  ghost predicate SameItems(s: State, next: State, ids: seq<SwapId>) {
    forall j :: j in ids ==>
      && (j in next.swaps <==> j in s.swaps)
      && (j in s.swaps ==> next.swaps[j] == s.swaps[j] && Collateral(next, j) == Collateral(s, j))
  }

  lemma ArbitrateItemLeaves(s: State, id: SwapId, refund: bool, ids: seq<SwapId>)
    requires Do(s, id, BatchArbitratePlan(s, id, refund)).Ok? && id !in ids
    ensures SameItems(s, Do(s, id, BatchArbitratePlan(s, id, refund)).value, ids)
    ensures Is(Do(s, id, BatchArbitratePlan(s, id, refund)).value, id, if refund then Cancelled else Completed)
  {
  }

  lemma {:induction false} DecidedAgrees(s: State, next: State, ids: seq<SwapId>, refund: bool, t: Token, a: Address)
    requires SameItems(s, next, ids)
    ensures AllDecided(next, ids, refund, t, a) == AllDecided(s, ids, refund, t, a)
  {
    if ids == [] {
    } else {
      DecidedAgrees(s, next, ids[1..], refund, t, a);
    }
  }

  lemma ArbitrateItemKeeps(s: State, id: SwapId, refund: bool)
    requires Inv(s) && Do(s, id, BatchArbitratePlan(s, id, refund)).Ok?
    ensures Inv(Do(s, id, BatchArbitratePlan(s, id, refund)).value)
  {
    LocalFromInv(s, id);
    BatchArbitrateSound(s, id, refund);
    DoSafe(s, id, BatchArbitratePlan(s, id, refund));
  }

  ghost predicate AllDecidable(s: State, ids: seq<SwapId>, refund: bool) {
    Distinct(ids) && forall id :: id in ids ==> Decidable(s, id, refund)
  }

  lemma ArbitrateItemEnds(s: State, id: SwapId, refund: bool)
    requires Do(s, id, BatchArbitratePlan(s, id, refund)).Ok?
    ensures Is(Do(s, id, BatchArbitratePlan(s, id, refund)).value, id, if refund then Cancelled else Completed)
  {
  }

  lemma AllDecidableSplits(s: State, next: State, ids: seq<SwapId>, refund: bool)
    requires ids != [] && SameItems(s, next, ids[1..]) && Decidable(s, ids[0], refund) && ids[0] !in ids[1..]
    ensures AllDecidable(s, ids, refund) <==> AllDecidable(next, ids[1..], refund)
  {
    DistinctSplits(ids);
    forall id | id in ids[1..] ensures Decidable(next, id, refund) <==> Decidable(s, id, refund) {
    }
    assert forall id :: id in ids <==> id == ids[0] || id in ids[1..];
  }

  lemma NotAllDecidable(s: State, next: State, ids: seq<SwapId>, refund: bool, status: Status)
    requires ids != [] && ids[0] in ids[1..] && Is(next, ids[0], status) && status != Disputed
    ensures !AllDecidable(s, ids, refund) && !AllDecidable(next, ids[1..], refund)
  {
    DistinctSplits(ids);
  }

  lemma {:induction false} ArbitrateAllRules(s: State, ids: seq<SwapId>, refund: bool)
    requires Inv(s)
    ensures ArbitrateAll(s, ids, refund).Ok?
      <==> AllDecidable(s, ids, refund) && ArbitrateAll(s, ids, refund) != Err(InsufficientBalance(Contract))
    decreases |ids|
  {
    if ids == [] {
    } else {
      var first := Do(s, ids[0], BatchArbitratePlan(s, ids[0], refund));
      LocalFromInv(s, ids[0]);
      ArbitrateItem(s, ids[0], refund);
      if first.Ok? {
        ArbitrateItemKeeps(s, ids[0], refund);
        ArbitrateAllRules(first.value, ids[1..], refund);
        if ids[0] in ids[1..] {
          ArbitrateItemEnds(s, ids[0], refund);
          NotAllDecidable(s, first.value, ids, refund, if refund then Cancelled else Completed);
        } else {
          ArbitrateItemLeaves(s, ids[0], refund, ids[1..]);
          AllDecidableSplits(s, first.value, ids, refund);
        }
      }
    }
  }

  /** A batch of arbitrations goes through exactly when its swaps are different and all Disputed, and the fees fit,
      unless the contract lacks the funds. */
  lemma BatchArbitrateAdmits(s: State, ids: seq<SwapId>, arbitrator: Address, refund: bool)
    requires Inv(s)
    ensures SwapSpec.BatchArbitrate(s, ids, arbitrator, refund).Ok?
      <==> && arbitrator.Account? && AllDecidable(s, ids, refund)
           && SwapSpec.BatchArbitrate(s, ids, arbitrator, refund) != Err(InsufficientBalance(Contract))
  {
    ArbitrateAllRules(s, ids, refund);
  }

  /** It pays every account what the decision gives it from each swap, and all swaps end that way. */
  lemma {:induction false} ArbitrateAllPays(s: State, ids: seq<SwapId>, refund: bool, t: Token, a: Address)
    requires Inv(s) && ArbitrateAll(s, ids, refund).Ok? && a.Account?
    ensures Funds(ArbitrateAll(s, ids, refund).value, t, a) == Funds(s, t, a) + AllDecided(s, ids, refund, t, a)
    decreases |ids|
  {
    if ids == [] {
    } else {
      var next := Do(s, ids[0], BatchArbitratePlan(s, ids[0], refund)).value;
      LocalFromInv(s, ids[0]);
      ArbitrateAllRules(s, ids, refund);
      DistinctSplits(ids);
      ArbitrateItemPays(s, ids[0], refund, t, a);
      ArbitrateItemKeeps(s, ids[0], refund);
      ArbitrateItemLeaves(s, ids[0], refund, ids[1..]);
      ArbitrateAllPays(next, ids[1..], refund, t, a);
      DecidedAgrees(s, next, ids[1..], refund, t, a);
    }
  }

  /** All swaps that are not listed stay as they were; those that are end as decided, which their histories say. */
  ghost predicate AllEnded(s: State, s': State, ids: seq<SwapId>, status: Status) {
    && (forall j :: j in s'.swaps <==> j in s.swaps)
    && (forall j :: j in s.swaps ==> s'.swaps[j] == if j in ids then s.swaps[j].(status := status) else s.swaps[j])
    && (forall j :: Log(s', j) == Log(s, j) + if j in ids then [HistoryEntry(status, s.now)] else [])
    && s'.now == s.now
  }

  lemma ArbitrateItemEnded(s: State, id: SwapId, refund: bool)
    requires Do(s, id, BatchArbitratePlan(s, id, refund)).Ok?
    ensures AllEnded(s, Do(s, id, BatchArbitratePlan(s, id, refund)).value, [id],
                     if refund then Cancelled else Completed)
  {
    assert forall j :: j in [id] <==> j == id;
  }

  lemma EndedThen(s: State, next: State, end: State, ids: seq<SwapId>, status: Status)
    requires ids != [] && ids[0] !in ids[1..]
    requires AllEnded(s, next, [ids[0]], status) && AllEnded(next, end, ids[1..], status)
    ensures AllEnded(s, end, ids, status)
  {
    assert forall j :: j in ids <==> j in [ids[0]] || j in ids[1..];
  }

  lemma {:induction false} ArbitrateAllEnds(s: State, ids: seq<SwapId>, refund: bool)
    requires Inv(s) && ArbitrateAll(s, ids, refund).Ok?
    ensures AllEnded(s, ArbitrateAll(s, ids, refund).value, ids, if refund then Cancelled else Completed)
    decreases |ids|
  {
    if ids == [] {
    } else {
      var next := Do(s, ids[0], BatchArbitratePlan(s, ids[0], refund)).value;
      ArbitrateAllRules(s, ids, refund);
      DistinctSplits(ids);
      ArbitrateItemEnded(s, ids[0], refund);
      ArbitrateItemKeeps(s, ids[0], refund);
      ArbitrateAllEnds(next, ids[1..], refund);
      EndedThen(s, next, ArbitrateAll(s, ids, refund).value, ids, if refund then Cancelled else Completed);
    }
  }

  /** So `refund` decides: with it all swaps are Cancelled and the buyers paid, without it Completed and the sellers. */
  lemma BatchArbitrateDecides(s: State, ids: seq<SwapId>, arbitrator: Address, refund: bool, t: Token, a: Address)
    requires Inv(s) && SwapSpec.BatchArbitrate(s, ids, arbitrator, refund).Ok? && a.Account?
    ensures var s' := SwapSpec.BatchArbitrate(s, ids, arbitrator, refund).value;
            && AllEnded(s, s', ids, if refund then Cancelled else Completed)
            && Funds(s', t, a) == Funds(s, t, a) + AllDecided(s, ids, refund, t, a)
  {
    BatchArbitrateCarries(s, ids, arbitrator, refund);
    ArbitrateAllEnds(s, ids, refund);
    ArbitrateAllPays(s, ids, refund, t, a);
  }
}

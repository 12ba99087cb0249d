/** Why a batch on stored swaps is refused: the error is one of those of the batch, and what it says is true. */
module SwapBatchRefusals {
  import opened Common
  import opened SwapState
  import opened SwapSpec
  import opened SwapClaims
  import opened SwapRuns
  import opened SwapMoney
  import opened SwapActs
  import opened SwapBatches
  import opened SwapBook
  import opened SwapRollbacks
  import opened SwapRules
  import opened SwapAdmission
  import opened SwapPayments
  import opened SwapBatchRules
  import opened SwapBatchOutcomes
  import opened SwapRefusals

  // ── What the errors say ──────────────────────────────────────────────────

  /** One of the swaps is not there, or has another status. */
  predicate SomeMissing(s: State, ids: seq<SwapId>) {
    exists id :: id in ids && id !in s.swaps
  }

  predicate SomeNot(s: State, ids: seq<SwapId>, status: Status) {
    exists id :: id in ids && id in s.swaps && s.swaps[id].status != status
  }

  predicate SomeOtherBuyer(s: State, ids: seq<SwapId>, buyer: Address) {
    exists id :: id in ids && id in s.swaps && s.swaps[id].buyer != buyer
  }

  predicate SomeOtherSeller(s: State, ids: seq<SwapId>, seller: Address) {
    exists id :: id in ids && id in s.swaps && s.swaps[id].seller != seller
  }

  predicate SomeUnapproved(s: State, ids: seq<SwapId>) {
    exists id :: id in ids && id in s.swaps && |Approvers(s, id)| < s.swaps[id].requiredApprovals
  }

  predicate SomeIpUnknown(s: State, ids: seq<SwapId>) {
    exists id :: id in ids && id in s.swaps && s.swaps[id].ip !in s.world.ips
  }

  predicate SomeKeyWrong(s: State, ids: seq<SwapId>, digests: seq<Digest>) {
    exists i :: 0 <= i < |ids| && i < |digests| && ids[i] in s.swaps && !RightKey(s, ids[i], digests[i])
  }

  predicate SomeFeeTooLarge(s: State, ids: seq<SwapId>) {
    exists id :: id in ids && id in s.swaps && !FeeFits(s.swaps[id].price)
  }

  predicate SomeCompleted(s: State, ids: seq<SwapId>) {
    exists id :: id in ids && Is(s, id, Completed)
  }

  predicate SizeSays(ids: seq<SwapId>, e: Error) {
    || (e == BatchEmpty && ids == [])
    || (e == BatchTooLarge && |ids| > 50)
  }

  predicate AcceptsSay(s: State, ids: seq<SwapId>, buyer: Address, e: Error) {
    || (e == SwapNotFound && SomeMissing(s, ids))
    || (e == Unauthorized && SomeOtherBuyer(s, ids, buyer))
    || (e == NotPending && SomeNot(s, ids, Pending))
    || (e == NeedApprovals && SomeUnapproved(s, ids))
  }

  /** On different swaps, money is lacking only if the buyer cannot pay for all of them. */
  ghost predicate BatchAcceptSays(s: State, ids: seq<SwapId>, buyer: Address, e: Error) {
    || (e == Paused && s.world.paused)
    || (e == NotAuthorized && buyer == Contract)
    || (e.InsufficientBalance? && e.who == buyer && (Distinct(ids) ==> !Affordable(s, ids, buyer)))
    || (e == Trap && (Distinct(ids) ==> !Affordable(s, ids, buyer)))
    || SizeSays(ids, e) || AcceptsSay(s, ids, buyer, e)
  }

  predicate RevealsSay(s: State, ids: seq<SwapId>, digests: seq<Digest>, seller: Address, e: Error) {
    || (e == SwapNotFound && SomeMissing(s, ids))
    || (e == OnlySellerReveal && SomeOtherSeller(s, ids, seller))
    || (e == NotAccepted && SomeNot(s, ids, Accepted))
    || (e == IpNotFound && SomeIpUnknown(s, ids))
    || (e == InvalidKey && SomeKeyWrong(s, ids, digests))
  }

  predicate BatchRevealSays(s: State, ids: seq<SwapId>, digests: seq<Digest>, seller: Address, e: Error) {
    || (e == NotAuthorized && seller == Contract)
    || (e == BatchSizeMismatch && |ids| != |digests|)
    || (e == Trap && SomeFeeTooLarge(s, ids))
    || (e.InsufficientBalance? && e.who == Contract)
    || SizeSays(ids, e) || RevealsSay(s, ids, digests, seller, e)
  }

  predicate BatchRollbackSays(s: State, ids: seq<SwapId>, caller: Address, e: Error) {
    || (e == NotAuthorized && caller == Contract)
    || (e == Unauthorized && s.world.admin != Some(caller))
    || (e == SwapNotFound && SomeMissing(s, ids))
    || (e == NotInAccepted && SomeCompleted(s, ids))
    || (e.InsufficientBalance? && e.who == Contract)
    || SizeSays(ids, e)
  }

  /** A swap that is named twice is no longer Disputed at its second turn, nor Pending after a deposit. */
  ghost predicate BatchArbitrateSays(s: State, ids: seq<SwapId>, arbitrator: Address, refund: bool, e: Error) {
    || (e == NotAuthorized && arbitrator == Contract)
    || (e == SwapNotFound && SomeMissing(s, ids))
    || (e == NotDisputed && (SomeNot(s, ids, Disputed) || !Distinct(ids)))
    || (e == Trap && !refund && SomeFeeTooLarge(s, ids))
    || (e.InsufficientBalance? && e.who == Contract)
  }

  predicate SomeNotEscrow(s: State, ids: seq<SwapId>) {
    exists id :: id in ids && id !in s.side.escrowMode
  }

  ghost predicate BatchDepositSays(s: State, ids: seq<SwapId>, buyer: Address, e: Error) {
    || (e == NotAuthorized && buyer == Contract)
    || (e == SwapNotFound && SomeMissing(s, ids))
    || (e == Unauthorized && (SomeOtherBuyer(s, ids, buyer) || SomeNotEscrow(s, ids)))
    || (e == NotPending && (SomeNot(s, ids, Pending) || !Distinct(ids)))
    || (e.InsufficientBalance? && e.who == buyer)
  }

  // ── First passes ─────────────────────────────────────────────────────────

  lemma {:induction false} AcceptsRefused(s: State, ids: seq<SwapId>, buyer: Address)
    requires ValidateAccepts(s, ids, buyer).Fail?
    ensures AcceptsSay(s, ids, buyer, ValidateAccepts(s, ids, buyer).error)
  {
    assert ids[0] in ids && forall id :: id in ids[1..] ==> id in ids;
    if ValidateAccept(s, ids[0], buyer).Pass? {
      AcceptsRefused(s, ids[1..], buyer);
    }
  }

  lemma {:induction false} RevealsRefused(s: State, ids: seq<SwapId>, seller: Address, digests: seq<Digest>)
    requires |ids| == |digests| && ValidateReveals(s, ids, seller, digests).Fail?
    ensures RevealsSay(s, ids, digests, seller, ValidateReveals(s, ids, seller, digests).error)
  {
    assert ids[0] in ids && forall id :: id in ids[1..] ==> id in ids;
    if ValidateReveal(s, ids[0], seller, digests[0]).Pass? {
      RevealsRefused(s, ids[1..], seller, digests[1..]);
      if SomeKeyWrong(s, ids[1..], digests[1..]) {
        var i :| 0 <= i < |ids[1..]| && ids[1..][i] in s.swaps && !RightKey(s, ids[1..][i], digests[1..][i]);
        assert !RightKey(s, ids[i + 1], digests[i + 1]);
      }
    }
  }

  lemma {:induction false} RollbacksRefused(s: State, ids: seq<SwapId>)
    requires ValidateRollbacks(s, ids).Fail?
    ensures ValidateRollbacks(s, ids).error == SwapNotFound ==> SomeMissing(s, ids)
    ensures ValidateRollbacks(s, ids).error != SwapNotFound ==>
      ValidateRollbacks(s, ids).error == NotInAccepted && SomeCompleted(s, ids)
  {
    assert ids[0] in ids && forall id :: id in ids[1..] ==> id in ids;
    if ids[0] in s.swaps && s.swaps[ids[0]].status != Completed {
      RollbacksRefused(s, ids[1..]);
    }
  }

  // ── Second passes ────────────────────────────────────────────────────────

  lemma AcceptItemNotNegative(s: State, id: SwapId)
    requires Local(s, id) && id in s.swaps
    ensures NoneNegative(BatchAcceptPlan(s, id).value.moves)
  {
    var swap := s.swaps[id];
    var gate := Gate(Fits(Pool(s.vault, swap.token) + PremiumDue(swap)), Done);
    var insurance := if PremiumDue(swap) > 0 then Take(swap.buyer, PremiumDue(swap), gate) else Done;
    assert NoneNegative(gate) && NoneNegative(insurance) && NoneNegative(Take(swap.buyer, swap.price, insurance));
  }

  lemma AcceptItemRefused(s: State, id: SwapId, buyer: Address)
    requires Local(s, id) && id in s.swaps && s.swaps[id].buyer == buyer && buyer.Account?
    requires Do(s, id, BatchAcceptPlan(s, id)).Err?
    ensures Do(s, id, BatchAcceptPlan(s, id)).error in [Trap, InsufficientBalance(buyer)]
  {
    var m := BatchAcceptPlan(s, id).value.moves;
    AcceptItemAsks(s, id);
    AcceptItemNotNegative(s, id);
    TakesRefused(s.bank, s.swaps[id].token, m, buyer);
  }

  lemma {:induction false} AcceptAllRefused(s: State, ids: seq<SwapId>, buyer: Address)
    requires Inv(s) && AllOf(s, ids, buyer) && AcceptAll(s, ids).Err?
    ensures AcceptAll(s, ids).error in [Trap, InsufficientBalance(buyer)]
    decreases |ids|
  {
    assert ids[0] in ids;
    LocalFromInv(s, ids[0]);
    if Do(s, ids[0], BatchAcceptPlan(s, ids[0])).Ok? {
      AcceptItemKeeps(s, ids, buyer);
      AcceptItemStays(s, ids, buyer);
      AcceptAllRefused(Do(s, ids[0], BatchAcceptPlan(s, ids[0])).value, ids[1..], buyer);
    } else {
      AcceptItemRefused(s, ids[0], buyer);
    }
  }

  lemma RevealItemRefused(s: State, id: SwapId)
    requires Local(s, id) && id in s.swaps && Do(s, id, BatchRevealPlan(s, id)).Err?
    ensures || (Do(s, id, BatchRevealPlan(s, id)).error == Trap && !FeeFits(s.swaps[id].price))
            || Do(s, id, BatchRevealPlan(s, id)).error == InsufficientBalance(Contract)
  {
    if BatchRevealPlan(s, id).Ok? {
      RevealItemPaysOut(s, id);
      PaysOutSettles(s.bank, s.swaps[id].token, BatchRevealPlan(s, id).value.moves);
    }
  }

  /** What a reveal leaves of the prices. */
  lemma RevealItemPrices(s: State, id: SwapId, ids: seq<SwapId>)
    requires Do(s, id, BatchRevealPlan(s, id)).Ok?
    ensures SomeFeeTooLarge(Do(s, id, BatchRevealPlan(s, id)).value, ids) ==> SomeFeeTooLarge(s, ids)
    ensures (forall j :: j in ids ==> j in s.swaps) ==>
      forall j :: j in ids ==> j in Do(s, id, BatchRevealPlan(s, id)).value.swaps
  {
    var next := Do(s, id, BatchRevealPlan(s, id)).value;
    assert forall j :: j in s.swaps ==> j in next.swaps && next.swaps[j].price == s.swaps[j].price;
    assert forall j :: j in next.swaps ==> j in s.swaps;
  }

  lemma {:induction false} RevealAllRefused(s: State, ids: seq<SwapId>)
    requires Inv(s) && AllRevealReady(s, ids) && (forall id :: id in ids ==> id in s.swaps) && RevealAll(s, ids).Err?
    ensures || (RevealAll(s, ids).error == Trap && SomeFeeTooLarge(s, ids))
            || RevealAll(s, ids).error == InsufficientBalance(Contract)
    decreases |ids|
  {
    assert ids[0] in ids && forall id :: id in ids[1..] ==> id in ids;
    LocalFromInv(s, ids[0]);
    if Do(s, ids[0], BatchRevealPlan(s, ids[0])).Ok? {
      RevealItemKeeps(s, ids[0], ids[1..]);
      RevealItemPrices(s, ids[0], ids[1..]);
      RevealAllRefused(Do(s, ids[0], BatchRevealPlan(s, ids[0])).value, ids[1..]);
    } else {
      RevealItemRefused(s, ids[0]);
    }
  }

  lemma {:induction false} RollBackAllRefused(s: State, ids: seq<SwapId>)
    requires Inv(s) && (forall id :: id in ids ==> id in s.swaps) && RollBackAll(s, ids).Err?
    ensures RollBackAll(s, ids).error == InsufficientBalance(Contract)
    decreases |ids|
  {
    assert ids[0] in ids && forall id :: id in ids[1..] ==> id in ids;
    LocalFromInv(s, ids[0]);
    RollbackPaysOut(s, ids[0]);
    PaysOutSettles(s.bank, s.swaps[ids[0]].token, BatchRollbackPlan(s, ids[0]).value.moves);
    if Do(s, ids[0], BatchRollbackPlan(s, ids[0])).Ok? {
      RollBackInv(s, ids[0]);
      RollBackAllRefused(Do(s, ids[0], BatchRollbackPlan(s, ids[0])).value, ids[1..]);
    }
  }

  // Arbitrations and deposits look at the status in their only pass.

  lemma ArbitrateItemRefused(s: State, id: SwapId, refund: bool)
    requires Local(s, id) && Do(s, id, BatchArbitratePlan(s, id, refund)).Err?
    ensures match Do(s, id, BatchArbitratePlan(s, id, refund)).error
            case SwapNotFound => id !in s.swaps
            case NotDisputed => id in s.swaps && s.swaps[id].status != Disputed
            case Trap => !refund && id in s.swaps && !FeeFits(s.swaps[id].price)
            case InsufficientBalance(who) => who == Contract
            case _ => false
  {
    if BatchArbitratePlan(s, id, refund).Ok? {
      ArbitrateItemPaysOut(s, id, refund);
      PaysOutSettles(s.bank, s.swaps[id].token, BatchArbitratePlan(s, id, refund).value.moves);
    }
  }

  /** What an item leaves of the prices, and of the statuses of the others. */
  ghost predicate SameOthers(s: State, next: State, id: SwapId) {
    && (forall j :: j in next.swaps <==> j in s.swaps)
    && (forall j :: j in s.swaps ==>
          next.swaps[j].price == s.swaps[j].price && next.swaps[j].buyer == s.swaps[j].buyer
          && (j != id ==> next.swaps[j].status == s.swaps[j].status))
  }

  lemma ArbitrateItemSame(s: State, id: SwapId, refund: bool)
    requires Do(s, id, BatchArbitratePlan(s, id, refund)).Ok?
    ensures SameOthers(s, Do(s, id, BatchArbitratePlan(s, id, refund)).value, id)
  {
    ArbitrateItemEnded(s, id, refund);
  }

  /** What the errors of the rest say, said of all. */
  lemma ArbitrateSaysAfter(s: State, next: State, ids: seq<SwapId>, arbitrator: Address, refund: bool, e: Error)
    requires ids != [] && BatchArbitrateSays(next, ids[1..], arbitrator, refund, e) && SameOthers(s, next, ids[0])
    ensures BatchArbitrateSays(s, ids, arbitrator, refund, e)
  {
    DistinctSplits(ids);
    assert forall id :: id in ids[1..] ==> id in ids;
  }

  lemma {:induction false} ArbitrateAllRefused(s: State, ids: seq<SwapId>, arbitrator: Address, refund: bool)
    requires Inv(s) && ArbitrateAll(s, ids, refund).Err?
    ensures BatchArbitrateSays(s, ids, arbitrator, refund, ArbitrateAll(s, ids, refund).error)
    decreases |ids|
  {
    assert ids[0] in ids;
    LocalFromInv(s, ids[0]);
    if Do(s, ids[0], BatchArbitratePlan(s, ids[0], refund)).Ok? {
      var next := Do(s, ids[0], BatchArbitratePlan(s, ids[0], refund)).value;
      ArbitrateItemKeeps(s, ids[0], refund);
      ArbitrateItemSame(s, ids[0], refund);
      ArbitrateAllRefused(next, ids[1..], arbitrator, refund);
      ArbitrateSaysAfter(s, next, ids, arbitrator, refund, ArbitrateAll(next, ids[1..], refund).error);
    } else {
      ArbitrateItemRefused(s, ids[0], refund);
    }
  }

  lemma DepositItemRefused(s: State, id: SwapId, buyer: Address)
    requires Local(s, id) && buyer.Account? && Do(s, id, BatchDepositPlan(s, id, buyer)).Err?
    ensures match Do(s, id, BatchDepositPlan(s, id, buyer)).error
            case SwapNotFound => id !in s.swaps
            case Unauthorized => id in s.swaps && (s.swaps[id].buyer != buyer || id !in s.side.escrowMode)
            case NotPending => id in s.swaps && s.swaps[id].status != Pending
            case InsufficientBalance(who) => who == buyer
            case _ => false
  {
    if BatchDepositPlan(s, id, buyer).Ok? {
      OneTakeRefused(s, id, BatchDepositPlan(s, id, buyer), s.swaps[id].price);
    }
  }

  lemma DepositItemLeaves(s: State, id: SwapId, buyer: Address)
    requires Do(s, id, BatchDepositPlan(s, id, buyer)).Ok?
    ensures var next := Do(s, id, BatchDepositPlan(s, id, buyer)).value;
            next.side == s.side && SameOthers(s, next, id)
  {
  }

  lemma DepositItemKeeps(s: State, id: SwapId, buyer: Address)
    requires Inv(s) && Do(s, id, BatchDepositPlan(s, id, buyer)).Ok? && buyer.Account?
    ensures Inv(Do(s, id, BatchDepositPlan(s, id, buyer)).value)
  {
    LocalFromInv(s, id);
    DepositSound(s, id, buyer);
    DoSafe(s, id, BatchDepositPlan(s, id, buyer));
  }

  lemma DepositSaysAfter(s: State, next: State, ids: seq<SwapId>, buyer: Address, e: Error)
    requires ids != [] && BatchDepositSays(next, ids[1..], buyer, e)
    requires next.side == s.side && SameOthers(s, next, ids[0])
    ensures BatchDepositSays(s, ids, buyer, e)
  {
    DistinctSplits(ids);
    assert forall id :: id in ids[1..] ==> id in ids;
  }

  lemma {:induction false} DepositAllRefused(s: State, ids: seq<SwapId>, buyer: Address)
    requires Inv(s) && buyer.Account? && DepositAll(s, ids, buyer).Err?
    ensures BatchDepositSays(s, ids, buyer, DepositAll(s, ids, buyer).error)
    decreases |ids|
  {
    assert ids[0] in ids;
    LocalFromInv(s, ids[0]);
    if Do(s, ids[0], BatchDepositPlan(s, ids[0], buyer)).Ok? {
      var next := Do(s, ids[0], BatchDepositPlan(s, ids[0], buyer)).value;
      DepositItemLeaves(s, ids[0], buyer);
      DepositItemKeeps(s, ids[0], buyer);
      DepositAllRefused(next, ids[1..], buyer);
      DepositSaysAfter(s, next, ids, buyer, DepositAll(next, ids[1..], buyer).error);
    } else {
      DepositItemRefused(s, ids[0], buyer);
    }
  }

  // ── Whole batches ────────────────────────────────────────────────────────

  // Each error comes from the checks of the batch, from its first pass or from its second.

  lemma AcceptPassesRefused(s: State, ids: seq<SwapId>, buyer: Address)
    requires SwapSpec.BatchAccept(s, ids, buyer).Err?
    requires buyer.Account? && ValidateAccepts(s, ids, buyer).Pass? && AcceptAll(s, ids).Err? ==>
      && AcceptAll(s, ids).error in [Trap, InsufficientBalance(buyer)] && (Distinct(ids) ==> !Affordable(s, ids, buyer))
    ensures BatchAcceptSays(s, ids, buyer, SwapSpec.BatchAccept(s, ids, buyer).error)
  {
    if ValidateAccepts(s, ids, buyer).Fail? {
      AcceptsRefused(s, ids, buyer);
    }
  }

  lemma SecondAcceptRefused(s: State, ids: seq<SwapId>, buyer: Address)
    requires Inv(s) && buyer.Account? && ValidateAccepts(s, ids, buyer).Pass? && AcceptAll(s, ids).Err?
    ensures AcceptAll(s, ids).error in [Trap, InsufficientBalance(buyer)]
    ensures Distinct(ids) ==> !Affordable(s, ids, buyer)
  {
    AcceptsValid(s, ids, buyer);
    AcceptAllRefused(s, ids, buyer);
    if Distinct(ids) {
      AcceptAllAdmits(s, ids, buyer);
    }
  }

  lemma RevealPassesRefused(s: State, ids: seq<SwapId>, digests: seq<Digest>, seller: Address)
    requires SwapSpec.BatchReveal(s, ids, digests, seller).Err?
    requires |ids| == |digests| && ValidateReveals(s, ids, seller, digests).Pass? && RevealAll(s, ids).Err? ==>
      || (RevealAll(s, ids).error == Trap && SomeFeeTooLarge(s, ids))
      || RevealAll(s, ids).error == InsufficientBalance(Contract)
    ensures BatchRevealSays(s, ids, digests, seller, SwapSpec.BatchReveal(s, ids, digests, seller).error)
  {
    if |ids| == |digests| && ValidateReveals(s, ids, seller, digests).Fail? {
      RevealsRefused(s, ids, seller, digests);
    }
  }

  lemma SecondRevealRefused(s: State, ids: seq<SwapId>, digests: seq<Digest>, seller: Address)
    requires Inv(s) && |ids| == |digests| && ValidateReveals(s, ids, seller, digests).Pass? && RevealAll(s, ids).Err?
    ensures || (RevealAll(s, ids).error == Trap && SomeFeeTooLarge(s, ids))
            || RevealAll(s, ids).error == InsufficientBalance(Contract)
  {
    ValidatedReveals(s, ids, seller, digests);
    RevealAllRefused(s, ids);
  }

  lemma RollbackPassesRefused(s: State, ids: seq<SwapId>, caller: Address)
    requires SwapSpec.BatchRollback(s, ids, caller).Err?
    requires ValidateRollbacks(s, ids).Pass? && RollBackAll(s, ids).Err? ==>
      RollBackAll(s, ids).error == InsufficientBalance(Contract)
    ensures BatchRollbackSays(s, ids, caller, SwapSpec.BatchRollback(s, ids, caller).error)
  {
    if ValidateRollbacks(s, ids).Fail? {
      RollbacksRefused(s, ids);
    }
  }

  lemma SecondRollbackRefused(s: State, ids: seq<SwapId>)
    requires Inv(s) && ValidateRollbacks(s, ids).Pass? && RollBackAll(s, ids).Err?
    ensures RollBackAll(s, ids).error == InsufficientBalance(Contract)
  {
    RollbacksValid(s, ids);
    RollBackAllRefused(s, ids);
  }

  predicate OnStoredSwaps(op: Op) {
    op.BatchEscrowDeposit? || op.BatchAccept? || op.BatchReveal? || op.BatchArbitrate? || op.BatchRollback?
  }

  ghost predicate BatchSays(s: State, op: Op, e: Error)
    requires OnStoredSwaps(op)
  {
    match op
    case BatchEscrowDeposit(ids, buyer) => BatchDepositSays(s, ids, buyer, e)
    case BatchAccept(ids, buyer) => BatchAcceptSays(s, ids, buyer, e)
    case BatchReveal(ids, digests, seller) => BatchRevealSays(s, ids, digests, seller, e)
    case BatchArbitrate(ids, arbitrator, refund) => BatchArbitrateSays(s, ids, arbitrator, refund, e)
    case BatchRollback(ids, caller) => BatchRollbackSays(s, ids, caller, e)
  }

  lemma BatchAcceptRefused(s: State, ids: seq<SwapId>, buyer: Address)
    requires Inv(s) && SwapSpec.BatchAccept(s, ids, buyer).Err?
    ensures BatchAcceptSays(s, ids, buyer, SwapSpec.BatchAccept(s, ids, buyer).error)
  {
    if buyer.Account? && ValidateAccepts(s, ids, buyer).Pass? && AcceptAll(s, ids).Err? {
      SecondAcceptRefused(s, ids, buyer);
    }
    AcceptPassesRefused(s, ids, buyer);
  }

  lemma BatchRevealRefused(s: State, ids: seq<SwapId>, digests: seq<Digest>, seller: Address)
    requires Inv(s) && SwapSpec.BatchReveal(s, ids, digests, seller).Err?
    ensures BatchRevealSays(s, ids, digests, seller, SwapSpec.BatchReveal(s, ids, digests, seller).error)
  {
    if |ids| == |digests| && ValidateReveals(s, ids, seller, digests).Pass? && RevealAll(s, ids).Err? {
      SecondRevealRefused(s, ids, digests, seller);
    }
    RevealPassesRefused(s, ids, digests, seller);
  }

  lemma BatchRollbackRefused(s: State, ids: seq<SwapId>, caller: Address)
    requires Inv(s) && SwapSpec.BatchRollback(s, ids, caller).Err?
    ensures BatchRollbackSays(s, ids, caller, SwapSpec.BatchRollback(s, ids, caller).error)
  {
    if ValidateRollbacks(s, ids).Pass? && RollBackAll(s, ids).Err? {
      SecondRollbackRefused(s, ids);
    }
    RollbackPassesRefused(s, ids, caller);
  }

  lemma BatchDepositRefused(s: State, ids: seq<SwapId>, buyer: Address)
    requires Inv(s) && SwapSpec.BatchEscrowDeposit(s, ids, buyer).Err?
    ensures BatchDepositSays(s, ids, buyer, SwapSpec.BatchEscrowDeposit(s, ids, buyer).error)
  {
    if buyer.Account? {
      DepositAllRefused(s, ids, buyer);
    }
  }

  lemma BatchArbitrateRefused(s: State, ids: seq<SwapId>, arbitrator: Address, refund: bool)
    requires Inv(s) && SwapSpec.BatchArbitrate(s, ids, arbitrator, refund).Err?
    ensures BatchArbitrateSays(s, ids, arbitrator, refund, SwapSpec.BatchArbitrate(s, ids, arbitrator, refund).error)
  {
    if arbitrator.Account? {
      ArbitrateAllRefused(s, ids, arbitrator, refund);
    }
  }

  /** Whatever batch is refused, its error is one of its own, and what it says of the store before the batch is true. */
  lemma BatchRefusalsTruthful(s: State, op: Op)
    requires Inv(s) && OnStoredSwaps(op) && Step(s, op).Err?
    ensures BatchSays(s, op, Step(s, op).error)
  {
    if op.BatchEscrowDeposit? {
      BatchDepositRefused(s, op.ids, op.buyer);
    } else if op.BatchArbitrate? {
      BatchArbitrateRefused(s, op.ids, op.arbitrator, op.refund);
    } else if op.BatchAccept? {
      BatchAcceptRefused(s, op.ids, op.buyer);
    } else if op.BatchReveal? {
      BatchRevealRefused(s, op.ids, op.digests, op.seller);
    } else {
      BatchRollbackRefused(s, op.ids, op.caller);
    }
  }
}

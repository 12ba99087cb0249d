/** From one sound change to one call, and from there along a batch. */
module SwapBatches {
  import opened Common
  import opened SwapState
  import opened SwapSpec
  import opened SwapClaims
  import opened SwapSafety
  import opened SwapActs

  /** A call that keeps every slack, and that a solvent contract can always fund. */
  ghost predicate Funded(s: State, r: Result<State>) {
    && (r.Ok? ==> SlackKept(s, r.value))
    && (Solvent(s) ==> r != Err(InsufficientBalance(Contract)))
  }

  /** One that also keeps the invariant, the order of statuses and the match of locks and live swaps. */
  ghost predicate Safe(s: State, r: Result<State>) {
    Funded(s, r) && (r.Ok? ==> Kept(s, r.value))
  }

  lemma LocalFromInv(s: State, id: SwapId)
    requires Inv(s)
    ensures Local(s, id)
  {
    if id in s.swaps {
      assert EntryOk(s, id);
      assert Pool(s.vault, s.swaps[id].token) >= 0;
    }
  }

  lemma DoFunded(s: State, id: SwapId, plan: Result<Change>)
    requires Inv(s) && Frugal(s, id, plan)
    ensures Funded(s, Do(s, id, plan))
  {
    if plan.Ok? {
      if Solvent(s) {
        ClaimsCovered(s, id, 0, plan.value.swap.token);
        SettleFunded(s.bank, plan.value.swap.token, plan.value.moves);
      }
      if Apply(s, id, plan.value).Ok? {
        SlackKeptIffProfit(s, id, plan.value);
      }
    }
  }

  lemma DoSafe(s: State, id: SwapId, plan: Result<Change>)
    requires Inv(s) && Sound(s, id, plan)
    ensures Safe(s, Do(s, id, plan))
  {
    DoFunded(s, id, plan);
    if Do(s, id, plan).Ok? {
      LegalKeeps(s, id, plan.value);
    }
  }

  lemma SafeThen(s: State, next: State, r: Result<State>)
    requires Kept(s, next) && SlackKept(s, next) && Safe(next, r)
    ensures Safe(s, r)
  {
    if Solvent(s) {
      forall t: Token ensures Slack(next, t) >= 0 {
        assert Slack(s, t) >= 0 && Slack(next, t) >= Slack(s, t);
      }
    }
    if r.Ok? {
      KeptTrans(s, next, r.value);
      SlackTrans(s, next, r.value);
    }
  }

  lemma NothingSafe(s: State)
    requires Inv(s)
    ensures Safe(s, Ok(s))
  {
    forall id | id in s.swaps ensures Persists(s, s, id) {
    }
  }

  // ── Batches that check each item as they reach it ────────────────────────

  lemma {:induction false} DepositAllSafe(s: State, ids: seq<SwapId>, buyer: Address)
    requires Inv(s) && buyer.Account?
    ensures Safe(s, DepositAll(s, ids, buyer))
    decreases |ids|
  {
    if ids == [] {
      NothingSafe(s);
    } else {
      var first := Do(s, ids[0], BatchDepositPlan(s, ids[0], buyer));
      LocalFromInv(s, ids[0]);
      DepositSound(s, ids[0], buyer);
      DoSafe(s, ids[0], BatchDepositPlan(s, ids[0], buyer));
      if first.Ok? {
        DepositAllSafe(first.value, ids[1..], buyer);
        SafeThen(s, first.value, DepositAll(first.value, ids[1..], buyer));
      }
    }
  }

  lemma {:induction false} ArbitrateAllSafe(s: State, ids: seq<SwapId>, refund: bool)
    requires Inv(s)
    ensures Safe(s, ArbitrateAll(s, ids, refund))
    decreases |ids|
  {
    if ids == [] {
      NothingSafe(s);
    } else {
      var first := Do(s, ids[0], BatchArbitratePlan(s, ids[0], refund));
      LocalFromInv(s, ids[0]);
      BatchArbitrateSound(s, ids[0], refund);
      DoSafe(s, ids[0], BatchArbitratePlan(s, ids[0], refund));
      if first.Ok? {
        ArbitrateAllSafe(first.value, ids[1..], refund);
        SafeThen(s, first.value, ArbitrateAll(first.value, ids[1..], refund));
      }
    }
  }

  lemma {:induction false} CancelAllSafe(s: State, ids: seq<SwapId>, canceller: Address)
    requires Inv(s)
    ensures Safe(s, CancelAll(s, ids, canceller))
    decreases |ids|
  {
    if ids == [] {
      NothingSafe(s);
    } else {
      var first := Do(s, ids[0], CancelPlan(s, ids[0], canceller));
      LocalFromInv(s, ids[0]);
      CancelSound(s, ids[0], canceller);
      DoSafe(s, ids[0], CancelPlan(s, ids[0], canceller));
      if first.Ok? {
        CancelAllSafe(first.value, ids[1..], canceller);
        SafeThen(s, first.value, CancelAll(first.value, ids[1..], canceller));
      }
    }
  }

  // ── Batches that check everything first and then write without checking ──

  predicate Payable(s: State, ids: seq<SwapId>) {
    forall id :: id in ids && id in s.swaps ==> s.swaps[id].buyer.Account? && Acceptable(s, id)
  }

  lemma AcceptItemSafe(s: State, id: SwapId)
    requires Inv(s) && (id in s.swaps ==> s.swaps[id].buyer.Account? && Acceptable(s, id))
    ensures Safe(s, Do(s, id, BatchAcceptPlan(s, id)))
  {
    LocalFromInv(s, id);
    BatchAcceptSound(s, id);
    DoSafe(s, id, BatchAcceptPlan(s, id));
  }

  lemma AcceptLeavesPayable(s: State, id: SwapId, ids: seq<SwapId>)
    requires Payable(s, ids) && Do(s, id, BatchAcceptPlan(s, id)).Ok? && s.swaps[id].buyer.Account?
    ensures Payable(Do(s, id, BatchAcceptPlan(s, id)).value, ids)
  {
  }

  /** A repeated id is accepted, and paid for, once per occurrence. */
  lemma {:induction false} AcceptAllSafe(s: State, ids: seq<SwapId>)
    requires Inv(s) && Payable(s, ids)
    ensures Safe(s, AcceptAll(s, ids))
    decreases |ids|
  {
    if ids == [] {
      NothingSafe(s);
    } else {
      var first := Do(s, ids[0], BatchAcceptPlan(s, ids[0]));
      AcceptItemSafe(s, ids[0]);
      if first.Ok? {
        AcceptLeavesPayable(s, ids[0], ids[1..]);
        AcceptAllSafe(first.value, ids[1..]);
        SafeThen(s, first.value, AcceptAll(first.value, ids[1..]));
      }
    }
  }

  predicate Revealable(s: State, ids: seq<SwapId>) {
    forall id :: id in ids && id in s.swaps ==> s.swaps[id].status == Accepted
  }

  lemma RevealItemSafe(s: State, id: SwapId)
    requires Inv(s) && (id in s.swaps ==> s.swaps[id].status == Accepted)
    ensures Safe(s, Do(s, id, BatchRevealPlan(s, id)))
  {
    LocalFromInv(s, id);
    BatchRevealSound(s, id);
    DoSafe(s, id, BatchRevealPlan(s, id));
  }

  lemma RevealLeavesRevealable(s: State, id: SwapId, ids: seq<SwapId>)
    requires Revealable(s, ids) && id !in ids && Do(s, id, BatchRevealPlan(s, id)).Ok?
    ensures Revealable(Do(s, id, BatchRevealPlan(s, id)).value, ids)
  {
  }

  /** The paying pass of `batch_reveal_keys` is safe as long as no swap appears in it twice. */
  lemma {:induction false} RevealAllSafe(s: State, ids: seq<SwapId>)
    requires Inv(s) && Revealable(s, ids) && Distinct(ids)
    ensures Safe(s, RevealAll(s, ids))
    decreases |ids|
  {
    if ids == [] {
      NothingSafe(s);
    } else {
      var first := Do(s, ids[0], BatchRevealPlan(s, ids[0]));
      RevealItemSafe(s, ids[0]);
      if first.Ok? {
        assert ids[0] !in ids[1..];
        RevealLeavesRevealable(s, ids[0], ids[1..]);
        RevealAllSafe(first.value, ids[1..]);
        SafeThen(s, first.value, RevealAll(first.value, ids[1..]));
      }
    }
  }

  predicate AllRevealReady(s: State, ids: seq<SwapId>) {
    forall id :: id in ids ==> RevealReady(s, id)
  }

  lemma RevealLeavesOneReady(s: State, id: SwapId, j: SwapId)
    requires RevealReady(s, id) && RevealReady(s, j) && Do(s, id, BatchRevealPlan(s, id)).Ok?
    ensures RevealReady(Do(s, id, BatchRevealPlan(s, id)).value, j)
  {
  }

  lemma RevealLeavesReady(s: State, id: SwapId, ids: seq<SwapId>)
    requires RevealReady(s, id) && AllRevealReady(s, ids) && Do(s, id, BatchRevealPlan(s, id)).Ok?
    ensures AllRevealReady(Do(s, id, BatchRevealPlan(s, id)).value, ids)
  {
    forall j | j in ids ensures RevealReady(Do(s, id, BatchRevealPlan(s, id)).value, j) {
      RevealLeavesOneReady(s, id, j);
    }
  }

  /** Even with repeated ids the paying pass keeps the storage invariant. */
  lemma {:induction false} RevealAllKept(s: State, ids: seq<SwapId>)
    requires Inv(s) && AllRevealReady(s, ids) && RevealAll(s, ids).Ok?
    ensures Kept(s, RevealAll(s, ids).value)
    decreases |ids|
  {
    if ids == [] {
      NothingSafe(s);
    } else {
      var first := Do(s, ids[0], BatchRevealPlan(s, ids[0]));
      LocalFromInv(s, ids[0]);
      BatchRevealLegal(s, ids[0]);
      LegalKeeps(s, ids[0], BatchRevealPlan(s, ids[0]).value);
      RevealLeavesReady(s, ids[0], ids[1..]);
      RevealAllKept(first.value, ids[1..]);
      KeptTrans(s, first.value, RevealAll(first.value, ids[1..]).value);
    }
  }

  // ── Whole batch calls ────────────────────────────────────────────────────

  /** The batches that check before they write leave only sound items to the writing pass. */
  lemma {:induction false} ValidatedAccepts(s: State, ids: seq<SwapId>, buyer: Address)
    requires ValidateAccepts(s, ids, buyer).Pass? && buyer.Account?
    ensures Payable(s, ids)
  {
    if ids == [] {
    } else {
      ValidatedAccepts(s, ids[1..], buyer);
    }
  }

  lemma {:induction false} ValidatedReveals(s: State, ids: seq<SwapId>, seller: Address, digests: seq<Digest>)
    requires |ids| == |digests| && ValidateReveals(s, ids, seller, digests).Pass?
    ensures Revealable(s, ids)
    ensures forall id :: id in ids ==> id in s.swaps && s.swaps[id].seller == seller
  {
    if ids == [] {
    } else {
      ValidatedReveals(s, ids[1..], seller, digests[1..]);
    }
  }

  // A batch that goes through is its writing pass, on items that passed the checks.

  lemma BatchDepositCarries(s: State, ids: seq<SwapId>, buyer: Address)
    requires BatchEscrowDeposit(s, ids, buyer).Ok?
    ensures BatchEscrowDeposit(s, ids, buyer) == DepositAll(s, ids, buyer)
  {
  }

  lemma BatchAcceptCarries(s: State, ids: seq<SwapId>, buyer: Address)
    requires BatchAccept(s, ids, buyer).Ok?
    ensures buyer.Account? && ValidateAccepts(s, ids, buyer).Pass? && BatchAccept(s, ids, buyer) == AcceptAll(s, ids)
  {
  }

  lemma BatchRevealCarries(s: State, ids: seq<SwapId>, digests: seq<Digest>, seller: Address)
    requires BatchReveal(s, ids, digests, seller).Ok?
    ensures |ids| == |digests| && ValidateReveals(s, ids, seller, digests).Pass?
    ensures BatchReveal(s, ids, digests, seller) == RevealAll(s, ids)
  {
  }

  lemma BatchArbitrateCarries(s: State, ids: seq<SwapId>, arbitrator: Address, refund: bool)
    requires BatchArbitrate(s, ids, arbitrator, refund).Ok?
    ensures BatchArbitrate(s, ids, arbitrator, refund) == ArbitrateAll(s, ids, refund)
  {
  }

  lemma BatchCancelCarries(s: State, ids: seq<SwapId>, canceller: Address, reasons: nat)
    requires BatchCancel(s, ids, canceller, reasons).Ok?
    ensures BatchCancel(s, ids, canceller, reasons) == CancelAll(s, ids, canceller)
  {
  }

  lemma BatchRollbackCarries(s: State, ids: seq<SwapId>, caller: Address)
    requires BatchRollback(s, ids, caller).Ok?
    ensures ValidateRollbacks(s, ids).Pass? && BatchRollback(s, ids, caller) == RollBackAll(s, ids)
  {
  }

  lemma BatchAcceptSafe(s: State, ids: seq<SwapId>, buyer: Address)
    requires Inv(s)
    ensures Safe(s, BatchAccept(s, ids, buyer))
  {
    if BatchAccept(s, ids, buyer) == AcceptAll(s, ids) && buyer.Account? && ValidateAccepts(s, ids, buyer).Pass? {
      ValidatedAccepts(s, ids, buyer);
      AcceptAllSafe(s, ids);
    }
  }

  lemma BatchRevealKept(s: State, ids: seq<SwapId>, digests: seq<Digest>, seller: Address)
    requires Inv(s)
    ensures BatchReveal(s, ids, digests, seller).Ok? ==> Kept(s, BatchReveal(s, ids, digests, seller).value)
    ensures Distinct(ids) ==> Safe(s, BatchReveal(s, ids, digests, seller))
  {
    if |ids| == |digests| && ValidateReveals(s, ids, seller, digests).Pass? {
      ValidatedReveals(s, ids, seller, digests);
      if RevealAll(s, ids).Ok? {
        RevealAllKept(s, ids);
      }
      if Distinct(ids) {
        RevealAllSafe(s, ids);
      }
    }
  }
}

/** The two batches that are more than single calls in a row: what a batch of reveals and a batch of acceptances asks
    for, whom it pays, and what it leaves. */
module SwapBatchOutcomes {
  import opened Common
  import opened SwapState
  import opened SwapSpec
  import opened SwapClaims
  import opened SwapRuns
  import opened SwapMoney
  import opened SwapActs
  import opened SwapBatches
  import opened SwapRules
  import opened SwapAdmission
  import opened SwapPayments
  import opened SwapBatchRules

  // ── Reveals ──────────────────────────────────────────────────────────────

  /** What the batch asks of one swap: neither signatures nor conditions. */
  predicate Revealable(s: State, id: SwapId, digest: Digest, seller: Address) {
    Is(s, id, Accepted) && s.swaps[id].seller == seller && RightKey(s, id, digest)
  }

  predicate AllFeesFit(s: State, ids: seq<SwapId>) {
    forall id :: id in ids ==> id in s.swaps && FeeFits(s.swaps[id].price)
  }

  lemma RevealValid(s: State, id: SwapId, seller: Address, digest: Digest)
    ensures ValidateReveal(s, id, seller, digest).Pass? <==> Revealable(s, id, digest, seller)
  {
  }

  lemma {:induction false} RevealsValid(s: State, ids: seq<SwapId>, seller: Address, digests: seq<Digest>)
    requires |ids| == |digests|
    ensures ValidateReveals(s, ids, seller, digests).Pass?
      <==> forall i :: 0 <= i < |ids| ==> Revealable(s, ids[i], digests[i], seller)
  {
    if ids == [] {
    } else {
      RevealValid(s, ids[0], seller, digests[0]);
      RevealsValid(s, ids[1..], seller, digests[1..]);
      if ValidateReveals(s, ids, seller, digests).Pass? {
        forall i | 0 <= i < |ids| ensures Revealable(s, ids[i], digests[i], seller) {
          assert i > 0 ==> Revealable(s, ids[1..][i - 1], digests[1..][i - 1], seller);
        }
      } else if ValidateReveal(s, ids[0], seller, digests[0]).Pass? {
        var i :| 0 <= i < |ids[1..]| && !Revealable(s, ids[1..][i], digests[1..][i], seller);
        assert !Revealable(s, ids[i + 1], digests[i + 1], seller);
      }
    }
  }

  lemma RevealItemPaysOut(s: State, id: SwapId)
    requires Local(s, id) && BatchRevealPlan(s, id).Ok?
    ensures PaysOut(BatchRevealPlan(s, id).value.moves)
  {
    var swap := s.swaps[id];
    var fee := Bps(swap.price, PROTOCOL_FEE_BPS).value;
    var referral := Referral(swap).value;
    var last := GiveCollateral(s.vault, id, swap, swap.seller, Done);
    CollateralPaysOut(s.vault, id, swap, swap.seller, Done);
    ReferrerPaysOut(swap, referral, last);
    GivesPayOut(TREASURY, fee, GiveReferrer(swap, referral, last));
    GivesPayOut(swap.seller, swap.price - fee - referral, GiveSome(TREASURY, fee, GiveReferrer(swap, referral, last)));
  }

  lemma RevealItem(s: State, id: SwapId)
    requires Local(s, id)
    ensures Admits(s, id, BatchRevealPlan(s, id), id in s.swaps && FeeFits(s.swaps[id].price))
  {
    if BatchRevealPlan(s, id).Ok? {
      RevealItemPaysOut(s, id);
    }
    PaysOutAdmits(s, id, BatchRevealPlan(s, id), id in s.swaps && FeeFits(s.swaps[id].price));
  }

  lemma RevealItemKeeps(s: State, id: SwapId, ids: seq<SwapId>)
    requires Inv(s) && RevealReady(s, id) && AllRevealReady(s, ids) && Do(s, id, BatchRevealPlan(s, id)).Ok?
    ensures Inv(Do(s, id, BatchRevealPlan(s, id)).value)
    ensures AllRevealReady(Do(s, id, BatchRevealPlan(s, id)).value, ids)
  {
    RevealLeavesReady(s, id, ids);
    RevealAllKept(s, [id]);
    assert RevealAll(Do(s, id, BatchRevealPlan(s, id)).value, []) == Ok(Do(s, id, BatchRevealPlan(s, id)).value);
  }

  /** The prices stay as they are. */
  lemma RevealItemFees(s: State, id: SwapId, ids: seq<SwapId>)
    requires Do(s, id, BatchRevealPlan(s, id)).Ok?
    ensures AllFeesFit(Do(s, id, BatchRevealPlan(s, id)).value, ids) <==> AllFeesFit(s, ids)
  {
    var next := Do(s, id, BatchRevealPlan(s, id)).value;
    assert forall j :: j in next.swaps <==> j in s.swaps;
    assert forall j :: j in s.swaps ==> next.swaps[j].price == s.swaps[j].price;
  }

  lemma AllFeesSplit(s: State, ids: seq<SwapId>)
    requires ids != []
    ensures AllFeesFit(s, ids) <==> ids[0] in s.swaps && FeeFits(s.swaps[ids[0]].price) && AllFeesFit(s, ids[1..])
  {
    assert forall id :: id in ids <==> id == ids[0] || id in ids[1..];
  }

  lemma {:induction false} RevealAllAdmits(s: State, ids: seq<SwapId>)
    requires Inv(s) && AllRevealReady(s, ids)
    ensures RevealAll(s, ids).Ok?
      <==> AllFeesFit(s, ids) && RevealAll(s, ids) != Err(InsufficientBalance(Contract))
    decreases |ids|
  {
    if ids == [] {
    } else {
      var first := Do(s, ids[0], BatchRevealPlan(s, ids[0]));
      LocalFromInv(s, ids[0]);
      RevealItem(s, ids[0]);
      AllFeesSplit(s, ids);
      if first.Ok? {
        RevealItemKeeps(s, ids[0], ids[1..]);
        RevealItemFees(s, ids[0], ids[1..]);
        RevealAllAdmits(first.value, ids[1..]);
      }
    }
  }

  /** A batch of 1 to 50 reveals goes through exactly when every key is the right one for an Accepted swap of the
      seller, and the fees fit, unless the contract lacks the funds. A swap may be named more than once. */
  lemma BatchRevealAdmits(s: State, ids: seq<SwapId>, digests: seq<Digest>, seller: Address)
    requires Inv(s)
    ensures SwapSpec.BatchReveal(s, ids, digests, seller).Ok?
      <==> && seller.Account? && 1 <= |ids| == |digests| <= 50
           && (forall i :: 0 <= i < |ids| ==> Revealable(s, ids[i], digests[i], seller)) && AllFeesFit(s, ids)
           && SwapSpec.BatchReveal(s, ids, digests, seller) != Err(InsufficientBalance(Contract))
  {
    if |ids| == |digests| {
      RevealsValid(s, ids, seller, digests);
      if ValidateReveals(s, ids, seller, digests).Pass? {
        ValidatedReveals(s, ids, seller, digests);
        RevealAllAdmits(s, ids);
      }
    }
  }

  /** What one item gives to an account: the collateral goes to the seller. */
  function FromBatchReveal(s: State, id: SwapId, t: Token, a: Address): int {
    if id in s.swaps && s.swaps[id].token == t
    then
      var swap := s.swaps[id];
      Share(a == swap.seller, swap.price - Fee(swap.price) - ReferralShare(swap) + Collateral(s, id))
      + Share(a == TREASURY, Fee(swap.price)) + Share(swap.referrer == Some(a), ReferralShare(swap))
    else 0
  }

  function FromBatchReveals(s: State, ids: seq<SwapId>, t: Token, a: Address): int {
    if ids == [] then 0 else FromBatchReveal(s, ids[0], t, a) + FromBatchReveals(s, ids[1..], t, a)
  }

  lemma RevealMovesPay(s: State, id: SwapId, a: Address)
    requires Local(s, id) && id in s.swaps && a.Account?
    ensures Flow(BatchRevealMoves(s.vault, id, s.swaps[id], Fee(s.swaps[id].price), ReferralShare(s.swaps[id])), a)
      == FromBatchReveal(s, id, s.swaps[id].token, a)
  {
    var swap := s.swaps[id];
    var fee, referral := Fee(swap.price), ReferralShare(swap);
    FeeIs(swap.price);
    var last := GiveCollateral(s.vault, id, swap, swap.seller, Done);
    var others := GiveReferrer(swap, referral, last);
    CollateralFlow(s, id, swap.seller, Done, a);
    ReferrerFlow(swap, referral, last, a);
    FlowGive(TREASURY, fee, others, a);
    FlowGive(swap.seller, swap.price - fee - referral, GiveSome(TREASURY, fee, others), a);
  }

  lemma RevealItemPays(s: State, id: SwapId, t: Token, a: Address)
    requires Local(s, id) && Do(s, id, BatchRevealPlan(s, id)).Ok? && a.Account?
    ensures Funds(Do(s, id, BatchRevealPlan(s, id)).value, t, a) == Funds(s, t, a) + FromBatchReveal(s, id, t, a)
  {
    FeeIs(s.swaps[id].price);
    ReferralIs(s.swaps[id]);
    RevealMovesPay(s, id, a);
    SettleFlow(s.bank, s.swaps[id].token, BatchRevealPlan(s, id).value.moves, t, a);
  }

  lemma RevealItemLeaves(s: State, id: SwapId, ids: seq<SwapId>)
    requires Do(s, id, BatchRevealPlan(s, id)).Ok? && id !in ids
    ensures SameItems(s, Do(s, id, BatchRevealPlan(s, id)).value, ids)
  {
  }

  lemma {:induction false} RevealedAgrees(s: State, next: State, ids: seq<SwapId>, t: Token, a: Address)
    requires SameItems(s, next, ids)
    ensures FromBatchReveals(next, ids, t, a) == FromBatchReveals(s, ids, t, a)
  {
    if ids == [] {
    } else {
      RevealedAgrees(s, next, ids[1..], t, a);
    }
  }

  lemma {:induction false} RevealAllPays(s: State, ids: seq<SwapId>, t: Token, a: Address)
    requires Inv(s) && AllRevealReady(s, ids) && Distinct(ids) && RevealAll(s, ids).Ok? && a.Account?
    ensures Funds(RevealAll(s, ids).value, t, a) == Funds(s, t, a) + FromBatchReveals(s, ids, t, a)
    decreases |ids|
  {
    if ids == [] {
    } else {
      var next := Do(s, ids[0], BatchRevealPlan(s, ids[0])).value;
      LocalFromInv(s, ids[0]);
      DistinctSplits(ids);
      RevealItemPays(s, ids[0], t, a);
      RevealItemKeeps(s, ids[0], ids[1..]);
      RevealItemLeaves(s, ids[0], ids[1..]);
      RevealAllPays(next, ids[1..], t, a);
      RevealedAgrees(s, next, ids[1..], t, a);
    }
  }

  lemma RevealItemEnded(s: State, id: SwapId)
    requires Do(s, id, BatchRevealPlan(s, id)).Ok?
    ensures AllEnded(s, Do(s, id, BatchRevealPlan(s, id)).value, [id], Completed)
  {
    assert forall j :: j in [id] <==> j == id;
  }

  lemma {:induction false} RevealAllEnds(s: State, ids: seq<SwapId>)
    requires Distinct(ids) && RevealAll(s, ids).Ok?
    ensures AllEnded(s, RevealAll(s, ids).value, ids, Completed)
    decreases |ids|
  {
    if ids == [] {
    } else {
      var next := Do(s, ids[0], BatchRevealPlan(s, ids[0])).value;
      DistinctSplits(ids);
      RevealItemEnded(s, ids[0]);
      RevealAllEnds(next, ids[1..]);
      EndedThen(s, next, RevealAll(next, ids[1..]).value, ids, Completed);
    }
  }

  /** On different swaps it gives every account exactly these shares, and all of them end as Completed. */
  lemma BatchRevealPaysExactly(
      s: State, ids: seq<SwapId>, digests: seq<Digest>, seller: Address, t: Token, a: Address)
    requires Inv(s) && Distinct(ids) && SwapSpec.BatchReveal(s, ids, digests, seller).Ok? && a.Account?
    ensures var s' := SwapSpec.BatchReveal(s, ids, digests, seller).value;
            && AllEnded(s, s', ids, Completed)
            && Funds(s', t, a) == Funds(s, t, a) + FromBatchReveals(s, ids, t, a)
  {
    BatchRevealCarries(s, ids, digests, seller);
    ValidatedReveals(s, ids, seller, digests);
    RevealAllEnds(s, ids);
    RevealAllPays(s, ids, t, a);
  }

  // ── Acceptances ──────────────────────────────────────────────────────────

  /** What the batch asks for one swap. Collateral that is there already is not asked for again. */
  function AskedFor(s: State, id: SwapId): int
    requires id in s.swaps
  {
    s.swaps[id].price + PremiumDue(s.swaps[id]) + if id in s.vault.collateral then 0 else Security(s.swaps[id])
  }

  function AllAskedFor(s: State, ids: seq<SwapId>, t: Token): int {
    if ids == [] then 0
    else Share(ids[0] in s.swaps && s.swaps[ids[0]].token == t, if ids[0] in s.swaps then AskedFor(s, ids[0]) else 0)
         + AllAskedFor(s, ids[1..], t)
  }

  function AllPremiums(s: State, ids: seq<SwapId>, t: Token): int {
    if ids == [] then 0
    else Share(ids[0] in s.swaps && s.swaps[ids[0]].token == t,
               if ids[0] in s.swaps then PremiumDue(s.swaps[ids[0]]) else 0)
         + AllPremiums(s, ids[1..], t)
  }

  /** The buyer has all that is asked for, token by token, and the pools can take in the premiums. */
  ghost predicate Affordable(s: State, ids: seq<SwapId>, buyer: Address) {
    forall id :: id in ids && id in s.swaps ==>
      && AllAskedFor(s, ids, s.swaps[id].token) <= Funds(s, s.swaps[id].token, buyer)
      && (PremiumDue(s.swaps[id]) > 0 ==>
            Insurance(s, s.swaps[id].token) + AllPremiums(s, ids, s.swaps[id].token) <= I128_MAX)
  }

  lemma AcceptItemAsks(s: State, id: SwapId)
    requires Local(s, id) && id in s.swaps
    ensures var m := AcceptMoves(s.vault, s.swaps[id], s.swaps[id].collateralAmount > 0 && id !in s.vault.collateral);
            && TakesFrom(m, s.swaps[id].buyer) && m.Move? && Asked(m) == AskedFor(s, id)
            && (Passable(m) <==> (PremiumDue(s.swaps[id]) > 0 ==>
                  Fits(Pool(s.vault, s.swaps[id].token) + PremiumDue(s.swaps[id]))))
  {
    var swap := s.swaps[id];
    var gate := Gate(Fits(Pool(s.vault, swap.token) + PremiumDue(swap)), Done);
    assert TakesFrom(gate, swap.buyer) && Asked(gate) == 0;
    var insurance := if PremiumDue(swap) > 0 then Take(swap.buyer, PremiumDue(swap), gate) else Done;
    assert TakesFrom(insurance, swap.buyer) && Asked(insurance) == PremiumDue(swap);
    assert Passable(insurance) <==> (PremiumDue(swap) > 0 ==> Fits(Pool(s.vault, swap.token) + PremiumDue(swap)));
    var payment := Take(swap.buyer, swap.price, insurance);
    assert TakesFrom(payment, swap.buyer) && Asked(payment) == swap.price + PremiumDue(swap);
    assert Passable(payment) <==> Passable(insurance);
  }

  /** One item, wherever it stands in the batch. */
  lemma AcceptItemAdmits(s: State, id: SwapId, buyer: Address)
    requires Local(s, id) && id in s.swaps && s.swaps[id].buyer == buyer && buyer.Account?
    ensures Do(s, id, BatchAcceptPlan(s, id)).Ok?
      <==> && AskedFor(s, id) <= Funds(s, s.swaps[id].token, buyer)
           && (PremiumDue(s.swaps[id]) > 0 ==> Insurance(s, s.swaps[id].token) + PremiumDue(s.swaps[id]) <= I128_MAX)
  {
    AcceptItemAsks(s, id);
    TakesSettle(s.bank, s.swaps[id].token, BatchAcceptPlan(s, id).value.moves, buyer);
  }

  lemma AcceptItemPays(s: State, id: SwapId, t: Token, a: Address)
    requires Local(s, id) && id in s.swaps && s.swaps[id].buyer.Account? && a.Account?
    requires Do(s, id, BatchAcceptPlan(s, id)).Ok?
    ensures Funds(Do(s, id, BatchAcceptPlan(s, id)).value, t, a)
      == Funds(s, t, a) - Share(a == s.swaps[id].buyer && t == s.swaps[id].token, AskedFor(s, id))
  {
    var swap := s.swaps[id];
    var m := BatchAcceptPlan(s, id).value.moves;
    AcceptItemAsks(s, id);
    TakesFlow(m, swap.buyer, a);
    SettleFlow(s.bank, swap.token, m, t, a);
  }

  /** What one item leaves: its swap Accepted from now on, its collateral stored, its premium in the pool. */
  ghost predicate ItemAccepted(s: State, s': State, id: SwapId)
    requires id in s.swaps
  {
    var swap := s.swaps[id];
    && s'.swaps == s.swaps[id := swap.(status := Accepted, acceptedAt := s.now)]
    && (forall j :: Log(s', j) == Log(s, j) + if j == id then [HistoryEntry(Accepted, s.now)] else [])
    && s'.vault.collateral
       == (if swap.collateralAmount > 0 && id !in s.vault.collateral
           then s.vault.collateral[id := swap.collateralAmount] else s.vault.collateral)
    && (forall t :: Insurance(s', t) == Insurance(s, t) + Share(t == swap.token, PremiumDue(swap)))
    && s'.vault.deposits == s.vault.deposits
    && s' == s.(swaps := s'.swaps, bank := s'.bank, vault := s'.vault, history := s'.history)
  }

  lemma AcceptItemLeaves(s: State, id: SwapId)
    requires id in s.swaps && Do(s, id, BatchAcceptPlan(s, id)).Ok?
    ensures ItemAccepted(s, Do(s, id, BatchAcceptPlan(s, id)).value, id)
  {
  }

  /** The listed swaps are all there, of this buyer, and may be accepted. */
  predicate AllOf(s: State, ids: seq<SwapId>, buyer: Address) {
    buyer.Account? && forall id :: id in ids ==> id in s.swaps && s.swaps[id].buyer == buyer && Acceptable(s, id)
  }

  lemma {:induction false} AsksSomewhere(s: State, ids: seq<SwapId>, buyer: Address, t: Token)
    requires Inv(s) && AllOf(s, ids, buyer)
    ensures AllAskedFor(s, ids, t) >= 0 && AllPremiums(s, ids, t) >= 0
    ensures AllAskedFor(s, ids, t) > 0 ==> exists id :: id in ids && s.swaps[id].token == t
    ensures AllPremiums(s, ids, t) > 0 ==>
      exists id :: id in ids && s.swaps[id].token == t && PremiumDue(s.swaps[id]) > 0
  {
    if ids == [] {
    } else {
      assert ids[0] in ids && EntryOk(s, ids[0]);
      AsksSomewhere(s, ids[1..], buyer, t);
      assert forall id :: id in ids[1..] ==> id in ids;
    }
  }

  /** An item leaves what the others ask for as it was. */
  lemma {:induction false} AsksStay(s: State, next: State, id: SwapId, ids: seq<SwapId>, t: Token)
    requires id in s.swaps && ItemAccepted(s, next, id) && id !in ids
    ensures AllAskedFor(next, ids, t) == AllAskedFor(s, ids, t) && AllPremiums(next, ids, t) == AllPremiums(s, ids, t)
  {
    if ids == [] {
    } else {
      AsksStay(s, next, id, ids[1..], t);
    }
  }

  /** The demands of one item, and of all. */
  ghost predicate ItemAffordable(s: State, id: SwapId, buyer: Address)
    requires id in s.swaps
  {
    && AskedFor(s, id) <= Funds(s, s.swaps[id].token, buyer)
    && (PremiumDue(s.swaps[id]) > 0 ==> Insurance(s, s.swaps[id].token) + PremiumDue(s.swaps[id]) <= I128_MAX)
  }

  predicate BuyerPaid(s: State, next: State, id: SwapId, buyer: Address, t: Token)
    requires id in s.swaps
  {
    Funds(next, t, buyer) == Funds(s, t, buyer) - Share(t == s.swaps[id].token, AskedFor(s, id))
  }

  lemma FirstIsAffordable(s: State, ids: seq<SwapId>, buyer: Address)
    requires Inv(s) && ids != [] && AllOf(s, ids, buyer) && Affordable(s, ids, buyer)
    ensures ItemAffordable(s, ids[0], buyer)
  {
    assert ids[0] in ids && forall id :: id in ids[1..] ==> id in ids;
    AsksSomewhere(s, ids[1..], buyer, s.swaps[ids[0]].token);
  }

  lemma RestIsAffordable(s: State, next: State, ids: seq<SwapId>, buyer: Address)
    requires ids != [] && AllOf(s, ids, buyer) && Affordable(s, ids, buyer) && ids[0] !in ids[1..]
    requires ItemAccepted(s, next, ids[0]) && forall t :: BuyerPaid(s, next, ids[0], buyer, t)
    ensures Affordable(next, ids[1..], buyer)
  {
    forall id | id in ids[1..] && id in next.swaps
      ensures AllAskedFor(next, ids[1..], next.swaps[id].token) <= Funds(next, next.swaps[id].token, buyer)
      ensures PremiumDue(next.swaps[id]) > 0 ==>
        Insurance(next, next.swaps[id].token) + AllPremiums(next, ids[1..], next.swaps[id].token) <= I128_MAX
    {
      var t := s.swaps[id].token;
      assert id in ids && ids[0] in ids && next.swaps[id] == s.swaps[id];
      AsksStay(s, next, ids[0], ids[1..], t);
      assert BuyerPaid(s, next, ids[0], buyer, t);
    }
  }

  /** Seen from any one of the swaps. */
  lemma OneIsAffordable(s: State, next: State, ids: seq<SwapId>, buyer: Address, id: SwapId)
    requires ids != [] && AllOf(s, ids, buyer) && ids[0] !in ids[1..] && ItemAffordable(s, ids[0], buyer)
    requires ItemAccepted(s, next, ids[0]) && Affordable(next, ids[1..], buyer)
    requires id in ids && id in s.swaps && BuyerPaid(s, next, ids[0], buyer, s.swaps[id].token)
    requires AllAskedFor(s, ids[1..], s.swaps[id].token) > 0 ==>
      exists j :: j in ids[1..] && j in s.swaps && s.swaps[j].token == s.swaps[id].token
    requires AllPremiums(s, ids[1..], s.swaps[id].token) > 0 ==>
      exists j :: j in ids[1..] && j in s.swaps && s.swaps[j].token == s.swaps[id].token && PremiumDue(s.swaps[j]) > 0
    ensures AllAskedFor(s, ids, s.swaps[id].token) <= Funds(s, s.swaps[id].token, buyer)
    ensures PremiumDue(s.swaps[id]) > 0 ==>
      Insurance(s, s.swaps[id].token) + AllPremiums(s, ids, s.swaps[id].token) <= I128_MAX
  {
    assert ids[0] in ids && forall j :: j in ids[1..] ==> j in ids && next.swaps[j] == s.swaps[j];
    AsksStay(s, next, ids[0], ids[1..], s.swaps[id].token);
  }

  lemma AllAreAffordable(s: State, next: State, ids: seq<SwapId>, buyer: Address)
    requires Inv(s) && ids != [] && AllOf(s, ids, buyer) && ids[0] !in ids[1..] && ItemAffordable(s, ids[0], buyer)
    requires ItemAccepted(s, next, ids[0]) && forall t :: BuyerPaid(s, next, ids[0], buyer, t)
    requires Affordable(next, ids[1..], buyer)
    ensures Affordable(s, ids, buyer)
  {
    forall id | id in ids && id in s.swaps
      ensures AllAskedFor(s, ids, s.swaps[id].token) <= Funds(s, s.swaps[id].token, buyer)
      ensures PremiumDue(s.swaps[id]) > 0 ==>
        Insurance(s, s.swaps[id].token) + AllPremiums(s, ids, s.swaps[id].token) <= I128_MAX
    {
      assert forall j :: j in ids[1..] ==> j in ids;
      AsksSomewhere(s, ids[1..], buyer, s.swaps[id].token);
      OneIsAffordable(s, next, ids, buyer, id);
    }
  }

  lemma AcceptItemStays(s: State, ids: seq<SwapId>, buyer: Address)
    requires ids != [] && AllOf(s, ids, buyer) && Local(s, ids[0]) && Do(s, ids[0], BatchAcceptPlan(s, ids[0])).Ok?
    ensures var next := Do(s, ids[0], BatchAcceptPlan(s, ids[0])).value;
            && AllOf(next, ids[1..], buyer) && ItemAccepted(s, next, ids[0])
            && forall t :: BuyerPaid(s, next, ids[0], buyer, t)
  {
    var next := Do(s, ids[0], BatchAcceptPlan(s, ids[0])).value;
    assert ids[0] in ids && forall j :: j in ids[1..] ==> j in ids;
    AcceptItemLeaves(s, ids[0]);
    forall t ensures BuyerPaid(s, next, ids[0], buyer, t) {
      AcceptItemPays(s, ids[0], t, buyer);
    }
  }

  lemma AcceptItemKeeps(s: State, ids: seq<SwapId>, buyer: Address)
    requires Inv(s) && ids != [] && AllOf(s, ids, buyer) && Do(s, ids[0], BatchAcceptPlan(s, ids[0])).Ok?
    ensures Inv(Do(s, ids[0], BatchAcceptPlan(s, ids[0])).value) && Local(s, ids[0])
  {
    assert ids[0] in ids;
    LocalFromInv(s, ids[0]);
    AcceptItemSafe(s, ids[0]);
  }

  lemma {:induction false} AcceptAllAdmits(s: State, ids: seq<SwapId>, buyer: Address)
    requires Inv(s) && AllOf(s, ids, buyer) && Distinct(ids)
    ensures AcceptAll(s, ids).Ok? <==> Affordable(s, ids, buyer)
    decreases |ids|
  {
    if ids == [] {
    } else {
      var first := Do(s, ids[0], BatchAcceptPlan(s, ids[0]));
      assert ids[0] in ids;
      LocalFromInv(s, ids[0]);
      DistinctSplits(ids);
      AcceptItemAdmits(s, ids[0], buyer);
      if first.Ok? {
        AcceptItemKeeps(s, ids, buyer);
        AcceptItemStays(s, ids, buyer);
        AcceptAllAdmits(first.value, ids[1..], buyer);
        if AcceptAll(first.value, ids[1..]).Ok? {
          AllAreAffordable(s, first.value, ids, buyer);
        } else if Affordable(s, ids, buyer) {
          RestIsAffordable(s, first.value, ids, buyer);
        }
      } else if Affordable(s, ids, buyer) {
        FirstIsAffordable(s, ids, buyer);
      }
    }
  }

  /** A batch of 1 to 50 acceptances of different swaps goes through exactly when all of them are Pending offers to the
      buyer that have been approved, and he can pay for all; it looks neither at conditions nor at reputation. */
  lemma BatchAcceptAdmits(s: State, ids: seq<SwapId>, buyer: Address)
    requires Inv(s) && Distinct(ids)
    ensures SwapSpec.BatchAccept(s, ids, buyer).Ok?
      <==> && !s.world.paused && buyer.Account? && 1 <= |ids| <= 50
           && (forall id :: id in ids ==> Admissible(s, id, buyer)) && Affordable(s, ids, buyer)
  {
    AcceptsValid(s, ids, buyer);
    if buyer.Account? && forall id :: id in ids ==> Admissible(s, id, buyer) {
      AcceptAllAdmits(s, ids, buyer);
    }
  }

  // ── What it leaves ───────────────────────────────────────────────────────

  /** All listed swaps are Accepted from now on, as their histories say. */
  ghost predicate StatusesAccepted(s: State, s': State, ids: seq<SwapId>) {
    && (forall j :: j in s'.swaps <==> j in s.swaps)
    && (forall j :: j in s.swaps ==>
          s'.swaps[j] == if j in ids then s.swaps[j].(status := Accepted, acceptedAt := s.now) else s.swaps[j])
    && (forall j :: Log(s', j) == Log(s, j) + if j in ids then [HistoryEntry(Accepted, s.now)] else [])
  }

  /** What they asked for is in the store. */
  ghost predicate DemandsStored(s: State, s': State, ids: seq<SwapId>) {
    && (forall j :: j in s'.vault.collateral
          <==> j in s.vault.collateral || (j in ids && j in s.swaps && s.swaps[j].collateralAmount > 0))
    && (forall j :: j in s'.vault.collateral ==>
          s'.vault.collateral[j]
          == if j in s.vault.collateral then s.vault.collateral[j] else s.swaps[j].collateralAmount)
    && (forall t :: Insurance(s', t) == Insurance(s, t) + AllPremiums(s, ids, t))
    && s'.vault.deposits == s.vault.deposits
  }

  /** And nothing else has changed. */
  ghost predicate AllAccepted(s: State, s': State, ids: seq<SwapId>) {
    && StatusesAccepted(s, s', ids) && DemandsStored(s, s', ids)
    && s' == s.(swaps := s'.swaps, bank := s'.bank, vault := s'.vault, history := s'.history)
  }

  lemma NoneAccepted(s: State)
    ensures AllAccepted(s, s, [])
  {
  }

  lemma StatusAccepted(s: State, next: State, id: SwapId)
    requires id in s.swaps && ItemAccepted(s, next, id)
    ensures StatusesAccepted(s, next, [id]) && next.now == s.now
  {
    assert forall j :: j in [id] <==> j == id;
  }

  lemma StatusesThen(s: State, next: State, end: State, ids: seq<SwapId>)
    requires ids != [] && ids[0] !in ids[1..] && next.now == s.now
    requires StatusesAccepted(s, next, [ids[0]]) && StatusesAccepted(next, end, ids[1..])
    ensures StatusesAccepted(s, end, ids)
  {
    forall j ensures j in ids <==> j in [ids[0]] || j in ids[1..] {
      assert ids == [ids[0]] + ids[1..];
    }
    forall j | j in s.swaps
      ensures end.swaps[j] == if j in ids then s.swaps[j].(status := Accepted, acceptedAt := s.now) else s.swaps[j]
    {
      assert j in next.swaps;
    }
  }

  lemma DemandsThen(s: State, next: State, end: State, ids: seq<SwapId>)
    requires ids != [] && ids[0] in s.swaps && ids[0] !in ids[1..]
    requires ItemAccepted(s, next, ids[0]) && DemandsStored(next, end, ids[1..])
    ensures DemandsStored(s, end, ids)
  {
    assert forall j :: j in ids <==> j == ids[0] || j in ids[1..];
    forall t ensures Insurance(end, t) == Insurance(s, t) + AllPremiums(s, ids, t) {
      AsksStay(s, next, ids[0], ids[1..], t);
    }
  }

  lemma AcceptedThen(s: State, next: State, end: State, ids: seq<SwapId>)
    requires ids != [] && ids[0] in s.swaps && ids[0] !in ids[1..]
    requires ItemAccepted(s, next, ids[0]) && AllAccepted(next, end, ids[1..])
    ensures AllAccepted(s, end, ids)
  {
    StatusAccepted(s, next, ids[0]);
    StatusesThen(s, next, end, ids);
    DemandsThen(s, next, end, ids);
  }

  lemma {:induction false} AcceptAllLeaves(s: State, ids: seq<SwapId>, buyer: Address)
    requires Inv(s) && AllOf(s, ids, buyer) && Distinct(ids) && AcceptAll(s, ids).Ok?
    ensures AllAccepted(s, AcceptAll(s, ids).value, ids)
    decreases |ids|
  {
    if ids == [] {
      NoneAccepted(s);
    } else {
      var next := Do(s, ids[0], BatchAcceptPlan(s, ids[0])).value;
      assert ids[0] in ids;
      DistinctSplits(ids);
      AcceptItemKeeps(s, ids, buyer);
      AcceptItemStays(s, ids, buyer);
      AcceptAllLeaves(next, ids[1..], buyer);
      AcceptedThen(s, next, AcceptAll(next, ids[1..]).value, ids);
    }
  }

  lemma {:induction false} AcceptAllPays(s: State, ids: seq<SwapId>, buyer: Address, t: Token, a: Address)
    requires Inv(s) && AllOf(s, ids, buyer) && Distinct(ids) && AcceptAll(s, ids).Ok? && a.Account?
    ensures Funds(AcceptAll(s, ids).value, t, a) == Funds(s, t, a) - Share(a == buyer, AllAskedFor(s, ids, t))
    decreases |ids|
  {
    if ids == [] {
    } else {
      var next := Do(s, ids[0], BatchAcceptPlan(s, ids[0])).value;
      assert ids[0] in ids;
      LocalFromInv(s, ids[0]);
      DistinctSplits(ids);
      AcceptItemPays(s, ids[0], t, a);
      AcceptItemKeeps(s, ids, buyer);
      AcceptItemStays(s, ids, buyer);
      AsksStay(s, next, ids[0], ids[1..], t);
      AcceptAllPays(next, ids[1..], buyer, t, a);
    }
  }

  /** On different swaps it takes exactly what is asked for from the buyer, and leaves exactly these swaps Accepted. */
  lemma BatchAcceptPaysExactly(s: State, ids: seq<SwapId>, buyer: Address, t: Token, a: Address)
    requires Inv(s) && Distinct(ids) && SwapSpec.BatchAccept(s, ids, buyer).Ok? && a.Account?
    ensures var s' := SwapSpec.BatchAccept(s, ids, buyer).value;
            && AllAccepted(s, s', ids)
            && Funds(s', t, a) == Funds(s, t, a) - Share(a == buyer, AllAskedFor(s, ids, t))
  {
    BatchAcceptCarries(s, ids, buyer);
    AcceptsValid(s, ids, buyer);
    AcceptAllLeaves(s, ids, buyer);
    AcceptAllPays(s, ids, buyer, t, a);
  }
}

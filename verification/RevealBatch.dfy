/** Revealing keys in a batch, against revealing them one by one. */
module RevealBatch {
  import opened Common
  import opened SwapState
  import opened SwapSpec
  import opened SwapMoney

  /** One `reveal_key` after another. */
  function RevealEach(s: State, ids: seq<SwapId>, digests: seq<Digest>, seller: Address): Result<State>
    requires |ids| == |digests|
    decreases |ids|
  {
    if ids == [] then Ok(s) else
    var next :- Do(s, ids[0], RevealPlan(s, ids[0], seller, digests[0]));
    RevealEach(next, ids[1..], digests[1..], seller)
  }

  /** A swap without the three things that only the single form looks at or treats differently. */
  predicate Plain(s: State, id: SwapId) {
    id in s.swaps ==>
      && !HasCollateral(s.vault, id, s.swaps[id]) && id !in s.side.signers && s.swaps[id].conditions == []
      && s.swaps[id].referrer != Some(Contract)
  }

  predicate AllPlain(s: State, ids: seq<SwapId>) {
    forall id :: id in ids ==> Plain(s, id)
  }

  function WithClock(s: State, clock: map<SwapId, nat>): State {
    s.(side := s.side.(completedAt := clock))
  }

  function Stamped(clock: map<SwapId, nat>, ids: seq<SwapId>, now: nat): map<SwapId, nat>
    decreases |ids|
  {
    if ids == [] then clock else Stamped(clock[ids[0] := now], ids[1..], now)
  }

  // ── One swap ─────────────────────────────────────────────────────────────

  /** Paying the seller first or last comes to the same. */
  lemma SellerFirst(b: Bank, swap: SwapRecord, fee: nat, referral: nat, share: int)
    requires swap.seller.Account? && swap.referrer != Some(Contract)
    ensures var early := Give(swap.seller, share, GiveSome(TREASURY, fee, GiveReferrer(swap, referral, Done)));
            var late := GiveSome(TREASURY, fee, GiveReferrer(swap, referral, Give(swap.seller, share, Done)));
            && (Settle(b, swap.token, early).Ok? <==> Settle(b, swap.token, late).Ok?)
            && (Settle(b, swap.token, early).Ok? ==> Settle(b, swap.token, early) == Settle(b, swap.token, late))
  {
    PaymentsCommuteSome(b, swap.token, swap.seller, share, TREASURY, fee, GiveReferrer(swap, referral, Done));
    if swap.referrer.Some? {
      forall c: Bank
        ensures Settle(c, swap.token, Give(swap.seller, share, GiveReferrer(swap, referral, Done))).Ok?
          <==> Settle(c, swap.token, GiveReferrer(swap, referral, Give(swap.seller, share, Done))).Ok?
        ensures Settle(c, swap.token, Give(swap.seller, share, GiveReferrer(swap, referral, Done))).Ok? ==>
          Settle(c, swap.token, Give(swap.seller, share, GiveReferrer(swap, referral, Done)))
          == Settle(c, swap.token, GiveReferrer(swap, referral, Give(swap.seller, share, Done)))
      {
        PaymentsCommuteSome(c, swap.token, swap.seller, share, swap.referrer.value, referral, Done);
      }
      AfterSome(b, swap.token, TREASURY, fee, Give(swap.seller, share, GiveReferrer(swap, referral, Done)),
                GiveReferrer(swap, referral, Give(swap.seller, share, Done)));
    }
  }

  /** On a plain swap the two forms pass the same checks, */
  lemma ChecksAgree(s: State, clock: map<SwapId, nat>, id: SwapId, seller: Address, digest: Digest)
    requires Plain(s, id) && seller.Account?
    ensures RevealPlan(WithClock(s, clock), id, seller, digest).Ok?
      <==> ValidateReveal(s, id, seller, digest).Pass? && BatchRevealPlan(s, id).Ok?
  {
  }

  /** plan the same change, up to the order of the payments and the clock, */
  lemma PlansAgree(s: State, clock: map<SwapId, nat>, id: SwapId, seller: Address, digest: Digest)
    requires RevealPlan(WithClock(s, clock), id, seller, digest).Ok?
    requires Plain(s, id) && BatchRevealPlan(s, id).Ok?
    ensures var single := RevealPlan(WithClock(s, clock), id, seller, digest).value;
            var batch := BatchRevealPlan(s, id).value;
            single == batch.(moves := single.moves, side := batch.side.(completedAt := clock[id := s.now]))
  {
  }

  lemma MovesAgree(b: Bank, v: Vault, id: SwapId, swap: SwapRecord, fee: nat, referral: nat)
    requires !HasCollateral(v, id, swap) && swap.seller.Account? && swap.referrer != Some(Contract)
    ensures var batch := Settle(b, swap.token, BatchRevealMoves(v, id, swap, fee, referral));
            var single := Settle(b, swap.token, RevealMoves(v, id, swap, fee, referral));
            (batch.Ok? <==> single.Ok?) && (batch.Ok? ==> batch == single)
  {
    SellerFirst(b, swap, fee, referral, swap.price - fee - referral);
  }

  lemma PlannedMoves(s: State, id: SwapId, seller: Address, digest: Digest)
    requires RevealPlan(s, id, seller, digest).Ok?
    ensures Bps(s.swaps[id].price, PROTOCOL_FEE_BPS).Ok? && Referral(s.swaps[id]).Ok?
    ensures var fee, referral := Bps(s.swaps[id].price, PROTOCOL_FEE_BPS).value, Referral(s.swaps[id]).value;
            && 0 <= fee && 0 <= referral
            && RevealPlan(s, id, seller, digest).value.moves == RevealMoves(s.vault, id, s.swaps[id], fee, referral)
            && BatchRevealPlan(s, id).Ok?
            && BatchRevealPlan(s, id).value.moves == BatchRevealMoves(s.vault, id, s.swaps[id], fee, referral)
  {
  }

  /** and make the same payments in a different order. */
  lemma PaymentsAgree(s: State, id: SwapId, seller: Address, digest: Digest)
    requires RevealPlan(s, id, seller, digest).Ok? && Plain(s, id) && seller.Account? && s.swaps[id].seller == seller
    ensures BatchRevealPlan(s, id).Ok?
    ensures var single := Settle(s.bank, s.swaps[id].token, RevealPlan(s, id, seller, digest).value.moves);
            var batch := Settle(s.bank, s.swaps[id].token, BatchRevealPlan(s, id).value.moves);
            (batch.Ok? <==> single.Ok?) && (batch.Ok? ==> batch == single)
  {
    PlannedMoves(s, id, seller, digest);
    MovesAgree(s.bank, s.vault, id, s.swaps[id],
               Bps(s.swaps[id].price, PROTOCOL_FEE_BPS).value, Referral(s.swaps[id]).value);
  }

  lemma ClockDoesNotMatter(s: State, clock: map<SwapId, nat>, id: SwapId, seller: Address, digest: Digest)
    ensures RevealPlan(WithClock(s, clock), id, seller, digest).Ok? <==> RevealPlan(s, id, seller, digest).Ok?
    ensures RevealPlan(s, id, seller, digest).Ok? ==>
      && s.swaps[id].seller == seller
      && RevealPlan(WithClock(s, clock), id, seller, digest).value.moves
      == RevealPlan(s, id, seller, digest).value.moves
  {
  }

  lemma RevealsAgree(s: State, clock: map<SwapId, nat>, id: SwapId, seller: Address, digest: Digest)
    requires Plain(s, id) && seller.Account?
    ensures Do(WithClock(s, clock), id, RevealPlan(WithClock(s, clock), id, seller, digest)).Ok?
      <==> ValidateReveal(s, id, seller, digest).Pass? && Do(s, id, BatchRevealPlan(s, id)).Ok?
    ensures Do(WithClock(s, clock), id, RevealPlan(WithClock(s, clock), id, seller, digest)).Ok? ==>
      Do(WithClock(s, clock), id, RevealPlan(WithClock(s, clock), id, seller, digest)).value
      == WithClock(Do(s, id, BatchRevealPlan(s, id)).value, clock[id := s.now])
  {
    ChecksAgree(s, clock, id, seller, digest);
    if RevealPlan(WithClock(s, clock), id, seller, digest).Ok? {
      PlansAgree(s, clock, id, seller, digest);
      ClockDoesNotMatter(s, clock, id, seller, digest);
      PaymentsAgree(s, id, seller, digest);
    }
  }

  // ── A batch ──────────────────────────────────────────────────────────────

  /** Revealing one swap leaves the others as they were, and what is checked of them. */
  lemma RevealLeavesOthers(s: State, id: SwapId, ids: seq<SwapId>)
    requires Do(s, id, BatchRevealPlan(s, id)).Ok? && id !in ids && AllPlain(s, ids)
    ensures AllPlain(Do(s, id, BatchRevealPlan(s, id)).value, ids)
    ensures Do(s, id, BatchRevealPlan(s, id)).value.swaps.Keys == s.swaps.Keys
    ensures forall j :: j in ids && j in s.swaps ==> Do(s, id, BatchRevealPlan(s, id)).value.swaps[j] == s.swaps[j]
    ensures Do(s, id, BatchRevealPlan(s, id)).value.world == s.world
  {
    var next := Do(s, id, BatchRevealPlan(s, id)).value;
    forall j | j in ids ensures Plain(next, j) {
      assert Plain(s, j);
    }
  }

  lemma {:induction false} ValidationStands(
      s: State, next: State, ids: seq<SwapId>, seller: Address, digests: seq<Digest>)
    requires |ids| == |digests| && next.world == s.world && next.swaps.Keys == s.swaps.Keys
    requires forall j :: j in ids && j in s.swaps ==> next.swaps[j] == s.swaps[j]
    ensures ValidateReveals(next, ids, seller, digests) == ValidateReveals(s, ids, seller, digests)
  {
    if ids == [] {
    } else {
      ValidationStands(s, next, ids[1..], seller, digests[1..]);
    }
  }

  lemma {:induction false} EachIsBatch(
      s: State, clock: map<SwapId, nat>, ids: seq<SwapId>, digests: seq<Digest>, seller: Address)
    requires |ids| == |digests| && Distinct(ids) && AllPlain(s, ids) && seller.Account?
    ensures RevealEach(WithClock(s, clock), ids, digests, seller).Ok?
      <==> ValidateReveals(s, ids, seller, digests).Pass? && RevealAll(s, ids).Ok?
    ensures RevealEach(WithClock(s, clock), ids, digests, seller).Ok? ==>
      RevealEach(WithClock(s, clock), ids, digests, seller).value
        == WithClock(RevealAll(s, ids).value, Stamped(clock, ids, s.now))
    decreases |ids|
  {
    if ids == [] {
    } else {
      RevealsAgree(s, clock, ids[0], seller, digests[0]);
      if Do(s, ids[0], BatchRevealPlan(s, ids[0])).Ok? {
        var next := Do(s, ids[0], BatchRevealPlan(s, ids[0])).value;
        RevealLeavesOthers(s, ids[0], ids[1..]);
        ValidationStands(s, next, ids[1..], seller, digests[1..]);
        EachIsBatch(next, clock[ids[0] := s.now], ids[1..], digests[1..], seller);
      }
    }
  }

  /** On 1 to 50 different swaps without stored collateral, signers or conditions, a batch of reveals
      goes through exactly when the single reveals go through one after another, and leaves the same
      state, except that only the single form notes when each swap was completed. */
  lemma BatchRevealsEach(s: State, ids: seq<SwapId>, digests: seq<Digest>, seller: Address)
    requires 1 <= |ids| == |digests| <= MAX_BATCH_SIZE && Distinct(ids) && AllPlain(s, ids)
    ensures BatchReveal(s, ids, digests, seller).Ok? <==> RevealEach(s, ids, digests, seller).Ok?
    ensures BatchReveal(s, ids, digests, seller).Ok? ==>
      RevealEach(s, ids, digests, seller).value
      == WithClock(BatchReveal(s, ids, digests, seller).value, Stamped(s.side.completedAt, ids, s.now))
  {
    if seller.Account? {
      assert WithClock(s, s.side.completedAt) == s;
      EachIsBatch(s, s.side.completedAt, ids, digests, seller);
    }
  }

  // ── Where the two forms part ─────────────────────────────────────────────

  /** A swap that is not Accepted cannot be revealed, whatever is revealed before it. */
  lemma {:induction false} UnacceptedFails(
      s: State, ids: seq<SwapId>, digests: seq<Digest>, seller: Address, id: SwapId)
    requires |ids| == |digests| && id in ids && id in s.swaps && s.swaps[id].status != Accepted
    ensures RevealEach(s, ids, digests, seller).Err?
    decreases |ids|
  {
    var first := Do(s, ids[0], RevealPlan(s, ids[0], seller, digests[0]));
    if first.Ok? {
      UnacceptedFails(first.value, ids[1..], digests[1..], seller, id);
    }
  }

  /** A list that names a swap twice can be revealed as a batch, but never one after another. */
  lemma {:induction false} RepeatedSinglesFail(s: State, ids: seq<SwapId>, digests: seq<Digest>, seller: Address)
    requires |ids| == |digests| && !Distinct(ids)
    ensures RevealEach(s, ids, digests, seller).Err?
    decreases |ids|
  {
    var first := Do(s, ids[0], RevealPlan(s, ids[0], seller, digests[0]));
    DistinctSplits(ids);
    if first.Ok? {
      if ids[0] in ids[1..] {
        UnacceptedFails(first.value, ids[1..], digests[1..], seller, ids[0]);
      } else {
        RepeatedSinglesFail(first.value, ids[1..], digests[1..], seller);
      }
    }
  }

  /** The single form also asks for the signatures and the conditions. */
  lemma SingleAsksMore(s: State, id: SwapId, seller: Address, digest: Digest)
    requires seller.Account?
    ensures RevealPlan(s, id, seller, digest).Ok?
      <==> && ValidateReveal(s, id, seller, digest).Pass? && BatchRevealPlan(s, id).Ok?
           && FullySigned(s, id) && AllHold(s.swaps[id].conditions, s.swaps[id].price, s.now)
  {
  }

  /** The collateral a reveal hands out. */
  function Collateral(s: State, id: SwapId): int
    requires id in s.swaps
  {
    if HasCollateral(s.vault, id, s.swaps[id]) then Stored(s.vault, id) else 0
  }

  /** What a reveal adds to the balance of `a`, collateral apart. */
  function PriceFlow(swap: SwapRecord, fee: nat, referral: nat, a: Address): int {
    Share(a == swap.seller, swap.price - fee - referral)
      + Share(a == TREASURY, fee) + Share(swap.referrer == Some(a), referral)
  }

  lemma LastFlow(s: State, id: SwapId, to: Address, a: Address)
    requires id in s.swaps && a.Account?
    ensures Flow(GiveCollateral(s.vault, id, s.swaps[id], to, Done), a) == Share(a == to, Collateral(s, id))
  {
    FlowGive(to, Stored(s.vault, id), Done, a);
  }

  lemma ReferrerFlow(swap: SwapRecord, referral: nat, rest: Moves, a: Address)
    requires a.Account?
    ensures swap.referrer.Some? || referral == 0 ==>
      Flow(GiveReferrer(swap, referral, rest), a) == Flow(rest, a) + Share(swap.referrer == Some(a), referral)
  {
    if swap.referrer.Some? {
      FlowGive(swap.referrer.value, referral, rest, a);
    }
  }

  lemma SingleFlow(s: State, id: SwapId, seller: Address, digest: Digest, a: Address)
    requires RevealPlan(s, id, seller, digest).Ok? && s.swaps[id].price > 0 && a.Account?
    ensures Flow(RevealPlan(s, id, seller, digest).value.moves, a)
      == PriceFlow(s.swaps[id], Bps(s.swaps[id].price, PROTOCOL_FEE_BPS).value, Referral(s.swaps[id]).value, a)
         + Share(a == s.swaps[id].buyer, Collateral(s, id))
  {
    var swap := s.swaps[id];
    var fee := Bps(swap.price, PROTOCOL_FEE_BPS).value;
    var referral := Referral(swap).value;
    var last := GiveCollateral(s.vault, id, swap, swap.buyer, Done);
    var pay := Give(swap.seller, swap.price - fee - referral, last);
    LastFlow(s, id, swap.buyer, a);
    FlowGive(swap.seller, swap.price - fee - referral, last, a);
    ReferrerFlow(swap, referral, pay, a);
    FlowGive(TREASURY, fee, GiveReferrer(swap, referral, pay), a);
  }

  lemma BatchFlow(s: State, id: SwapId, a: Address)
    requires BatchRevealPlan(s, id).Ok? && s.swaps[id].price > 0 && a.Account?
    ensures Flow(BatchRevealPlan(s, id).value.moves, a)
      == PriceFlow(s.swaps[id], Bps(s.swaps[id].price, PROTOCOL_FEE_BPS).value, Referral(s.swaps[id]).value, a)
         + Share(a == s.swaps[id].seller, Collateral(s, id))
  {
    var swap := s.swaps[id];
    var fee := Bps(swap.price, PROTOCOL_FEE_BPS).value;
    var referral := Referral(swap).value;
    var last := GiveCollateral(s.vault, id, swap, swap.seller, Done);
    var others := GiveReferrer(swap, referral, last);
    LastFlow(s, id, swap.seller, a);
    ReferrerFlow(swap, referral, last, a);
    FlowGive(TREASURY, fee, others, a);
    FlowGive(swap.seller, swap.price - fee - referral, GiveSome(TREASURY, fee, others), a);
  }

  /** The two forms pay everybody the same, but for the collateral: one gives it back to the buyer,
      the other gives it to the seller. */
  lemma BalancesApart(s: State, id: SwapId, seller: Address, digest: Digest, t: Token, a: Address)
    requires Do(s, id, RevealPlan(s, id, seller, digest)).Ok? && Do(s, id, BatchRevealPlan(s, id)).Ok?
    requires s.swaps[id].price > 0 && a.Account?
    ensures Bal(Do(s, id, RevealPlan(s, id, seller, digest)).value.bank, t, a)
      - Bal(Do(s, id, BatchRevealPlan(s, id)).value.bank, t, a)
      == Share(t == s.swaps[id].token && a == s.swaps[id].buyer, Collateral(s, id))
         - Share(t == s.swaps[id].token && a == s.swaps[id].seller, Collateral(s, id))
  {
    SettleFlow(s.bank, s.swaps[id].token, RevealPlan(s, id, seller, digest).value.moves, t, a);
    SettleFlow(s.bank, s.swaps[id].token, BatchRevealPlan(s, id).value.moves, t, a);
    SingleFlow(s, id, seller, digest, a);
    BatchFlow(s, id, a);
  }

  /** Everybody but the contract itself holds the same. */
  ghost predicate SameBalances(b: Bank, b': Bank) {
    forall t: Token, a: Address | a.Account? :: Bal(b, t, a) == Bal(b', t, a)
  }

  /** When both forms go through on one swap, they leave the same balances exactly when there is no
      collateral to hand out, or the seller is also the buyer. */
  lemma CollateralParts(s: State, id: SwapId, seller: Address, digest: Digest)
    requires Do(s, id, RevealPlan(s, id, seller, digest)).Ok? && Do(s, id, BatchRevealPlan(s, id)).Ok?
    requires s.swaps[id].price > 0 && s.swaps[id].buyer.Account?
    ensures SameBalances(Do(s, id, RevealPlan(s, id, seller, digest)).value.bank,
                         Do(s, id, BatchRevealPlan(s, id)).value.bank)
      <==> Collateral(s, id) == 0 || s.swaps[id].buyer == s.swaps[id].seller
  {
    var single := Do(s, id, RevealPlan(s, id, seller, digest)).value.bank;
    var batch := Do(s, id, BatchRevealPlan(s, id)).value.bank;
    BalancesApart(s, id, seller, digest, s.swaps[id].token, s.swaps[id].buyer);
    if Collateral(s, id) == 0 || s.swaps[id].buyer == s.swaps[id].seller {
      forall t: Token, a: Address | a.Account? ensures Bal(single, t, a) == Bal(batch, t, a) {
        BalancesApart(s, id, seller, digest, t, a);
      }
    }
  }

  /** Treasury, referrer and seller receive these amounts, the buyer the collateral, and nobody else anything. */
  ghost predicate Distributes(m: Moves, swap: SwapRecord, fee: nat, referral: nat, proceeds: nat, collateral: int) {
    forall a: Address | a.Account? ::
      Flow(m, a)
        == Share(a == swap.seller, proceeds) + Share(a == TREASURY, fee) + Share(swap.referrer == Some(a), referral)
                    + Share(a == swap.buyer, collateral)
  }

  /** A reveal splits the price without remainder into three shares, none of which is negative: treasury, referrer
      and seller receive exactly these, the buyer his collateral, and nobody else anything. The protocol's share is
      the whole part of 2.5 percent, the referrer's that of one percent. */
  lemma SharesOfPrice(s: State, id: SwapId, seller: Address, digest: Digest)
    returns (fee: nat, referral: nat, proceeds: nat)
    requires RevealPlan(s, id, seller, digest).Ok? && s.swaps[id].price > 0
    ensures fee + referral + proceeds == s.swaps[id].price
    ensures 40 * fee <= s.swaps[id].price < 40 * (fee + 1)
    ensures if s.swaps[id].referrer.Some? then 100 * referral <= s.swaps[id].price < 100 * (referral + 1)
      else referral == 0
    ensures Distributes(RevealPlan(s, id, seller, digest).value.moves,
                        s.swaps[id], fee, referral, proceeds, Collateral(s, id))
  {
    fee := Bps(s.swaps[id].price, PROTOCOL_FEE_BPS).value;
    referral := Referral(s.swaps[id]).value;
    proceeds := s.swaps[id].price - fee - referral;
    forall a: Address | a.Account?
      ensures Flow(RevealPlan(s, id, seller, digest).value.moves, a)
        == PriceFlow(s.swaps[id], fee, referral, a) + Share(a == s.swaps[id].buyer, Collateral(s, id))
    {
      SingleFlow(s, id, seller, digest, a);
    }
  }
}

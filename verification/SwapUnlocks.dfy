/** Which IPs a call frees, and when it frees one that another swap holds. */
module SwapUnlocks {
  import opened Common
  import opened SwapState
  import opened SwapSpec
  import opened SwapSafety
  import opened SwapRuns
  import opened SwapBatches
  import opened SwapRollbacks
  import opened SwapBook
  import opened BatchOpening

  // ── One swap ─────────────────────────────────────────────────────────────

  /** The calls that close their swap. */
  predicate Closes(act: Act) {
    || act.Reveal? || act.VerifyAndComplete? || act.ResolveDispute? || act.AutoResolveDispute? || act.AutoRefundTimeout?
    || act.Arbitrate? || Refunds(act)
  }

  lemma PreparingUnlocks(s: State, id: SwapId, act: Act)
    requires Prepares(act) && Plan(s, id, act).Ok?
    ensures !Plan(s, id, act).value.unlock
  {
  }

  lemma RefundingUnlocks(s: State, id: SwapId, act: Act)
    requires Refunds(act) && Plan(s, id, act).Ok?
    ensures Plan(s, id, act).value.unlock
  {
  }

  lemma SettlingUnlocks(s: State, id: SwapId, act: Act)
    requires !Prepares(act) && !Refunds(act) && Plan(s, id, act).Ok?
    ensures Plan(s, id, act).value.unlock <==> Closes(act)
  {
  }

  lemma PlanUnlocks(s: State, id: SwapId, act: Act)
    requires Plan(s, id, act).Ok?
    ensures Plan(s, id, act).value.unlock <==> Closes(act)
  {
    if Prepares(act) {
      PreparingUnlocks(s, id, act);
    } else if Refunds(act) {
      RefundingUnlocks(s, id, act);
    } else {
      SettlingUnlocks(s, id, act);
    }
  }

  /** Exactly the IPs of the listed swaps are free afterwards, of those that were locked. */
  ghost predicate FreedExactly(s: State, s': State, ids: seq<SwapId>) {
    && s'.swaps.Keys == s.swaps.Keys && (forall j :: j in s.swaps ==> s'.swaps[j].ip == s.swaps[j].ip)
    && (forall ip :: ip in s'.active <==> ip in s.active && !Frees(s, ids, ip))
  }

  lemma NothingFreed(s: State)
    ensures FreedExactly(s, s, [])
  {
  }

  lemma FreedByOne(s: State, id: SwapId, plan: Result<Change>)
    requires id in s.swaps && Do(s, id, plan).Ok? && plan.value.unlock && plan.value.swap.ip == s.swaps[id].ip
    ensures FreedExactly(s, Do(s, id, plan).value, [id])
  {
    var s' := Do(s, id, plan).value;
    forall ip ensures Frees(s, [id], ip) <==> ip == s.swaps[id].ip {
      assert id in [id];
    }
  }

  lemma FreedThen(s: State, next: State, end: State, ids: seq<SwapId>)
    requires ids != [] && FreedExactly(s, next, [ids[0]]) && FreedExactly(next, end, ids[1..])
    ensures FreedExactly(s, end, ids)
  {
    forall ip ensures Frees(s, ids, ip) <==> Frees(s, [ids[0]], ip) || Frees(next, ids[1..], ip) {
      if id :| id in ids && id in s.swaps && s.swaps[id].ip == ip {
        assert id in [ids[0]] || id in ids[1..];
      }
    }
  }

  // ── Batches ──────────────────────────────────────────────────────────────

  lemma {:induction false} RevealAllFrees(s: State, ids: seq<SwapId>)
    requires RevealAll(s, ids).Ok?
    ensures FreedExactly(s, RevealAll(s, ids).value, ids)
    decreases |ids|
  {
    if ids == [] {
      NothingFreed(s);
    } else {
      var next := Do(s, ids[0], BatchRevealPlan(s, ids[0])).value;
      FreedByOne(s, ids[0], BatchRevealPlan(s, ids[0]));
      RevealAllFrees(next, ids[1..]);
      FreedThen(s, next, RevealAll(s, ids).value, ids);
    }
  }

  lemma {:induction false} ArbitrateAllFrees(s: State, ids: seq<SwapId>, refund: bool)
    requires ArbitrateAll(s, ids, refund).Ok?
    ensures FreedExactly(s, ArbitrateAll(s, ids, refund).value, ids)
    decreases |ids|
  {
    if ids == [] {
      NothingFreed(s);
    } else {
      var next := Do(s, ids[0], BatchArbitratePlan(s, ids[0], refund)).value;
      FreedByOne(s, ids[0], BatchArbitratePlan(s, ids[0], refund));
      ArbitrateAllFrees(next, ids[1..], refund);
      FreedThen(s, next, ArbitrateAll(s, ids, refund).value, ids);
    }
  }

  lemma {:induction false} CancelAllFrees(s: State, ids: seq<SwapId>, canceller: Address)
    requires CancelAll(s, ids, canceller).Ok?
    ensures FreedExactly(s, CancelAll(s, ids, canceller).value, ids)
    decreases |ids|
  {
    if ids == [] {
      NothingFreed(s);
    } else {
      var next := Do(s, ids[0], CancelPlan(s, ids[0], canceller)).value;
      FreedByOne(s, ids[0], CancelPlan(s, ids[0], canceller));
      CancelAllFrees(next, ids[1..], canceller);
      FreedThen(s, next, CancelAll(s, ids, canceller).value, ids);
    }
  }

  lemma {:induction false} RollBackAllFrees(s: State, ids: seq<SwapId>)
    requires RollBackAll(s, ids).Ok?
    ensures FreedExactly(s, RollBackAll(s, ids).value, ids)
    decreases |ids|
  {
    if ids == [] {
      NothingFreed(s);
    } else {
      var next := Do(s, ids[0], BatchRollbackPlan(s, ids[0])).value;
      FreedByOne(s, ids[0], BatchRollbackPlan(s, ids[0]));
      RollBackAllFrees(next, ids[1..]);
      FreedThen(s, next, RollBackAll(s, ids).value, ids);
    }
  }

  /** No lock is given up. */
  ghost predicate FreesNothing(s: State, s': State) {
    forall ip :: ip in s.active ==> ip in s'.active
  }

  lemma {:induction false} DepositAllFrees(s: State, ids: seq<SwapId>, buyer: Address)
    requires DepositAll(s, ids, buyer).Ok?
    ensures FreesNothing(s, DepositAll(s, ids, buyer).value)
    decreases |ids|
  {
    if ids == [] {
    } else {
      DepositAllFrees(Do(s, ids[0], BatchDepositPlan(s, ids[0], buyer)).value, ids[1..], buyer);
    }
  }

  lemma {:induction false} AcceptAllFrees(s: State, ids: seq<SwapId>)
    requires AcceptAll(s, ids).Ok?
    ensures FreesNothing(s, AcceptAll(s, ids).value)
    decreases |ids|
  {
    if ids == [] {
    } else {
      AcceptAllFrees(Do(s, ids[0], BatchAcceptPlan(s, ids[0])).value, ids[1..]);
    }
  }

  lemma {:induction false} OpenCheckingFrees(s: State, b: BatchTerms, ips: seq<IpId>, prices: seq<I128>, insured: bool)
    requires OpenChecking(s, b, ips, prices, insured).Ok?
    ensures FreesNothing(s, OpenChecking(s, b, ips, prices, insured).value)
    decreases |ips|
  {
    if ips == [] {
    } else {
      var rec := RecordOf(s, ItemTerms(b, ips[0], prices[0], insured), Premium(prices[0], insured).value);
      OpenCheckingFrees(Open(s, rec), b, ips[1..], prices[1..], insured);
    }
  }

  lemma {:induction false} OpenEscrowsFrees(
      s: State, token: Token, seller: Address, buyer: Address, ips: seq<IpId>, prices: seq<I128>, timeouts: seq<nat>)
    requires |ips| == |prices| == |timeouts|
    requires OpenEscrows(s, token, seller, buyer, ips, prices, timeouts).Ok?
    ensures FreesNothing(s, OpenEscrows(s, token, seller, buyer, ips, prices, timeouts).value)
    decreases |ips|
  {
    if ips == [] {
    } else {
      var first := OpenEscrow(s, token, ips[0], seller, prices[0], buyer, timeouts[0], true);
      OpenEscrowsFrees(first, token, seller, buyer, ips[1..], prices[1..], timeouts[1..]);
    }
  }

  // ── All calls ────────────────────────────────────────────────────────────

  /** The swaps that a call closes, as far as they exist. */
  function Closed(op: Op): seq<SwapId> {
    match op
    case On(id, act) => if Closes(act) then [id] else []
    case BatchReveal(ids, _, _) => ids
    case BatchArbitrate(ids, _, _) => ids
    case BatchCancel(ids, _, _) => ids
    case BatchRollback(ids, _) => ids
    case _ => []
  }

  lemma ActFrees(s: State, id: SwapId, act: Act)
    requires Do(s, id, Plan(s, id, act)).Ok?
    ensures FreedExactly(s, Do(s, id, Plan(s, id, act)).value, Closed(On(id, act)))
  {
    PlanUnlocks(s, id, act);
    ActParties(s, id, act);
    if Closes(act) {
      FreedByOne(s, id, Plan(s, id, act));
    }
  }

  lemma ClosingBatchFrees(s: State, op: Op)
    requires (op.BatchReveal? || op.BatchArbitrate? || op.BatchCancel? || op.BatchRollback?) && Step(s, op).Ok?
    ensures FreedExactly(s, Step(s, op).value, Closed(op))
  {
    if op.BatchReveal? {
      BatchRevealCarries(s, op.ids, op.digests, op.seller);
      RevealAllFrees(s, op.ids);
    } else if op.BatchArbitrate? {
      BatchArbitrateCarries(s, op.ids, op.arbitrator, op.refund);
      ArbitrateAllFrees(s, op.ids, op.refund);
    } else if op.BatchCancel? {
      BatchCancelCarries(s, op.ids, op.caller, op.reasons);
      CancelAllFrees(s, op.ids, op.caller);
    } else {
      BatchRollbackCarries(s, op.ids, op.caller);
      RollBackAllFrees(s, op.ids);
    }
  }

  lemma OpeningFrees(s: State, op: Op)
    requires (OpensOne(op) || OpensMany(op)) && Step(s, op).Ok?
    ensures FreesNothing(s, Step(s, op).value)
  {
    if op.BatchInitiate? {
      TwoPassesAreOne(s, op.batch, op.ips, op.prices);
      OpenCheckingFrees(s, op.batch, op.ips, op.prices, false);
    } else if op.BatchInitiateWithInsurance? {
      OpenCheckingFrees(s, op.batch, op.ips, op.prices, op.insured);
    } else if op.BatchInitiateEscrow? {
      OpenEscrowsFrees(s, op.token, op.seller, op.buyer, op.ips, op.prices, op.timeouts);
    }
  }

  lemma OtherCallFrees(s: State, op: Op)
    requires !op.On? && Closed(op) == [] && !(OpensOne(op) || OpensMany(op)) && Step(s, op).Ok?
    requires !(op.BatchReveal? || op.BatchArbitrate? || op.BatchCancel? || op.BatchRollback?)
    ensures FreesNothing(s, Step(s, op).value)
  {
    if op.BatchEscrowDeposit? {
      BatchDepositCarries(s, op.ids, op.buyer);
      DepositAllFrees(s, op.ids, op.buyer);
    } else if op.BatchAccept? {
      BatchAcceptCarries(s, op.ids, op.buyer);
      AcceptAllFrees(s, op.ids);
    }
  }

  /** A lock is given up exactly by the calls that close a swap of its IP, whoever holds it. */
  lemma StepFrees(s: State, op: Op, ip: IpId)
    requires Step(s, op).Ok? && ip in s.active
    ensures ip !in Step(s, op).value.active <==> Frees(s, Closed(op), ip)
  {
    if op.On? {
      ActFrees(s, op.id, op.act);
    } else if op.BatchReveal? || op.BatchArbitrate? || op.BatchCancel? || op.BatchRollback? {
      ClosingBatchFrees(s, op);
    } else if OpensOne(op) || OpensMany(op) {
      OpeningFrees(s, op);
    } else {
      OtherCallFrees(s, op);
    }
  }

  /** Every lock that is given up was held by one of these swaps. */
  ghost predicate FreesOwn(s: State, s': State, ids: seq<SwapId>) {
    forall ip :: ip in s.active && ip !in s'.active ==> s.active[ip] in ids
  }

  /** So in any state at all, a call that goes through frees no lock of a swap that it does not close if and only if
      nobody else holds the IP of one that it does close. */
  lemma FreesOwnExactly(s: State, op: Op)
    requires Step(s, op).Ok?
    ensures FreesOwn(s, Step(s, op).value, Closed(op))
      <==> (forall id :: id in Closed(op) && id in s.swaps && s.swaps[id].ip in s.active ==>
              s.active[s.swaps[id].ip] in Closed(op))
  {
    forall ip | ip in s.active ensures ip !in Step(s, op).value.active <==> Frees(s, Closed(op), ip) {
      StepFrees(s, op, ip);
    }
    forall id | id in Closed(op) && id in s.swaps ensures Frees(s, Closed(op), s.swaps[id].ip) {
    }
  }
}

/** Where the guarantees end: for the calls that can break them, the exact condition under which they do not. */
module SwapLimits {
  import opened Common
  import opened SwapState
  import opened SwapSpec
  import opened SwapClaims
  import opened SwapSafety
  import opened SwapRuns
  import opened SwapActs
  import opened SwapBatches
  import opened SwapOpenings
  import opened SwapRollbacks
  import opened SwapBook
  import opened SwapTheorems

  // ── Locks and statuses ───────────────────────────────────────────────────

  /** Of all calls that go through, exactly the orderly ones that are safe for the locks keep both the order of
      statuses and the match of locks and live swaps. */
  lemma StepKeptExactly(s: State, op: Op)
    requires Inv(s) && Locked(s) && Step(s, op).Ok?
    ensures Kept(s, Step(s, op).value) <==> Orderly(s, op) && LockSafe(s, op)
  {
    StepOrderExactly(s, op);
    StepLocksExactly(s, op);
  }

  // ── Money, call by call ──────────────────────────────────────────────────

  /** What a call about one swap adds to the slack. A gain is money that no claim accounts for any more, such as
      the instalments of a swap that is then paid in full or cancelled; a loss is paid from other people's claims. */
  function Gain(s: State, id: SwapId, act: Act): int
    requires id in s.swaps
  {
    var swap := s.swaps[id];
    match act
    case Accept => Due(swap, s.side, id)
    case AcceptConditional(_) => Due(swap, s.side, id)
    case AcceptPartial(_) => Due(swap, s.side, id)
    case EscrowDeposit => Due(swap, s.side, id)
    case Cancel(_) => Due(swap, s.side, id)
    case CancelPending(_) => Due(swap, s.side, id)
    case SubmitInstallment(amount) =>
      swap.paid + amount - SatAdd(swap.paid, amount)
      + (if SatAdd(swap.paid, amount) >= swap.price then Scheduled(s.side, id) else 0)
    case MakeScheduledPayment(index) =>
      if id !in s.side.schedules || index >= |s.side.schedules[id]| then 0
      else if LastPayment(s, id, index) then s.side.schedules[id][index].amount + Due(swap, s.side, id) - swap.price
      else if swap.status == Pending then 0
      else s.side.schedules[id][index].amount
    case EscrowWithdraw => if id in s.vault.deposits then 0 else swap.price
    case Arbitrate(_, _) => Due(swap, s.side, id) - swap.price
    case AdminRollback(_) => Margin(s, id, swap.token)
    case ValidateAndRollback(keyValid) => if keyValid then 0 else -swap.price
    case _ => 0
  }

  /** What a planned call moves stays with its swap and token, and adds `gain` to the slack. */
  ghost predicate Gains(s: State, id: SwapId, plan: Result<Change>, gain: int) {
    plan.Ok? && Framed(s, id, plan.value) && Profit(s, id, plan.value) == gain
  }

  lemma AcceptingGain(s: State, id: SwapId, act: Act)
    requires Local(s, id) && Plan(s, id, act).Ok? && id in s.swaps
    requires act.Accept? || act.AcceptConditional? || act.AcceptPartial? || act.EscrowDeposit?
    ensures Gains(s, id, Plan(s, id, act), Gain(s, id, act))
  {
  }

  lemma SubmitGain(s: State, id: SwapId, amount: I128)
    requires Local(s, id) && id in s.swaps && SubmitInstallmentPlan(s, id, amount).Ok?
    ensures Gains(s, id, SubmitInstallmentPlan(s, id, amount), Gain(s, id, SubmitInstallment(amount)))
  {
  }

  lemma PreparingGain(s: State, id: SwapId, act: Act)
    requires Local(s, id) && id in s.swaps && Prepares(act) && !act.MakeScheduledPayment? && Plan(s, id, act).Ok?
    ensures Gains(s, id, Plan(s, id, act), Gain(s, id, act))
  {
    if act.Accept? || act.AcceptConditional? || act.AcceptPartial? || act.EscrowDeposit? {
      AcceptingGain(s, id, act);
    } else if act.SubmitInstallment? {
      SubmitGain(s, id, act.amount);
    }
  }

  lemma RevealGain(s: State, id: SwapId, caller: Address, digest: Digest)
    requires Local(s, id) && RevealPlan(s, id, caller, digest).Ok? && PaysOthers(s.swaps[id])
    ensures Gains(s, id, RevealPlan(s, id, caller, digest), 0)
  {
  }

  lemma RefundGain(s: State, id: SwapId)
    requires Local(s, id) && id in s.swaps && Paid(s.swaps[id]) && PaysOthers(s.swaps[id])
    ensures Gains(s, id, Ok(Refund(s, id, s.swaps[id])), 0)
  {
  }

  lemma CompleteGain(s: State, id: SwapId, fee: int)
    requires Local(s, id) && id in s.swaps && Paid(s.swaps[id]) && PaysOthers(s.swaps[id]) && fee >= 0
    ensures Gains(s, id, Ok(Complete(s, id, s.swaps[id], fee)), 0)
  {
  }

  lemma VerifyAndCompleteGain(s: State, id: SwapId, caller: Address, digest: Digest)
    requires Local(s, id) && VerifyAndCompletePlan(s, id, caller, digest).Ok? && PaysOthers(s.swaps[id])
    ensures Gains(s, id, VerifyAndCompletePlan(s, id, caller, digest), 0)
  {
    RefundGain(s, id);
    if KeyOpens(s, s.swaps[id].ip, digest) {
      CompleteGain(s, id, Bps(s.swaps[id].price, PROTOCOL_FEE_BPS).value);
    }
  }

  lemma ArbitrateGain(s: State, id: SwapId, arbitrator: Address, refund: bool)
    requires Local(s, id) && ArbitratePlan(s, id, arbitrator, refund).Ok? && PaysOthers(s.swaps[id])
    ensures Gains(s, id, ArbitratePlan(s, id, arbitrator, refund), Due(s.swaps[id], s.side, id) - s.swaps[id].price)
  {
  }

  lemma ResolveDisputeGain(s: State, id: SwapId, caller: Address, refunded: bool)
    requires Local(s, id) && ResolveDisputePlan(s, id, caller, refunded).Ok? && PaysOthers(s.swaps[id])
    ensures Gains(s, id, ResolveDisputePlan(s, id, caller, refunded), 0)
  {
  }

  /** Reporting a bad key pays out a second time a price that has already left the contract. */
  lemma ValidateAndRollbackGain(s: State, id: SwapId, keyValid: bool)
    requires Local(s, id) && ValidateAndRollbackPlan(s, id, keyValid).Ok?
    ensures Gains(s, id, ValidateAndRollbackPlan(s, id, keyValid), if keyValid then 0 else -s.swaps[id].price)
  {
  }

  lemma AdminRollbackGain(s: State, id: SwapId, caller: Address)
    requires Local(s, id) && AdminRollbackPlan(s, id, caller).Ok? && PaysOthers(s.swaps[id])
    ensures Gains(s, id, AdminRollbackPlan(s, id, caller), Margin(s, id, s.swaps[id].token))
  {
  }

  predicate PaysOut(act: Act) {
    act.Reveal? || act.VerifyAndComplete? || act.Arbitrate?
      || act.ResolveDispute? || act.ValidateAndRollback? || act.AdminRollback?
  }

  lemma PayingOutGain(s: State, id: SwapId, act: Act)
    requires Local(s, id) && id in s.swaps && Plan(s, id, act).Ok?
      && (act.ValidateAndRollback? || PaysOthers(s.swaps[id]))
    requires PaysOut(act)
    ensures Gains(s, id, Plan(s, id, act), Gain(s, id, act))
  {
    if act.Reveal? {
      RevealGain(s, id, act.caller, act.digest);
    } else if act.VerifyAndComplete? {
      VerifyAndCompleteGain(s, id, act.caller, act.digest);
    } else if act.Arbitrate? {
      ArbitrateGain(s, id, act.arbitrator, act.refund);
    } else if act.ResolveDispute? {
      ResolveDisputeGain(s, id, act.caller, act.refunded);
    } else if act.ValidateAndRollback? {
      ValidateAndRollbackGain(s, id, act.keyValid);
    } else {
      AdminRollbackGain(s, id, act.caller);
    }
  }

  lemma CancelExpiredGain(s: State, id: SwapId, caller: Address)
    requires Local(s, id) && CancelExpiredPlan(s, id, caller).Ok? && PaysOthers(s.swaps[id])
    ensures Gains(s, id, CancelExpiredPlan(s, id, caller), 0)
  {
  }

  lemma CancellingGain(s: State, id: SwapId, act: Act)
    requires Local(s, id) && id in s.swaps && Plan(s, id, act).Ok? && PaysOthers(s.swaps[id])
    requires act.Cancel? || act.CancelPending? || act.CancelExpired? || act.EscrowWithdraw?
    ensures Gains(s, id, Plan(s, id, act), Gain(s, id, act))
  {
    if act.CancelExpired? {
      CancelExpiredGain(s, id, act.caller);
    }
  }

  lemma SettlingGain(s: State, id: SwapId, act: Act)
    requires Local(s, id) && id in s.swaps && !Prepares(act) && Plan(s, id, act).Ok? && PaysOthers(s.swaps[id])
    ensures Gains(s, id, Plan(s, id, act), Gain(s, id, act))
  {
    if PaysOut(act) {
      PayingOutGain(s, id, act);
    } else if act.Cancel? || act.CancelPending? || act.CancelExpired? || act.EscrowWithdraw? {
      CancellingGain(s, id, act);
    }
  }

  lemma ScheduledGain(s: State, id: SwapId, index: nat)
    requires ScheduledPaymentPlan(s, id, index).Ok? && index < |Lookup(s.side.paymentsMade, id, [])|
    ensures Gains(s, id, ScheduledPaymentPlan(s, id, index), Gain(s, id, MakeScheduledPayment(index)))
  {
    ScheduledPaymentProfit(s, id, index);
  }

  lemma ActGains(s: State, id: SwapId, act: Act)
    requires Inv(s) && id in s.swaps && Do(s, id, Plan(s, id, act)).Ok?
    requires Prepares(act) || act.ValidateAndRollback? || PaysOthers(s.swaps[id])
    ensures Gains(s, id, Plan(s, id, act), Gain(s, id, act))
  {
    LocalFromInv(s, id);
    if act.MakeScheduledPayment? {
      ScheduledPaymentDone(s, id, act.index);
      ScheduledGain(s, id, act.index);
    } else if Prepares(act) {
      PreparingGain(s, id, act);
    } else if act.ValidateAndRollback? {
      PayingOutGain(s, id, act);
    } else {
      SettlingGain(s, id, act);
    }
  }

  /** A call about one swap that goes through moves the slack of its token by exactly its gain, and no other
      slack. So the slack stays as it is exactly when the gain is nothing. */
  lemma ActMovesSlack(s: State, id: SwapId, act: Act, t: Token)
    requires Inv(s) && id in s.swaps && Do(s, id, Plan(s, id, act)).Ok?
    requires Prepares(act) || act.ValidateAndRollback? || PaysOthers(s.swaps[id])
    ensures Slack(Do(s, id, Plan(s, id, act)).value, t) == Slack(s, t) + Share(t == s.swaps[id].token, Gain(s, id, act))
  {
    ActGains(s, id, act);
    ChangeMovesSlack(s, id, Plan(s, id, act).value, t);
  }

  lemma ScheduledGainSign(s: State, id: SwapId, index: nat)
    requires id in s.swaps && id in s.side.schedules && index < |s.side.schedules[id]|
    requires s.side.schedules[id][index].amount >= 0
    ensures Gain(s, id, MakeScheduledPayment(index)) >= 0 <==> BackedAct(s, id, MakeScheduledPayment(index))
  {
  }

  lemma OtherGainSign(s: State, id: SwapId, act: Act)
    requires id in s.swaps && EntryOk(s, id) && !act.MakeScheduledPayment? && Plan(s, id, act).Ok?
    ensures Gain(s, id, act) >= 0 <==> BackedAct(s, id, act)
  {
  }

  lemma GainSign(s: State, id: SwapId, act: Act)
    requires Inv(s) && id in s.swaps && Do(s, id, Plan(s, id, act)).Ok?
    ensures Gain(s, id, act) >= 0 <==> BackedAct(s, id, act)
  {
    if act.MakeScheduledPayment? {
      ScheduledPaymentDone(s, id, act.index);
      ScheduledGainSign(s, id, act.index);
    } else {
      assert EntryOk(s, id);
      OtherGainSign(s, id, act);
    }
  }

  /** It keeps every slack exactly under the condition that `BackedAct` states: an arbitration when the price is
      held, a rollback when no premium is returned, a report when the key is valid, and a last payment when it
      completes the price. */
  lemma ActBackedExactly(s: State, id: SwapId, act: Act)
    requires Inv(s) && id in s.swaps && Do(s, id, Plan(s, id, act)).Ok?
    requires Prepares(act) || act.ValidateAndRollback? || PaysOthers(s.swaps[id])
    ensures SlackKept(s, Do(s, id, Plan(s, id, act)).value) <==> BackedAct(s, id, act)
  {
    var s' := Do(s, id, Plan(s, id, act)).value;
    GainSign(s, id, act);
    forall t: Token ensures Slack(s', t) == Slack(s, t) + Share(t == s.swaps[id].token, Gain(s, id, act)) {
      ActMovesSlack(s, id, act, t);
    }
    if SlackKept(s, s') {
      assert Slack(s', s.swaps[id].token) >= Slack(s, s.swaps[id].token);
    }
  }

  // ── Repeated ids in a batch of reveals ───────────────────────────────────

  /** The first reveal of a swap costs nothing; another one pays its price out again. */
  lemma BatchRevealCosts(s: State, id: SwapId)
    requires Local(s, id) && RevealReady(s, id) && BatchRevealPlan(s, id).Ok? && PaysOthers(s.swaps[id])
    ensures Framed(s, id, BatchRevealPlan(s, id).value)
    ensures Profit(s, id, BatchRevealPlan(s, id).value)
      == if s.swaps[id].status == Accepted then 0 else -s.swaps[id].price
  {
  }

  ghost predicate SlackLowered(s: State, s': State) {
    forall t: Token :: Slack(s', t) <= Slack(s, t)
  }

  ghost predicate AllAccepted(s: State, ids: seq<SwapId>) {
    forall id :: id in ids && id in s.swaps ==> s.swaps[id].status == Accepted
  }

  lemma RevealStepMoney(s: State, id: SwapId)
    requires Inv(s) && RevealReady(s, id) && Do(s, id, BatchRevealPlan(s, id)).Ok? && PaysOthers(s.swaps[id])
    ensures Inv(Do(s, id, BatchRevealPlan(s, id)).value)
    ensures SlackLowered(s, Do(s, id, BatchRevealPlan(s, id)).value)
    ensures SlackKept(s, Do(s, id, BatchRevealPlan(s, id)).value) <==> s.swaps[id].status == Accepted
  {
    var c := BatchRevealPlan(s, id).value;
    LocalFromInv(s, id);
    BatchRevealLegal(s, id);
    BatchRevealCosts(s, id);
    LegalKeeps(s, id, c);
    SlackKeptIffProfit(s, id, c);
    forall t: Token ensures Slack(Apply(s, id, c).value, t) <= Slack(s, t) {
      ChangeMovesSlack(s, id, c, t);
    }
  }

  lemma RevealStepParties(s: State, id: SwapId, ids: seq<SwapId>)
    requires Do(s, id, BatchRevealPlan(s, id)).Ok? && AllPayOthers(s, ids) && PaysOthers(s.swaps[id])
    ensures AllPayOthers(Do(s, id, BatchRevealPlan(s, id)).value, ids)
  {
  }

  lemma RevealStepStatuses(s: State, id: SwapId, ids: seq<SwapId>)
    requires Do(s, id, BatchRevealPlan(s, id)).Ok?
    ensures AllAccepted(Do(s, id, BatchRevealPlan(s, id)).value, ids) <==> AllAccepted(s, ids) && id !in ids
  {
    var next := Do(s, id, BatchRevealPlan(s, id)).value;
    assert id in next.swaps && next.swaps[id].status == Completed;
    forall j | j in ids && j != id && j in s.swaps ensures j in next.swaps && next.swaps[j] == s.swaps[j] {
    }
  }

  lemma SlackSplits(a: State, b: State, c: State)
    requires SlackLowered(a, b) && SlackLowered(b, c)
    ensures SlackLowered(a, c)
    ensures SlackKept(a, c) <==> SlackKept(a, b) && SlackKept(b, c)
  {
    forall t: Token ensures Slack(c, t) <= Slack(b, t) <= Slack(a, t) {
    }
    if SlackKept(a, c) {
      forall t: Token ensures Slack(b, t) >= Slack(a, t) && Slack(c, t) >= Slack(b, t) {
        assert Slack(c, t) >= Slack(a, t);
      }
    }
    if SlackKept(a, b) && SlackKept(b, c) {
      SlackTrans(a, b, c);
    }
  }

  /** The paying pass keeps every slack exactly when it names no swap twice. */
  lemma {:induction false} RevealAllKeepsSlackIffDistinct(s: State, ids: seq<SwapId>)
    requires Inv(s) && AllRevealReady(s, ids) && AllPayOthers(s, ids) && RevealAll(s, ids).Ok?
    ensures SlackLowered(s, RevealAll(s, ids).value)
    ensures SlackKept(s, RevealAll(s, ids).value) <==> Distinct(ids) && AllAccepted(s, ids)
    decreases |ids|
  {
    if ids == [] {
    } else {
      var next := Do(s, ids[0], BatchRevealPlan(s, ids[0])).value;
      RevealStepMoney(s, ids[0]);
      RevealStepParties(s, ids[0], ids[1..]);
      RevealStepStatuses(s, ids[0], ids[1..]);
      RevealLeavesReady(s, ids[0], ids[1..]);
      RevealAllKeepsSlackIffDistinct(next, ids[1..]);
      SlackSplits(s, next, RevealAll(s, ids).value);
      DistinctSplits(ids);
    }
  }

  /** A batch of reveals that goes through keeps every slack exactly when no id is repeated. */
  lemma BatchRevealBackedExactly(s: State, ids: seq<SwapId>, digests: seq<Digest>, seller: Address)
    requires Inv(s) && AllPayOthers(s, ids) && SwapSpec.BatchReveal(s, ids, digests, seller).Ok?
    ensures SlackKept(s, SwapSpec.BatchReveal(s, ids, digests, seller).value)
      <==> Backed(s, Op.BatchReveal(ids, digests, seller))
  {
    BatchRevealCarries(s, ids, digests, seller);
    ValidatedReveals(s, ids, seller, digests);
    RevealAllKeepsSlackIffDistinct(s, ids);
  }

  // ── All calls ────────────────────────────────────────────────────────────

  ghost predicate OthersOnly(s: State) {
    forall id :: id in s.swaps ==> PaysOthers(s.swaps[id])
  }

  lemma SurroundBackedExactly(s: State, op: Op)
    requires Inv(s) && op.Surround?
    ensures SlackKept(s, Step(s, op).value) <==> Backed(s, op)
  {
    var s' := Step(s, op).value;
    forall t: Token ensures Slack(s', t) - Slack(s, t) == Bal(op.bank, t, Contract) - Held(s, t) {
      SameBookSlack(s, s', t);
    }
    if SlackKept(s, s') {
      forall t: Token ensures Bal(op.bank, t, Contract) >= Held(s, t) {
        assert Slack(s', t) >= Slack(s, t);
      }
    }
  }

  /** Of all calls that go through, exactly the backed ones keep the slack of every token. */
  lemma StepBackedExactly(s: State, op: Op)
    requires Inv(s) && OthersOnly(s) && Step(s, op).Ok?
    ensures SlackKept(s, Step(s, op).value) <==> Backed(s, op)
  {
    if op.On? {
      ActParties(s, op.id, op.act);
      ActBackedExactly(s, op.id, op.act);
    } else if op.BatchReveal? {
      BatchRevealBackedExactly(s, op.ids, op.digests, op.seller);
    } else if op.BatchRollback? {
      BatchRollbackBackedExactly(s, op.ids, op.caller);
    } else if op.Surround? {
      SurroundBackedExactly(s, op);
    } else {
      StepBacked(s, op);
    }
  }
}

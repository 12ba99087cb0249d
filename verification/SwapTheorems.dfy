/** The main results about runs of the atomic swap contract. */
module SwapTheorems {
  import opened Common
  import opened SwapState
  import opened SwapSpec
  import opened SwapClaims
  import opened SwapSafety
  import opened SwapRuns
  import opened SwapActs
  import opened SwapBatches
  import opened SwapOpenings
  import opened SwapRollbacks
  import opened SwapBook
  import BatchOpening

  // ── Which calls keep what ────────────────────────────────────────────────

  /** Three entry points do not test, or not fully, the status of the swap they are given. They set no status back
      as long as the swap is live, or already where the call puts it. */
  predicate OrderlyAct(s: State, id: SwapId, act: Act) {
    id in s.swaps ==>
      match act
      case Arbitrate(_, refund) => s.swaps[id].status.Live() || s.swaps[id].status == Outcome(refund)
      case MakeScheduledPayment(index) => LastPayment(s, id, index) ==> Acceptable(s, id)
      case AdminRollback(_) => s.swaps[id].status.Live() || s.swaps[id].status == Cancelled
      case _ => true
  }

  /** The calls that move statuses, and time, only forward. */
  predicate Orderly(s: State, op: Op) {
    match op
    case Surround(now, _, _, _) => s.now <= now
    case On(id, act) => OrderlyAct(s, id, act)
    case BatchRollback(ids, _) => NoneEnded(s, ids)
    case _ => true
  }

  /** The same three keep live swaps and locks matched as long as they close a live swap, or one whose IP nobody
      holds, and revive none. */
  predicate LockSafeAct(s: State, id: SwapId, act: Act) {
    id in s.swaps ==>
      match act
      case Arbitrate(_, _) => s.swaps[id].status.Live() || s.swaps[id].ip !in s.active
      case MakeScheduledPayment(index) => LastPayment(s, id, index) ==> s.swaps[id].status.Live()
      case AdminRollback(_) => s.swaps[id].status.Live() || s.swaps[id].ip !in s.active
      case _ => true
  }

  /** The calls that keep every live swap in possession of its IP: besides, no auction may end with a winner. */
  predicate LockSafe(s: State, op: Op) {
    match op
    case On(id, act) => LockSafeAct(s, id, act)
    case BatchRollback(ids, _) => LocksWithin(s, ids)
    case FinalizeAuction(auction) => auction in s.house.auctions ==> s.house.auctions[auction].highestBidder.None?
    case _ => true
  }

  /** The calls that never lower the slack: all of them but the four below, a batch of reveals that
      names a swap twice, and a batch of rollbacks that returns more premiums than it gains. */
  predicate BackedAct(s: State, id: SwapId, act: Act) {
    id in s.swaps ==>
      match act
      case Arbitrate(_, _) => Due(s.swaps[id], s.side, id) >= s.swaps[id].price
      case MakeScheduledPayment(index) => CoversPrice(s, id, index)
      case AdminRollback(_) => Paid(s.swaps[id]) ==> s.swaps[id].premium == 0
      case ValidateAndRollback(keyValid) => keyValid
      case _ => true
  }

  ghost predicate Backed(s: State, op: Op) {
    match op
    case Surround(_, bank, _, _) => forall t: Token :: Bal(bank, t, Contract) >= Held(s, t)
    case On(id, act) => BackedAct(s, id, act)
    case BatchReveal(ids, _, _) => Distinct(ids)
    case BatchRollback(ids, _) => PremiumsCovered(s, ids)
    case _ => true
  }

  // ── One call ─────────────────────────────────────────────────────────────

  lemma PreparingSound(s: State, id: SwapId, act: Act)
    requires Local(s, id) && Prepares(act) && !act.MakeScheduledPayment?
    ensures Sound(s, id, Plan(s, id, act))
  {
    if act.Accept? {
      AcceptSound(s, id);
    } else if act.AcceptConditional? {
      AcceptTermsSound(s, id, act.conditions, 0);
    } else if act.AcceptPartial? {
      AcceptTermsSound(s, id, [], act.quantity);
    } else if act.EscrowDeposit? {
      DepositSound(s, id, TREASURY);
    } else if act.SubmitInstallment? {
      SubmitInstallmentSound(s, id, act.amount);
    } else if act.Renegotiate? {
      OfferSound(s, id, act.price, 0);
    } else if act.AcceptRenegotiation? {
      OfferSound(s, id, 0, 0);
    } else if act.ExtendExpiry? {
      OfferSound(s, id, 0, act.expiry);
    } else if act.Approve? {
      SignOffSound(s, id, act.approver, 0);
    } else if act.SetMinReputation? {
      SignOffSound(s, id, TREASURY, act.minimum);
    } else {
      SignOffSound(s, id, act.signer, 0);
    }
  }

  lemma SettlingSound(s: State, id: SwapId, act: Act)
    requires Local(s, id) && !Prepares(act)
    requires !act.Arbitrate? && !act.AdminRollback? && !act.ValidateAndRollback?
    ensures Sound(s, id, Plan(s, id, act))
  {
    if act.RequestArbitration? {
      DisputeSound(s, id, act.requester);
    } else if act.RaiseDispute? {
      DisputeSound(s, id, TREASURY);
    } else if act.Reveal? {
      RevealSound(s, id, act.caller, act.digest);
    } else if act.VerifyAndComplete? {
      VerifyAndCompleteSound(s, id, act.caller, act.digest);
    } else if act.ResolveDispute? {
      ResolveDisputeSound(s, id, act.caller, act.refunded);
    } else if act.AutoResolveDispute? || act.AutoRefundTimeout? {
      TimeoutSound(s, id);
    } else if act.Cancel? || act.CancelPending? {
      CancelSound(s, id, act.caller);
    } else if act.CancelExpired? {
      CancelExpiredSound(s, id, act.caller);
    } else if act.EscrowWithdraw? {
      EscrowWithdrawSound(s, id);
    } else {
      ClaimInsuranceSound(s, id);
    }
  }

  /** The entry points that test the status of their swap. */
  predicate Tested(act: Act) {
    !act.Arbitrate? && !act.MakeScheduledPayment? && !act.AdminRollback? && !act.ValidateAndRollback?
  }

  lemma ActSound(s: State, id: SwapId, act: Act)
    requires Inv(s) && Tested(act)
    ensures Sound(s, id, Plan(s, id, act))
  {
    LocalFromInv(s, id);
    if Prepares(act) {
      PreparingSound(s, id, act);
    } else {
      SettlingSound(s, id, act);
    }
  }

  lemma TestedLegal(s: State, id: SwapId, act: Act)
    requires Inv(s) && Tested(act) && Plan(s, id, act).Ok?
    ensures Legal(s, id, Plan(s, id, act).value)
  {
    ActSound(s, id, act);
  }

  /** The entry points that leave no doubt about the status: those that test it, and the report about a key, which
      tests for Completed. */
  predicate Ordinary(act: Act) {
    !act.Arbitrate? && !act.MakeScheduledPayment? && !act.AdminRollback?
  }

  lemma OrdinaryLegal(s: State, id: SwapId, act: Act)
    requires Inv(s) && Ordinary(act) && Plan(s, id, act).Ok?
    ensures Legal(s, id, Plan(s, id, act).value)
  {
    if Tested(act) {
      TestedLegal(s, id, act);
    } else {
      LocalFromInv(s, id);
      ValidateAndRollbackLegal(s, id, act.keyValid);
    }
  }

  /** The change is in order, and its effect on status and lock is what the two guards say. */
  ghost predicate GuardsFit(s: State, id: SwapId, act: Act, c: Change) {
    && Closing(s, id, c)
    && (Forward(s.swaps[id].status, c.swap.status) <==> OrderlyAct(s, id, act))
    && (UnlockOk(s, s.swaps[id], c) <==> LockSafeAct(s, id, act))
  }

  lemma ArbitrateGuards(s: State, id: SwapId, arbitrator: Address, refund: bool)
    requires Inv(s) && ArbitratePlan(s, id, arbitrator, refund).Ok?
    ensures GuardsFit(s, id, Arbitrate(arbitrator, refund), ArbitratePlan(s, id, arbitrator, refund).value)
  {
    LocalFromInv(s, id);
    ArbitrateExactly(s, id, arbitrator, refund);
  }

  lemma ScheduledPaymentGuards(s: State, id: SwapId, index: nat)
    requires Inv(s) && ScheduledPaymentPlan(s, id, index).Ok?
    requires index < |Lookup(s.side.paymentsMade, id, [])| && s.side.schedules[id][index].amount >= 0
    ensures GuardsFit(s, id, MakeScheduledPayment(index), ScheduledPaymentPlan(s, id, index).value)
  {
    LocalFromInv(s, id);
    ScheduledPaymentExactly(s, id, index);
  }

  lemma AdminRollbackGuards(s: State, id: SwapId, caller: Address)
    requires Inv(s) && AdminRollbackPlan(s, id, caller).Ok?
    ensures GuardsFit(s, id, AdminRollback(caller), AdminRollbackPlan(s, id, caller).value)
  {
    LocalFromInv(s, id);
    RollBackExactly(s, id);
  }

  lemma UntestedExactly(s: State, id: SwapId, act: Act)
    requires Inv(s) && !Ordinary(act) && Do(s, id, Plan(s, id, act)).Ok?
    ensures GuardsFit(s, id, act, Plan(s, id, act).value)
  {
    if act.Arbitrate? {
      ArbitrateGuards(s, id, act.arbitrator, act.refund);
    } else if act.MakeScheduledPayment? {
      ScheduledPaymentDone(s, id, act.index);
      ScheduledPaymentGuards(s, id, act.index);
    } else {
      AdminRollbackGuards(s, id, act.caller);
    }
  }

  /** A call about one swap that goes through keeps the invariant, the order of statuses exactly if it is orderly, */
  lemma ActOrderExactly(s: State, id: SwapId, act: Act)
    requires Inv(s) && Do(s, id, Plan(s, id, act)).Ok?
    ensures Inv(Do(s, id, Plan(s, id, act)).value)
    ensures Later(s, Do(s, id, Plan(s, id, act)).value) <==> OrderlyAct(s, id, act)
  {
    if Ordinary(act) {
      OrdinaryLegal(s, id, act);
    } else {
      UntestedExactly(s, id, act);
    }
    TidyKeepsInv(s, id, Plan(s, id, act).value);
    OrderKeptExactly(s, id, Plan(s, id, act).value);
  }

  /** and the match of locks and live swaps exactly if it is safe for the locks. */
  lemma ActLocksExactly(s: State, id: SwapId, act: Act)
    requires Inv(s) && Locked(s) && Do(s, id, Plan(s, id, act)).Ok?
    ensures Locked(Do(s, id, Plan(s, id, act)).value) <==> LockSafeAct(s, id, act)
  {
    if Ordinary(act) {
      OrdinaryLegal(s, id, act);
      LegalKeeps(s, id, Plan(s, id, act).value);
    } else {
      UntestedExactly(s, id, act);
      LocksKeptExactly(s, id, Plan(s, id, act).value);
    }
  }

  /** The calls that open something, and those about stored swaps that test each item. */
  predicate OpensAny(op: Op) {
    OpensOne(op) || op.StartAuction? || op.PlaceBid?
  }

  predicate TestsItems(op: Op) {
    op.BatchEscrowDeposit? || op.BatchAccept? || op.BatchArbitrate? || op.BatchCancel?
  }

  lemma OpeningSafe(s: State, op: Op)
    requires Inv(s)
    requires OpensAny(op)
    ensures Safe(s, Step(s, op))
  {
    if op.Initiate? {
      InitiateSafe(s, op.terms);
    } else if op.InitiateWithSchedule? {
      InitiateWithScheduleSafe(s, op.token, op.ip, op.seller, op.schedule, op.buyer);
    } else if op.InitiateWithSigners? {
      InitiateWithSignersSafe(s, op.token, op.ip, op.seller, op.price, op.buyer, op.required);
    } else if op.InitiateEscrow? {
      InitiateEscrowSafe(s, op.token, op.ip, op.seller, op.price, op.buyer, op.timeout);
    } else if op.StartAuction? {
      StartAuctionSafe(s, op.token, op.ip, op.seller, op.minBid, op.duration);
    } else {
      PlaceBidSafe(s, op.auction, op.bidder, op.amount);
    }
  }

  lemma BatchOpeningSafe(s: State, op: Op)
    requires Inv(s)
    requires OpensMany(op)
    ensures Safe(s, Step(s, op))
  {
    if op.BatchInitiate? {
      BatchInitiateSafe(s, op.batch, op.ips, op.prices);
    } else if op.BatchInitiateWithInsurance? {
      OpenCheckingSafe(s, op.batch, op.ips, op.prices, op.insured);
    } else {
      BatchInitiateEscrowSafe(s, op.token, op.ips, op.seller, op.prices, op.buyer, op.timeouts);
    }
  }

  lemma BatchPayingSafe(s: State, op: Op)
    requires Inv(s) && (op.BatchEscrowDeposit? || op.BatchAccept?)
    ensures Safe(s, Step(s, op))
  {
    if op.BatchAccept? {
      BatchAcceptSafe(s, op.ids, op.buyer);
    } else if op.buyer.Account? {
      DepositAllSafe(s, op.ids, op.buyer);
    }
  }

  lemma BatchSafe(s: State, op: Op)
    requires Inv(s) && TestsItems(op)
    ensures Safe(s, Step(s, op))
  {
    if op.BatchEscrowDeposit? || op.BatchAccept? {
      BatchPayingSafe(s, op);
    } else if op.BatchArbitrate? {
      ArbitrateAllSafe(s, op.ids, op.refund);
    } else {
      CancelAllSafe(s, op.ids, op.caller);
    }
  }

  /** The contract pays nothing when it is paid. */
  lemma ScheduledPaymentTakes(s: State, id: SwapId, index: nat)
    ensures Do(s, id, ScheduledPaymentPlan(s, id, index)) != Err(InsufficientBalance(Contract))
  {
    if ScheduledPaymentPlan(s, id, index).Ok? {
      ScheduledPaymentMoves(s, id, index);
      OnePaymentSettles(s.bank, s.swaps[id].token, s.swaps[id].buyer, s.side.schedules[id][index].amount,
                        index < |Lookup(s.side.paymentsMade, id, [])|);
    }
  }

  lemma ScheduledPaymentFunded(s: State, id: SwapId, index: nat)
    requires Inv(s) && id in s.swaps && CoversPrice(s, id, index)
    ensures Funded(s, Do(s, id, ScheduledPaymentPlan(s, id, index)))
  {
    ScheduledPaymentTakes(s, id, index);
    if Do(s, id, ScheduledPaymentPlan(s, id, index)).Ok? {
      ScheduledPaymentDone(s, id, index);
      ScheduledPaymentProfit(s, id, index);
      SlackKeptIffProfit(s, id, ScheduledPaymentPlan(s, id, index).value);
    }
  }

  /** A rollback that returns no premium, an arbitration of a held price, a report that the key is valid. */
  lemma BackedFrugal(s: State, id: SwapId, act: Act)
    requires Local(s, id) && BackedAct(s, id, act)
    requires act.Arbitrate? || act.AdminRollback? || act.ValidateAndRollback?
    ensures Frugal(s, id, Plan(s, id, act))
  {
    if act.Arbitrate? {
      ArbitrateFrugal(s, id, act.arbitrator, act.refund);
    } else if act.AdminRollback? {
      AdminRollbackFrugal(s, id, act.caller);
    } else if id in s.swaps {
      ValidKeyFrugal(s, id);
    }
  }

  lemma ActFunded(s: State, id: SwapId, act: Act)
    requires Inv(s) && BackedAct(s, id, act)
    ensures Funded(s, Do(s, id, Plan(s, id, act)))
  {
    LocalFromInv(s, id);
    if Tested(act) {
      ActSound(s, id, act);
      DoSafe(s, id, Plan(s, id, act));
    } else if !act.MakeScheduledPayment? {
      BackedFrugal(s, id, act);
      DoFunded(s, id, Plan(s, id, act));
    } else if id in s.swaps {
      ScheduledPaymentFunded(s, id, act.index);
    }
  }

  lemma SurroundExactly(s: State, op: Op)
    requires Inv(s) && op.Surround?
    ensures Inv(Step(s, op).value) && (Locked(s) ==> Locked(Step(s, op).value))
    ensures Later(s, Step(s, op).value) <==> s.now <= op.now
  {
    var s' := Step(s, op).value;
    forall id | id in s.swaps
      ensures EntryOk(s', id) && (Locked(s) ==> Holding(s', id)) && SameParties(s.swaps[id], s'.swaps[id])
    {
      assert EntryOk(s, id) && (Locked(s) ==> Holding(s, id));
    }
    forall ip ensures LockOk(s', ip) {
      assert LockOk(s, ip);
    }
    if s.now <= op.now {
      forall id | id in s.swaps ensures Persists(s, s', id) {
      }
    }
  }

  lemma SurroundFunded(s: State, op: Op)
    requires op.Surround? && Backed(s, op)
    ensures SlackKept(s, Step(s, op).value)
  {
    var s' := Step(s, op).value;
    forall t: Token ensures Slack(s', t) >= Slack(s, t) {
      SameBookSlack(s, s', t);
      assert Bal(op.bank, t, Contract) >= Held(s, t);
    }
  }

  /** The calls that need no condition. */
  lemma OrdinarySafe(s: State, op: Op)
    requires Inv(s) && (OpensAny(op) || OpensMany(op) || TestsItems(op))
    ensures Safe(s, Step(s, op))
  {
    if OpensAny(op) {
      OpeningSafe(s, op);
    } else if OpensMany(op) {
      BatchOpeningSafe(s, op);
    } else {
      BatchSafe(s, op);
    }
  }

  /** A call that goes through keeps the storage invariant, even where it breaks the order of statuses or frees
      another swap's lock; and it moves statuses only forward exactly if it is orderly. */
  lemma StepOrderExactly(s: State, op: Op)
    requires Inv(s) && Step(s, op).Ok?
    ensures Inv(Step(s, op).value)
    ensures Later(s, Step(s, op).value) <==> Orderly(s, op)
  {
    if op.Surround? {
      SurroundExactly(s, op);
    } else if op.On? {
      ActOrderExactly(s, op.id, op.act);
    } else if op.BatchRollback? {
      BatchRollbackOrderExactly(s, op.ids, op.caller);
      RollBackAllEffect(s, op.ids);
    } else if op.BatchReveal? {
      BatchRevealKept(s, op.ids, op.digests, op.seller);
    } else if op.FinalizeAuction? {
      FinalizeAuctionKept(s, op.auction);
    } else {
      OrdinarySafe(s, op);
    }
  }

  /** Where live swaps hold their locks, it leaves them so exactly if it is safe for the locks. */
  lemma StepLocksExactly(s: State, op: Op)
    requires Inv(s) && Locked(s) && Step(s, op).Ok?
    ensures Locked(Step(s, op).value) <==> LockSafe(s, op)
  {
    if op.Surround? {
      SurroundExactly(s, op);
    } else if op.On? {
      ActLocksExactly(s, op.id, op.act);
    } else if op.BatchRollback? {
      BatchRollbackLocksExactly(s, op.ids, op.caller);
    } else if op.BatchReveal? {
      BatchRevealKept(s, op.ids, op.digests, op.seller);
    } else if op.FinalizeAuction? {
      WonAuctionTakesNoLock(s, op.auction);
    } else {
      OrdinarySafe(s, op);
    }
  }

  /** A backed call never lowers the slack of any token, and is never refused because a solvent contract lacks
      funds, whatever it does to statuses and locks. */
  lemma StepBacked(s: State, op: Op)
    requires Inv(s) && Backed(s, op)
    ensures Step(s, op).Ok? ==> SlackKept(s, Step(s, op).value)
    ensures Solvent(s) ==> Step(s, op) != Err(InsufficientBalance(Contract))
  {
    if op.Surround? {
      SurroundFunded(s, op);
    } else if op.On? {
      ActFunded(s, op.id, op.act);
    } else if op.BatchRollback? {
      BatchRollbackBacked(s, op.ids, op.caller);
    } else if op.BatchReveal? {
      BatchRevealKept(s, op.ids, op.digests, op.seller);
    } else if op.FinalizeAuction? {
      if Step(s, op).Ok? {
        FinalizeAuctionKept(s, op.auction);
      }
    } else {
      OrdinarySafe(s, op);
    }
  }

  // ── Whole runs ───────────────────────────────────────────────────────────

  /** A contract that has not been called yet. Anybody may already have sent it tokens. */
  ghost predicate Genesis(s: State) {
    && s.nextId == 0 && s.swaps == map[] && s.active == map[] && s.house == House(map[], map[], 0)
    && s.vault == Vault(map[], map[], map[]) && s.side.offers == map[]
    && s.side.schedules == map[] && s.side.paymentsMade == map[]
    && (forall t: Token :: Held(s, t) >= 0)
  }

  predicate OrderlyRun(s: State, ops: seq<Op>)
    decreases |ops|
  {
    ops == [] || (OrderlyRun(s, ops[..|ops| - 1]) && Orderly(Run(s, ops[..|ops| - 1]), ops[|ops| - 1]))
  }

  predicate LockSafeRun(s: State, ops: seq<Op>)
    decreases |ops|
  {
    ops == [] || (LockSafeRun(s, ops[..|ops| - 1]) && LockSafe(Run(s, ops[..|ops| - 1]), ops[|ops| - 1]))
  }

  ghost predicate BackedRun(s: State, ops: seq<Op>)
    decreases |ops|
  {
    ops == [] || (BackedRun(s, ops[..|ops| - 1]) && Backed(Run(s, ops[..|ops| - 1]), ops[|ops| - 1]))
  }

  lemma GenesisOk(s: State)
    requires Genesis(s)
    ensures Inv(s) && Locked(s) && Solvent(s)
  {
    forall t: Token ensures Slack(s, t) >= 0 {
      assert Held(s, t) >= 0;
    }
  }

  /** Every run keeps the storage invariant. */
  lemma {:induction false} RunInv(s: State, ops: seq<Op>)
    requires Inv(s)
    ensures Inv(Run(s, ops))
    decreases |ops|
  {
    if ops == [] {
    } else {
      RunInv(s, ops[..|ops| - 1]);
      if Step(Run(s, ops[..|ops| - 1]), ops[|ops| - 1]).Ok? {
        StepOrderExactly(Run(s, ops[..|ops| - 1]), ops[|ops| - 1]);
      }
    }
  }

  /** Along every run of orderly calls each swap keeps its parties and moves only forward, whoever holds the locks. */
  lemma {:induction false} RunOrdered(s: State, ops: seq<Op>)
    requires Inv(s) && OrderlyRun(s, ops)
    ensures Later(s, Run(s, ops))
    decreases |ops|
  {
    if ops == [] {
      NothingSafe(s);
    } else {
      var before := Run(s, ops[..|ops| - 1]);
      var op := ops[|ops| - 1];
      RunInv(s, ops[..|ops| - 1]);
      RunOrdered(s, ops[..|ops| - 1]);
      if Step(before, op).Ok? {
        StepOrderExactly(before, op);
        LaterTrans(s, before, Step(before, op).value);
      }
    }
  }

  /** Along every run of calls that are safe for the locks, every live swap holds its lock. */
  lemma {:induction false} RunLocked(s: State, ops: seq<Op>)
    requires Inv(s) && Locked(s) && LockSafeRun(s, ops)
    ensures Locked(Run(s, ops))
    decreases |ops|
  {
    if ops == [] {
    } else {
      RunInv(s, ops[..|ops| - 1]);
      RunLocked(s, ops[..|ops| - 1]);
      if Step(Run(s, ops[..|ops| - 1]), ops[|ops| - 1]).Ok? {
        StepLocksExactly(Run(s, ops[..|ops| - 1]), ops[|ops| - 1]);
      }
    }
  }

  /** In every such run an IP is locked by a swap if and only if that swap is about that IP and is Pending,
      Accepted or Disputed. So two live swaps are never about the same IP. */
  lemma LockBijection(s: State, ops: seq<Op>, ip: IpId, id: SwapId)
    requires Genesis(s) && LockSafeRun(s, ops)
    ensures var r := Run(s, ops);
      (ip in r.active && r.active[ip] == id) <==> (id in r.swaps && r.swaps[id].ip == ip && r.swaps[id].status.Live())
  {
    GenesisOk(s);
    RunInv(s, ops);
    RunLocked(s, ops);
    var r := Run(s, ops);
    assert LockOk(r, ip);
    if id in r.swaps {
      assert Holding(r, id);
    }
  }

  /** In such a run a lock is given up only by a call about the very swap that holds it, which is live no more. */
  lemma LockFreedByItsOwn(s: State, ops: seq<Op>, op: Op, ip: IpId)
    requires Genesis(s) && LockSafeRun(s, ops) && LockSafe(Run(s, ops), op)
    requires ip in Run(s, ops).active && ip !in After(Run(s, ops), op).active
    ensures var id := Run(s, ops).active[ip];
            && id in Named(op) && id in Run(s, ops).swaps && Run(s, ops).swaps[id].status.Live()
            && id in After(Run(s, ops), op).swaps && !After(Run(s, ops), op).swaps[id].status.Live()
  {
    var before := Run(s, ops);
    GenesisOk(s);
    RunInv(s, ops);
    RunLocked(s, ops);
    StepLocksExactly(before, op);
    StepBook(before, op);
    assert LockOk(before, ip);
    assert Holding(After(before, op), before.active[ip]);
  }

  /** In every run of backed calls the contract holds, token by token, at least what it owes: the prices of
      Accepted and Disputed swaps, the instalments and scheduled payments of Pending ones, all stored collateral,
      the leading bids of open auctions and the insurance pool. */
  lemma {:induction false} RunSolvent(s: State, ops: seq<Op>)
    requires Inv(s) && Solvent(s) && BackedRun(s, ops)
    ensures SlackKept(s, Run(s, ops)) && Solvent(Run(s, ops))
    decreases |ops|
  {
    if ops == [] {
    } else {
      var before := Run(s, ops[..|ops| - 1]);
      var op := ops[|ops| - 1];
      RunSolvent(s, ops[..|ops| - 1]);
      RunInv(s, ops[..|ops| - 1]);
      StepBacked(before, op);
      forall t: Token ensures Slack(Run(s, ops), t) >= Slack(s, t) && Slack(Run(s, ops), t) >= 0 {
        assert Slack(before, t) >= Slack(s, t) && Slack(s, t) >= 0;
        assert Step(before, op).Ok? ==> Slack(Step(before, op).value, t) >= Slack(before, t);
      }
    }
  }

  /** So no backed call in such a run is ever refused for lack of the contract's funds. */
  lemma NeverShort(s: State, ops: seq<Op>, op: Op)
    requires Genesis(s) && BackedRun(s, ops) && Backed(Run(s, ops), op)
    ensures forall t: Token :: Owed(Run(s, ops), t) <= Held(Run(s, ops), t)
    ensures Step(Run(s, ops), op) != Err(InsufficientBalance(Contract))
  {
    GenesisOk(s);
    RunSolvent(s, ops);
    RunInv(s, ops);
    StepBacked(Run(s, ops), op);
    forall t: Token ensures Owed(Run(s, ops), t) <= Held(Run(s, ops), t) {
      assert Slack(Run(s, ops), t) >= 0;
    }
  }

  // ── Statuses ─────────────────────────────────────────────────────────────

  /** Whether the status of a swap that exists changes: once, or not at all. */
  function Changed(before: State, after: State, id: SwapId): nat {
    if id in before.swaps && id in after.swaps && before.swaps[id].status != after.swaps[id].status then 1 else 0
  }

  /** How often the status of a swap changes along a run, from the moment the swap exists. */
  function StatusChanges(s: State, ops: seq<Op>, id: SwapId): nat
    decreases |ops|
  {
    if ops == [] then 0
    else StatusChanges(s, ops[..|ops| - 1], id) + Changed(Run(s, ops[..|ops| - 1]), Run(s, ops), id)
  }

  lemma StatusClimbs(s: State, op: Op, id: SwapId)
    requires Inv(s) && Orderly(s, op)
    ensures id in s.swaps ==> id in After(s, op).swaps && Forward(s.swaps[id].status, After(s, op).swaps[id].status)
  {
    if Step(s, op).Ok? {
      StepOrderExactly(s, op);
      if id in s.swaps {
        assert Persists(s, Step(s, op).value, id);
      }
    }
  }

  /** What the last call of a orderly run does to one status. */
  lemma RunClimbs(s: State, ops: seq<Op>, id: SwapId)
    requires Inv(s) && ops != [] && OrderlyRun(s, ops)
    ensures OrderlyRun(s, ops[..|ops| - 1])
    ensures var before := Run(s, ops[..|ops| - 1]);
            id in before.swaps ==>
              id in Run(s, ops).swaps && Forward(before.swaps[id].status, Run(s, ops).swaps[id].status)
  {
    RunInv(s, ops[..|ops| - 1]);
    StatusClimbs(Run(s, ops[..|ops| - 1]), ops[|ops| - 1], id);
  }

  /** A swap has changed status no more often than it has climbed. */
  predicate Within(changes: nat, s: State, id: SwapId) {
    if id in s.swaps then changes <= s.swaps[id].status.Rank() <= 4 else changes == 0
  }

  lemma WithinStep(before: State, after: State, changes: nat, id: SwapId)
    requires Within(changes, before, id)
    requires id in before.swaps ==> id in after.swaps && Forward(before.swaps[id].status, after.swaps[id].status)
    ensures Within(changes + Changed(before, after, id), after, id)
  {
  }

  /** In any orderly run a swap changes status at most four times: once per rank it climbs. */
  lemma {:induction false} StatusChangesBounded(s: State, ops: seq<Op>, id: SwapId)
    requires Inv(s) && OrderlyRun(s, ops)
    ensures Within(StatusChanges(s, ops, id), Run(s, ops), id) && StatusChanges(s, ops, id) <= 4
    decreases |ops|
  {
    if ops == [] {
    } else {
      var before := ops[..|ops| - 1];
      RunClimbs(s, ops, id);
      StatusChangesBounded(s, before, id);
      WithinStep(Run(s, before), Run(s, ops), StatusChanges(s, before, id), id);
    }
  }
}

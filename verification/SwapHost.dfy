/** Runs of the contract itself: what is proved about `Run` is true of a contract that is really called. */
module SwapHost {
  import opened Common
  import opened SwapState
  import opened SwapSpec
  import opened SwapRuns
  import opened SwapContract
  import opened SwapClaims
  import opened SwapTheorems

  /** Calls that do not end a swap. */
  method Prepare(c: AtomicSwap, id: SwapId, act: SwapRuns.Act) returns (r: Result<()>)
    requires Prepares(act)
    modifies c
    ensures Commits(r, old(c.store), c.store, Do(old(c.store), id, Plan(old(c.store), id, act)))
  {
    match act
    case Accept => r := c.AcceptSwap(id);
    case AcceptConditional(conditions) => r := c.AcceptSwapConditional(id, conditions);
    case AcceptPartial(quantity) => r := c.AcceptSwapPartial(id, quantity);
    case EscrowDeposit => r := c.EscrowDeposit(id);
    case SubmitInstallment(amount) => r := c.SubmitInstallmentPayment(id, amount);
    case MakeScheduledPayment(index) => r := c.MakeScheduledPayment(id, index);
    case Renegotiate(price) => r := c.RenegotiateSwap(id, price);
    case AcceptRenegotiation => r := c.AcceptRenegotiation(id);
    case ExtendExpiry(expiry) => r := c.ExtendSwapExpiry(id, expiry);
    case Approve(approver) => r := c.ApproveSwap(id, approver);
    case SetMinReputation(minimum) => r := c.SetReputationMultiplier(id, minimum);
    case SignReveal(signer) => r := c.SignSwapReveal(id, signer);
  }

  /** Calls that dispute or end a swap, and insurance claims. */
  method Settle(c: AtomicSwap, id: SwapId, act: SwapRuns.Act) returns (r: Result<()>)
    requires !Prepares(act)
    modifies c
    ensures Commits(r, old(c.store), c.store, Do(old(c.store), id, Plan(old(c.store), id, act)))
  {
    match act
    case RequestArbitration(requester) => r := c.RequestArbitration(id, requester);
    case RaiseDispute => r := c.RaiseDispute(id);
    case Reveal(caller, digest) => r := c.RevealKey(id, caller, digest);
    case VerifyAndComplete(caller, digest) => r := c.VerifyAndCompleteSwap(id, caller, digest);
    case ResolveDispute(caller, refunded) => r := c.ResolveDispute(id, caller, refunded);
    case AutoResolveDispute => r := c.AutoResolveDispute(id);
    case AutoRefundTimeout => r := c.AutoRefundTimeout(id);
    case Arbitrate(arbitrator, refund) => r := c.ArbitrateSwap(id, arbitrator, refund);
    case Cancel(caller) => r := c.CancelSwap(id, caller);
    case CancelPending(caller) => r := c.CancelPendingSwap(id, caller);
    case CancelExpired(caller) => r := c.CancelExpiredSwap(id, caller);
    case EscrowWithdraw => r := c.EscrowWithdraw(id);
    case AdminRollback(caller) => r := c.AdminRollbackSwap(id, caller);
    case ValidateAndRollback(keyValid) =>
      var answer := c.ValidateAndRollbackSwap(id, keyValid);
      r := Answer(answer);
    case ClaimInsurance => r := c.ClaimInsurance(id);
  }

  lemma StepOn(s: State, id: SwapId, act: SwapRuns.Act)
    ensures Step(s, On(id, act)) == Do(s, id, Plan(s, id, act))
  {
  }

  /** One call about one stored swap. */
  method Act(c: AtomicSwap, id: SwapId, act: SwapRuns.Act) returns (r: Result<()>)
    modifies c
    ensures Commits(r, old(c.store), c.store, Step(old(c.store), On(id, act)))
  {
    StepOn(c.store, id, act);
    if Prepares(act) {
      r := Prepare(c, id, act);
    } else {
      r := Settle(c, id, act);
    }
  }

  method Initiate(c: AtomicSwap, op: Op) returns (r: Result<()>)
    requires op.Initiate? || op.InitiateWithSchedule?
      || op.InitiateWithSigners? || op.InitiateEscrow? || op.StartAuction?
    modifies c
    ensures Commits(r, old(c.store), c.store, Step(old(c.store), op))
  {
    var answer;
    match op {
      case Initiate(terms) => answer := c.InitiateSwap(terms);
      case InitiateWithSchedule(token, ip, seller, schedule, buyer) =>
        answer := c.InitiateSwapWithSchedule(token, ip, seller, schedule, buyer);
      case InitiateWithSigners(token, ip, seller, price, buyer, required) =>
        answer := c.InitiateSwapWithSigners(token, ip, seller, price, buyer, required);
      case InitiateEscrow(token, ip, seller, price, buyer, timeout) =>
        answer := c.InitiateEscrowSwap(token, ip, seller, price, buyer, timeout);
      case StartAuction(token, ip, seller, minBid, duration) =>
        answer := c.StartIpAuction(token, ip, seller, minBid, duration);
    }
    r := Answer(answer);
  }

  method Batch(c: AtomicSwap, op: Op) returns (r: Result<()>)
    requires !op.Surround? && !op.On?
    requires !(op.Initiate? || op.InitiateWithSchedule? || op.InitiateWithSigners?
               || op.InitiateEscrow? || op.StartAuction?)
    modifies c
    ensures Commits(r, old(c.store), c.store, Step(old(c.store), op))
  {
    var answer;
    match op
    case BatchInitiate(b, ips, prices) => answer := c.BatchInitiateSwap(b, ips, prices); r := Answer(answer);
    case BatchInitiateWithInsurance(b, ips, prices, insured) =>
      answer := c.BatchInitiateSwapWithInsurance(b, ips, prices, insured);
      r := Answer(answer);
    case BatchInitiateEscrow(token, ips, seller, prices, buyer, timeouts) =>
      answer := c.BatchInitiateEscrow(token, ips, seller, prices, buyer, timeouts);
      r := Answer(answer);
    case BatchEscrowDeposit(ids, buyer) => r := c.BatchEscrowDeposit(ids, buyer);
    case BatchAccept(ids, buyer) => r := c.BatchAcceptSwaps(ids, buyer);
    case BatchReveal(ids, digests, seller) => r := c.BatchRevealKeys(ids, digests, seller);
    case BatchArbitrate(ids, arbitrator, refund) => r := c.BatchArbitrateSwaps(ids, arbitrator, refund);
    case BatchCancel(ids, caller, reasons) =>
      var cancelled := c.BatchCancelSwaps(ids, caller, reasons);
      r := Answer(cancelled);
    case BatchRollback(ids, caller) => r := c.BatchRollbackSwaps(ids, caller);
    case PlaceBid(auction, bidder, amount) => r := c.PlaceBid(auction, bidder, amount);
    case FinalizeAuction(auction) => r := c.FinalizeAuction(auction);
  }

  /** One event on the ledger: a call, or something around the contract. */
  method Invoke(c: AtomicSwap, op: Op) returns (r: Result<()>)
    modifies c
    ensures Commits(r, old(c.store), c.store, Step(old(c.store), op))
    ensures c.store == After(old(c.store), op)
  {
    match op
    case Surround(now, bank, world, claimable) =>
      c.store := c.store.(now := now, bank := bank, world := world);
      c.store := c.store.(side := c.store.side.(claimable := claimable));
      r := Ok(());
    case On(id, act) => r := Act(c, id, act);
    case Initiate(_) => r := Initiate(c, op);
    case InitiateWithSchedule(_, _, _, _, _) => r := Initiate(c, op);
    case InitiateWithSigners(_, _, _, _, _, _) => r := Initiate(c, op);
    case InitiateEscrow(_, _, _, _, _, _) => r := Initiate(c, op);
    case StartAuction(_, _, _, _, _) => r := Initiate(c, op);
    case _ => r := Batch(c, op);
  }

  lemma ReplayedWell(s: State, ops: seq<Op>)
    requires Genesis(s)
    ensures Inv(Run(s, ops))
    ensures BackedRun(s, ops) ==> Solvent(Run(s, ops))
    ensures LockSafeRun(s, ops) ==>
      forall ip, id :: (ip in Run(s, ops).active && Run(s, ops).active[ip] == id)
                       <==> (id in Run(s, ops).swaps && Run(s, ops).swaps[id].ip == ip
                             && Run(s, ops).swaps[id].status.Live())
  {
    GenesisOk(s);
    RunInv(s, ops);
    if BackedRun(s, ops) {
      RunSolvent(s, ops);
    }
    if LockSafeRun(s, ops) {
      forall ip, id {
        LockBijection(s, ops, ip, id);
      }
    }
  }

  /** The contract under a list of events: its store is what `Run` says. So whatever holds of runs holds of a
      contract that has really been called, among it that it can pay what it owes, and that its locks name
      exactly the live swaps. */
  method Replay(c: AtomicSwap, ops: seq<Op>)
    modifies c
    ensures c.store == Run(old(c.store), ops)
    ensures Genesis(old(c.store)) ==> Inv(c.store)
    ensures Genesis(old(c.store)) && BackedRun(old(c.store), ops) ==> Solvent(c.store)
    ensures Genesis(old(c.store)) && LockSafeRun(old(c.store), ops) ==>
      forall ip, id :: (ip in c.store.active && c.store.active[ip] == id)
                       <==> (id in c.store.swaps && c.store.swaps[id].ip == ip && c.store.swaps[id].status.Live())
  {
    for i := 0 to |ops|
      invariant c.store == Run(old(c.store), ops[..i])
    {
      var _ := Invoke(c, ops[i]);
      assert ops[..i + 1][..i] == ops[..i];
    }
    assert ops[..|ops|] == ops;
    if Genesis(old(c.store)) {
      ReplayedWell(old(c.store), ops);
    }
  }
}

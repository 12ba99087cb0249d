/** The entry points of the atomic swap contract. A call works step by step on its own copy of the store, and
    the copy replaces the store only when the call goes through: a call that panics leaves nothing behind. */
module SwapContract {
  import opened Common
  import opened SwapState
  import opened SwapSpec
  import opened SwapRoutines

  class AtomicSwap {
    /** The contract's storage, and the part of the ledger it reads and moves. */
    var store: State

    constructor (ledger: State)
      ensures store == ledger
    {
      store := ledger;
    }

    // ── Initiation ─────────────────────────────────────────────────────────

    method InitiateSwap(t: Terms) returns (r: Result<SwapId>)
      modifies this
      ensures Commits(r, old(store), store, SwapSpec.InitiateSwap(old(store), t))
      ensures r.Ok? ==> r.value == old(store).nextId
    {
      var at := store;
      if at.world.paused {
        return Err(Paused);
      }
      if t.seller.Contract? {
        return Err(NotAuthorized);
      }
      :- RequireOffer(at, t.ip, t.seller, t.price);
      var premium :- Premium(t.price, t.insured);
      var swap := NewRecord(at, t.token, t.ip, t.seller, t.price, t.buyer);
      swap := swap.(requiredApprovals := t.requiredApprovals, referrer := t.referrer);
      swap := swap.(collateralAmount := t.collateralAmount, premium := premium, insured := t.insured);
      var id := at.nextId;
      store := StoreNew(at, swap, true, true);
      return Ok(id);
    }

    method InitiateSwapWithSchedule(token: Token, ip: IpId, seller: Address, schedule: seq<Payment>, buyer: Address)
      returns (r: Result<SwapId>)
      modifies this
      ensures Commits(r, old(store), store, InitiateWithSchedule(old(store), token, ip, seller, schedule, buyer))
      ensures r.Ok? ==> r.value == old(store).nextId
    {
      var at := store;
      if at.world.paused {
        return Err(Paused);
      }
      if seller.Contract? {
        return Err(NotAuthorized);
      }
      if schedule == [] {
        return Err(PriceTooSmall);
      }
      var total := 0;
      for i := 0 to |schedule|
        invariant total == ScheduleTotal(schedule[..i])
      {
        assert schedule[..i + 1][..i] == schedule[..i];
        total := SatAdd(total, schedule[i].amount);
      }
      assert schedule[..|schedule|] == schedule;
      :- RequireOffer(at, ip, seller, total);
      var id := at.nextId;
      var made := [];
      for i := 0 to |schedule|
        invariant made == seq(i, j => false)
      {
        made := made + [false];
      }
      at := StoreNew(at, NewRecord(at, token, ip, seller, total, buyer).(installment := true), true, true);
      at := at.(side := at.side.(schedules := at.side.schedules[id := schedule],
                                 paymentsMade := at.side.paymentsMade[id := made]));
      store := at;
      return Ok(id);
    }

    method InitiateSwapWithSigners(
        token: Token, ip: IpId, seller: Address, price: I128, buyer: Address, required: seq<Address>)
      returns (r: Result<SwapId>)
      modifies this
      ensures Commits(r, old(store), store, InitiateWithSigners(old(store), token, ip, seller, price, buyer, required))
      ensures r.Ok? ==> r.value == old(store).nextId
    {
      var at := store;
      if at.world.paused {
        return Err(Paused);
      }
      if seller.Contract? {
        return Err(NotAuthorized);
      }
      :- RequireOffer(at, ip, seller, price);
      if required == [] {
        return Err(Unauthorized);
      }
      var id := at.nextId;
      at := StoreNew(at, NewRecord(at, token, ip, seller, price, buyer), true, true);
      at := at.(side := at.side.(signers := at.side.signers[id := required]));
      store := at;
      return Ok(id);
    }

    method InitiateEscrowSwap(token: Token, ip: IpId, seller: Address, price: I128, buyer: Address, timeout: nat)
      returns (r: Result<SwapId>)
      modifies this
      ensures Commits(r, old(store), store, InitiateEscrow(old(store), token, ip, seller, price, buyer, timeout))
      ensures r.Ok? ==> r.value == old(store).nextId
    {
      var at := store;
      if at.world.paused {
        return Err(Paused);
      }
      if seller.Contract? {
        return Err(NotAuthorized);
      }
      :- RequireOffer(at, ip, seller, price);
      var id := at.nextId;
      at := StoreNew(at, NewRecord(at, token, ip, seller, price, buyer).(expiry := timeout), true, false);
      at := at.(side := at.side.(escrowMode := at.side.escrowMode + {id}));
      store := at;
      return Ok(id);
    }

    method BatchInitiateSwap(b: BatchTerms, ips: seq<IpId>, prices: seq<I128>) returns (r: Result<seq<SwapId>>)
      modifies this
      ensures Commits(r, old(store), store, BatchInitiate(old(store), b, ips, prices))
      ensures r.Ok? ==> |r.value| == |ips| && forall k :: 0 <= k < |ips| ==> r.value[k] == old(store).nextId + k
    {
      var at := store;
      if at.world.paused {
        return Err(Paused);
      }
      if b.seller.Contract? {
        return Err(NotAuthorized);
      }
      if |ips| == 0 {
        return Err(BatchEmpty);
      }
      if |prices| != |ips| {
        return Err(BatchSizeMismatch);
      }
      if |ips| > MAX_BATCH_SIZE {
        return Err(BatchTooLarge);
      }
      var checked := CheckOffers(at, b.seller, ips, prices);
      :- checked;
      var ids;
      at, ids := StoreOffers(at, b, ips, prices);
      store := at;
      return Ok(ids);
    }

    method BatchInitiateSwapWithInsurance(b: BatchTerms, ips: seq<IpId>, prices: seq<I128>, insured: bool)
      returns (r: Result<seq<SwapId>>)
      modifies this
      ensures Commits(r, old(store), store, BatchInitiateWithInsurance(old(store), b, ips, prices, insured))
      ensures r.Ok? ==> |r.value| == |ips| && forall k :: 0 <= k < |ips| ==> r.value[k] == old(store).nextId + k
    {
      var at := store;
      if at.world.paused {
        return Err(Paused);
      }
      if b.seller.Contract? {
        return Err(NotAuthorized);
      }
      var ids := [];
      for i := 0 to |ips|
        invariant i <= |prices| && store == old(store)
        invariant OpenChecking(store, b, ips, prices, insured) == OpenChecking(at, b, ips[i..], prices[i..], insured)
        invariant at.nextId == store.nextId + i && |ids| == i
        invariant forall k :: 0 <= k < i ==> ids[k] == store.nextId + k
      {
        assert ips[i..][1..] == ips[i + 1..];
        if i >= |prices| {
          return Err(Trap);
        }
        assert prices[i..][1..] == prices[i + 1..];
        :- RequireOffer(at, ips[i], b.seller, prices[i]);
        var premium :- Premium(prices[i], insured);
        var swap := NewRecord(at, b.token, ips[i], b.seller, prices[i], b.buyer);
        swap := swap.(requiredApprovals := b.requiredApprovals, referrer := b.referrer);
        swap := swap.(premium := premium, insured := insured);
        ids := ids + [at.nextId];
        at := StoreNew(at, swap, true, true);
      }
      store := at;
      return Ok(ids);
    }

    method BatchInitiateEscrow(
        token: Token, ips: seq<IpId>, seller: Address, prices: seq<I128>, buyer: Address, timeouts: seq<nat>)
      returns (r: Result<seq<SwapId>>)
      modifies this
      ensures Commits(r, old(store), store,
                      SwapSpec.BatchInitiateEscrow(old(store), token, ips, seller, prices, buyer, timeouts))
      ensures r.Ok? ==> |r.value| == |ips| && forall k :: 0 <= k < |ips| ==> r.value[k] == old(store).nextId + k
    {
      var at := store;
      if at.world.paused {
        return Err(Paused);
      }
      if seller.Contract? {
        return Err(NotAuthorized);
      }
      if |ips| == 0 || |prices| != |ips| || |timeouts| != |ips| {
        return Err(PriceTooSmall);
      }
      var ids := [];
      for i := 0 to |ips|
        invariant store == old(store)
        invariant OpenEscrows(store, token, seller, buyer, ips, prices, timeouts)
          == OpenEscrows(at, token, seller, buyer, ips[i..], prices[i..], timeouts[i..])
        invariant at.nextId == store.nextId + i && |ids| == i
        invariant forall k :: 0 <= k < i ==> ids[k] == store.nextId + k
      {
        assert ips[i..][1..] == ips[i + 1..] && prices[i..][1..] == prices[i + 1..]
          && timeouts[i..][1..] == timeouts[i + 1..];
        :- RequireOffer(at, ips[i], seller, prices[i]);
        var id := at.nextId;
        at := StoreNew(at, NewRecord(at, token, ips[i], seller, prices[i], buyer).(expiry := timeouts[i]), true, true);
        at := at.(side := at.side.(escrowMode := at.side.escrowMode + {id}));
        ids := ids + [id];
      }
      store := at;
      return Ok(ids);
    }

    // ── Acceptance ─────────────────────────────────────────────────────────

    method AcceptSwap(id: SwapId) returns (r: Result<()>)
      modifies this
      ensures Commits(r, old(store), store, Do(old(store), id, AcceptPlan(old(store), id)))
    {
      var at := store;
      if at.world.paused {
        return Err(Paused);
      }
      if id !in at.swaps {
        return Err(SwapNotFound);
      }
      var swap := at.swaps[id];
      if swap.buyer.Contract? {
        return Err(NotAuthorized);
      }
      if swap.status != Pending {
        return Err(NotPending);
      }
      if swap.requiredApprovals > 0 && |Lookup(at.side.approvals, id, [])| < swap.requiredApprovals {
        return Err(NeedApprovals);
      }
      var met := EvaluateConditions(swap.conditions, swap.price, at.now);
      if !met {
        return Err(ConditionNotMet);
      }
      if id in at.side.minReputation && Lookup(at.reputation, swap.buyer, 50) < at.side.minReputation[id] {
        return Err(InsufficientReputation);
      }
      if swap.collateralAmount > 0 && id in at.vault.collateral {
        return Err(AlreadyInit);
      }
      at :- StoreAccepted(at, id, swap, swap.collateralAmount > 0);
      store := at;
      return Ok(());
    }

    method AcceptSwapConditional(id: SwapId, conditions: seq<Condition>) returns (r: Result<()>)
      modifies this
      ensures Commits(r, old(store), store, Do(old(store), id, AcceptConditionalPlan(old(store), id, conditions)))
    {
      var at := store;
      if at.world.paused {
        return Err(Paused);
      }
      if id !in at.swaps {
        return Err(SwapNotFound);
      }
      var swap := at.swaps[id];
      if swap.buyer.Contract? {
        return Err(NotAuthorized);
      }
      if swap.status != Pending {
        return Err(NotPending);
      }
      if swap.requiredApprovals > 0 && |Lookup(at.side.approvals, id, [])| < swap.requiredApprovals {
        return Err(NeedApprovals);
      }
      swap := swap.(conditions := conditions);
      var met := EvaluateConditions(swap.conditions, swap.price, at.now);
      if !met {
        return Err(ConditionNotMet);
      }
      var bank :- Pay(at.bank, swap.token, swap.buyer, Contract, swap.price, Done);
      at := at.(bank := bank);
      at := at.(swaps := at.swaps[id := swap.(acceptedAt := at.now, status := Accepted)]);
      store := AppendHistory(at, id, Accepted);
      return Ok(());
    }

    method AcceptSwapPartial(id: SwapId, quantity: nat) returns (r: Result<()>)
      modifies this
      ensures Commits(r, old(store), store, Do(old(store), id, AcceptPartialPlan(old(store), id, quantity)))
    {
      var at := store;
      if at.world.paused {
        return Err(Paused);
      }
      if id !in at.swaps {
        return Err(SwapNotFound);
      }
      var swap := at.swaps[id];
      if swap.buyer.Contract? {
        return Err(NotAuthorized);
      }
      if swap.status != Pending {
        return Err(NotPending);
      }
      if quantity == 0 || quantity > swap.quantity {
        return Err(InvalidKey);
      }
      if !Fits(swap.price * quantity) {
        return Err(Trap);
      }
      var part := TruncDiv(swap.price * quantity, swap.quantity);
      var bank :- Pay(at.bank, swap.token, swap.buyer, Contract, part, Done);
      at := at.(bank := bank);
      swap := swap.(price := part, quantity := quantity);
      at := at.(swaps := at.swaps[id := swap.(acceptedAt := at.now, status := Accepted)]);
      store := AppendHistory(at, id, Accepted);
      return Ok(());
    }

    method EscrowDeposit(id: SwapId) returns (r: Result<()>)
      modifies this
      ensures Commits(r, old(store), store, Do(old(store), id, EscrowDepositPlan(old(store), id)))
    {
      var at := store;
      if id !in at.swaps {
        return Err(SwapNotFound);
      }
      var swap := at.swaps[id];
      if swap.buyer.Contract? {
        return Err(NotAuthorized);
      }
      at :- StoreDeposit(at, id, swap);
      store := at;
      return Ok(());
    }

    method BatchEscrowDeposit(ids: seq<SwapId>, buyer: Address) returns (r: Result<()>)
      modifies this
      ensures Commits(r, old(store), store, SwapSpec.BatchEscrowDeposit(old(store), ids, buyer))
    {
      if buyer.Contract? {
        return Err(NotAuthorized);
      }
      var at := store;
      for i := 0 to |ids|
        invariant store == old(store) && DepositAll(store, ids, buyer) == DepositAll(at, ids[i..], buyer)
      {
        assert ids[i..][1..] == ids[i + 1..];
        var id := ids[i];
        if id !in at.swaps {
          return Err(SwapNotFound);
        }
        if at.swaps[id].buyer != buyer {
          return Err(Unauthorized);
        }
        at :- StoreDeposit(at, id, at.swaps[id]);
      }
      store := at;
      return Ok(());
    }

    method BatchAcceptSwaps(ids: seq<SwapId>, buyer: Address) returns (r: Result<()>)
      modifies this
      ensures Commits(r, old(store), store, BatchAccept(old(store), ids, buyer))
    {
      var at := store;
      if at.world.paused {
        return Err(Paused);
      }
      if buyer.Contract? {
        return Err(NotAuthorized);
      }
      if ids == [] {
        return Err(BatchEmpty);
      }
      if |ids| > MAX_BATCH_SIZE {
        return Err(BatchTooLarge);
      }
      for i := 0 to |ids|
        invariant ValidateAccepts(at, ids, buyer) == ValidateAccepts(at, ids[i..], buyer)
      {
        assert ids[i..][1..] == ids[i + 1..];
        var id := ids[i];
        if id !in at.swaps {
          return Err(SwapNotFound);
        }
        var swap := at.swaps[id];
        if swap.buyer != buyer {
          return Err(Unauthorized);
        }
        if swap.status != Pending {
          return Err(NotPending);
        }
        if swap.requiredApprovals > 0 && |Lookup(at.side.approvals, id, [])| < swap.requiredApprovals {
          return Err(NeedApprovals);
        }
      }
      for i := 0 to |ids|
        invariant store == old(store) && AcceptAll(store, ids) == AcceptAll(at, ids[i..])
      {
        assert ids[i..][1..] == ids[i + 1..];
        var id := ids[i];
        if id !in at.swaps {
          return Err(SwapNotFound);
        }
        var swap := at.swaps[id];
        at :- StoreAccepted(at, id, swap, swap.collateralAmount > 0 && id !in at.vault.collateral);
      }
      store := at;
      return Ok(());
    }

    method SubmitInstallmentPayment(id: SwapId, amount: I128) returns (r: Result<()>)
      modifies this
      ensures Commits(r, old(store), store, Do(old(store), id, SubmitInstallmentPlan(old(store), id, amount)))
    {
      var at := store;
      if id !in at.swaps {
        return Err(SwapNotFound);
      }
      var swap := at.swaps[id];
      if swap.buyer.Contract? {
        return Err(NotAuthorized);
      }
      if !swap.installment {
        return Err(NotPending);
      }
      if swap.status != Pending {
        return Err(NotPending);
      }
      if amount <= 0 {
        return Err(PriceTooSmall);
      }
      var remaining := SatAdd(swap.price, -swap.paid);
      if amount > remaining {
        return Err(PriceTooSmall);
      }
      var bank :- Pay(at.bank, swap.token, swap.buyer, Contract, amount, Done);
      at := at.(bank := bank);
      swap := swap.(paid := SatAdd(swap.paid, amount));
      if swap.paid >= swap.price {
        swap := swap.(status := Accepted, acceptedAt := at.now);
        at := AppendHistory(at, id, Accepted);
      }
      store := at.(swaps := at.swaps[id := swap]);
      return Ok(());
    }

    method MakeScheduledPayment(id: SwapId, index: nat) returns (r: Result<()>)
      modifies this
      ensures Commits(r, old(store), store, Do(old(store), id, ScheduledPaymentPlan(old(store), id, index)))
    {
      var at := store;
      if id !in at.swaps {
        return Err(SwapNotFound);
      }
      var swap := at.swaps[id];
      if swap.buyer.Contract? {
        return Err(NotAuthorized);
      }
      if id !in at.side.schedules {
        return Err(SwapNotFound);
      }
      var schedule := at.side.schedules[id];
      if index >= |schedule| {
        return Err(InvalidKey);
      }
      var made := Lookup(at.side.paymentsMade, id, []);
      if index < |made| && made[index] {
        return Err(AlreadyInit);
      }
      if at.now < schedule[index].due {
        return Err(NotExpired);
      }
      var bank :- Pay(at.bank, swap.token, swap.buyer, Contract, schedule[index].amount, Gate(index < |made|, Done));
      if index >= |made| {
        return Err(Trap);
      }
      made := made[index := true];
      at := at.(bank := bank);
      at := at.(side := at.side.(paymentsMade := at.side.paymentsMade[id := made]));
      var all := AllMade(made);
      if all {
        swap := swap.(status := Accepted, acceptedAt := at.now);
        at := AppendHistory(at, id, Accepted);
      }
      store := at.(swaps := at.swaps[id := swap]);
      return Ok(());
    }

    // ── Changes that leave a swap's status alone ───────────────────────────

    method RenegotiateSwap(id: SwapId, price: I128) returns (r: Result<()>)
      modifies this
      ensures Commits(r, old(store), store, Do(old(store), id, RenegotiatePlan(old(store), id, price)))
    {
      var at := store;
      if at.world.paused {
        return Err(Paused);
      }
      if id !in at.swaps {
        return Err(SwapNotFound);
      }
      var swap := at.swaps[id];
      if swap.status != Pending {
        return Err(NotPending);
      }
      if swap.seller.Contract? {
        return Err(NotAuthorized);
      }
      if price <= 0 {
        return Err(PriceTooSmall);
      }
      store := at.(side := at.side.(offers := at.side.offers[id := price]));
      return Ok(());
    }

    method AcceptRenegotiation(id: SwapId) returns (r: Result<()>)
      modifies this
      ensures Commits(r, old(store), store, Do(old(store), id, AcceptRenegotiationPlan(old(store), id)))
    {
      var at := store;
      if at.world.paused {
        return Err(Paused);
      }
      if id !in at.swaps {
        return Err(SwapNotFound);
      }
      var swap := at.swaps[id];
      if swap.status != Pending {
        return Err(NotPending);
      }
      if swap.buyer.Contract? {
        return Err(NotAuthorized);
      }
      if id !in at.side.offers {
        return Err(SwapNotFound);
      }
      swap := swap.(price := at.side.offers[id]);
      at := at.(swaps := at.swaps[id := swap]);
      store := at.(side := at.side.(offers := at.side.offers - {id}));
      return Ok(());
    }

    method ExtendSwapExpiry(id: SwapId, expiry: nat) returns (r: Result<()>)
      modifies this
      ensures Commits(r, old(store), store, Do(old(store), id, ExtendExpiryPlan(old(store), id, expiry)))
    {
      var at := store;
      if id !in at.swaps {
        return Err(SwapNotFound);
      }
      var swap := at.swaps[id];
      if swap.seller.Contract? {
        return Err(NotAuthorized);
      }
      if swap.status != Pending {
        return Err(NotPending);
      }
      if expiry <= swap.expiry {
        return Err(ExpiryNotGreater);
      }
      store := at.(swaps := at.swaps[id := swap.(expiry := expiry)]);
      return Ok(());
    }

    method ApproveSwap(id: SwapId, approver: Address) returns (r: Result<()>)
      modifies this
      ensures Commits(r, old(store), store, Do(old(store), id, ApprovePlan(old(store), id, approver)))
    {
      var at := store;
      if approver.Contract? {
        return Err(NotAuthorized);
      }
      if id !in at.swaps {
        return Err(SwapNotFound);
      }
      if at.swaps[id].status != Pending {
        return Err(NotPending);
      }
      var approvals := Lookup(at.side.approvals, id, []);
      var found := Contains(approvals, approver);
      if found {
        return Err(AlreadyApproved);
      }
      approvals := approvals + [approver];
      store := at.(side := at.side.(approvals := at.side.approvals[id := approvals]));
      return Ok(());
    }

    method SetReputationMultiplier(id: SwapId, minimum: nat) returns (r: Result<()>)
      modifies this
      ensures Commits(r, old(store), store, Do(old(store), id, SetMinReputationPlan(old(store), id, minimum)))
    {
      var at := store;
      if id !in at.swaps {
        return Err(SwapNotFound);
      }
      var swap := at.swaps[id];
      if swap.seller.Contract? {
        return Err(NotAuthorized);
      }
      if swap.status != Pending {
        return Err(NotPending);
      }
      store := at.(side := at.side.(minReputation := at.side.minReputation[id := minimum]));
      return Ok(());
    }

    method SignSwapReveal(id: SwapId, signer: Address) returns (r: Result<()>)
      modifies this
      ensures Commits(r, old(store), store, Do(old(store), id, SignRevealPlan(old(store), id, signer)))
    {
      var at := store;
      if signer.Contract? {
        return Err(NotAuthorized);
      }
      if id !in at.swaps {
        return Err(SwapNotFound);
      }
      if at.swaps[id].status != Accepted {
        return Err(NotAccepted);
      }
      if id !in at.side.signers {
        return Err(Unauthorized);
      }
      var required := Contains(at.side.signers[id], signer);
      if !required {
        return Err(NotARequiredSigner);
      }
      var signed := Lookup(at.side.signatures, id, []);
      var found := Contains(signed, signer);
      if found {
        return Err(AlreadySigned);
      }
      signed := signed + [signer];
      store := at.(side := at.side.(signatures := at.side.signatures[id := signed]));
      return Ok(());
    }

    method RequestArbitration(id: SwapId, requester: Address) returns (r: Result<()>)
      modifies this
      ensures Commits(r, old(store), store, Do(old(store), id, RequestArbitrationPlan(old(store), id, requester)))
    {
      var at := store;
      if id !in at.swaps {
        return Err(SwapNotFound);
      }
      var swap := at.swaps[id];
      if requester.Contract? {
        return Err(NotAuthorized);
      }
      if requester != swap.buyer && requester != swap.seller {
        return Err(Unauthorized);
      }
      if swap.status != Disputed {
        return Err(NotDisputed);
      }
      if id !in at.side.arbitrationAt {
        at := at.(side := at.side.(arbitrationAt := at.side.arbitrationAt[id := at.now]));
      }
      store := at;
      return Ok(());
    }

    // ── Disputes ───────────────────────────────────────────────────────────

    method RaiseDispute(id: SwapId) returns (r: Result<()>)
      modifies this
      ensures Commits(r, old(store), store, Do(old(store), id, RaiseDisputePlan(old(store), id)))
    {
      var at := store;
      if id !in at.swaps {
        return Err(SwapNotFound);
      }
      var swap := at.swaps[id];
      if swap.buyer.Contract? {
        return Err(NotAuthorized);
      }
      if swap.status != Accepted {
        return Err(NotAccepted);
      }
      if Elapsed(at.now, swap.acceptedAt) >= DISPUTE_WINDOW {
        return Err(DisputeExpired);
      }
      swap := swap.(status := Disputed);
      swap := swap.(disputedAt := at.now);
      store := at.(swaps := at.swaps[id := swap]);
      return Ok(());
    }

    method ResolveDispute(id: SwapId, caller: Address, refunded: bool) returns (r: Result<()>)
      modifies this
      ensures Commits(r, old(store), store, Do(old(store), id, ResolveDisputePlan(old(store), id, caller, refunded)))
    {
      var at := store;
      if caller.Contract? {
        return Err(NotAuthorized);
      }
      if at.world.admin != Some(caller) {
        return Err(Unauthorized);
      }
      if id !in at.swaps {
        return Err(SwapNotFound);
      }
      var swap := at.swaps[id];
      if swap.status != Disputed {
        return Err(NotDisputed);
      }
      var bank := at.bank;
      if refunded {
        at := StoreClosed(at, id, swap, Cancelled);
        bank :- Pay(bank, swap.token, Contract, swap.buyer, swap.price, Done);
      } else {
        at := StoreClosed(at, id, swap, Completed);
        if !Fits(swap.price * PROTOCOL_FEE_BPS) {
          return Err(Trap);
        }
        var fee := TruncDiv(swap.price * PROTOCOL_FEE_BPS, 10_000);
        bank :- PaySome(bank, swap.token, TREASURY, fee, Give(swap.seller, swap.price - fee, Done));
        bank :- Pay(bank, swap.token, Contract, swap.seller, swap.price - fee, Done);
      }
      store := at.(bank := bank);
      return Ok(());
    }

    method AutoResolveDispute(id: SwapId) returns (r: Result<()>)
      modifies this
      ensures Commits(r, old(store), store, Do(old(store), id, AutoResolveDisputePlan(old(store), id)))
    {
      var at := store;
      if id !in at.swaps {
        return Err(SwapNotFound);
      }
      var swap := at.swaps[id];
      if swap.status != Disputed {
        return Err(NotDisputed);
      }
      if Elapsed(at.now, swap.disputedAt) < DISPUTE_TIMEOUT {
        return Err(NotExpired);
      }
      at := StoreClosed(at, id, swap, Cancelled);
      var bank :- Pay(at.bank, swap.token, Contract, swap.buyer, swap.price, Done);
      store := at.(bank := bank);
      return Ok(());
    }

    method AutoRefundTimeout(id: SwapId) returns (r: Result<()>)
      modifies this
      ensures Commits(r, old(store), store, Do(old(store), id, AutoRefundTimeoutPlan(old(store), id)))
    {
      var at := store;
      if id !in at.swaps {
        return Err(SwapNotFound);
      }
      var swap := at.swaps[id];
      if swap.status != Disputed {
        return Err(NotDisputed);
      }
      if id !in at.side.arbitrationAt {
        return Err(NotDisputed);
      }
      if Elapsed(at.now, at.side.arbitrationAt[id]) < ARBITRATION_TIMEOUT {
        return Err(ArbitrationNotTimedOut);
      }
      at := StoreClosed(at, id, swap, Cancelled);
      at := at.(side := at.side.(arbitrationAt := at.side.arbitrationAt - {id}));
      var bank :- Pay(at.bank, swap.token, Contract, swap.buyer, swap.price, Done);
      at := at.(bank := bank);
      store := AppendHistory(at, id, Cancelled);
      return Ok(());
    }

    method ArbitrateSwap(id: SwapId, arbitrator: Address, refund: bool) returns (r: Result<()>)
      modifies this
      ensures Commits(r, old(store), store, Do(old(store), id, ArbitratePlan(old(store), id, arbitrator, refund)))
    {
      var at := store;
      if id !in at.swaps {
        return Err(SwapNotFound);
      }
      var swap := at.swaps[id];
      if arbitrator.Contract? {
        return Err(NotAuthorized);
      }
      var bank, vault, status := at.bank, at.vault, Cancelled;
      if refund {
        bank, vault :- PayBack(bank, vault, id, swap);
      } else {
        status := Completed;
        var fee :- Bps(swap.price, PROTOCOL_FEE_BPS);
        bank, vault :- PayOutArbitrated(bank, vault, id, swap, fee);
      }
      store := StoreClosed(at.(bank := bank, vault := vault), id, swap, status);
      return Ok(());
    }

    method BatchArbitrateSwaps(ids: seq<SwapId>, arbitrator: Address, refund: bool) returns (r: Result<()>)
      modifies this
      ensures Commits(r, old(store), store, BatchArbitrate(old(store), ids, arbitrator, refund))
    {
      if arbitrator.Contract? {
        return Err(NotAuthorized);
      }
      var at := store;
      for i := 0 to |ids|
        invariant store == old(store) && ArbitrateAll(store, ids, refund) == ArbitrateAll(at, ids[i..], refund)
      {
        assert ids[i..][1..] == ids[i + 1..];
        at :- BatchArbitrateItem(at, ids[i], refund);
      }
      store := at;
      return Ok(());
    }

    // ── Settlement ─────────────────────────────────────────────────────────

    method RevealKey(id: SwapId, caller: Address, digest: Digest) returns (r: Result<()>)
      modifies this
      ensures Commits(r, old(store), store, Do(old(store), id, RevealPlan(old(store), id, caller, digest)))
    {
      var checked := CheckReveal(id, caller, digest);
      :- checked;
      var at := store;
      var swap := at.swaps[id];
      var fee :- Bps(swap.price, PROTOCOL_FEE_BPS);
      var referral :- Referral(swap);
      at := StoreClosed(at, id, swap, Completed);
      at := at.(side := at.side.(completedAt := at.side.completedAt[id := at.now]));
      at := AppendHistory(at, id, Completed);
      var bank, vault :- PayForKey(at.bank, at.vault, id, swap, fee, referral);
      at := at.(bank := bank, vault := vault);
      at := UpdateReputation(at, swap.seller, 5);
      at := UpdateReputation(at, swap.buyer, 5);
      store := at;
      return Ok(());
    }

    method CheckReveal(id: SwapId, caller: Address, digest: Digest) returns (c: Check)
      ensures c == RevealGuard(store, id, caller, digest)
    {
      if id !in store.swaps {
        return Fail(SwapNotFound);
      }
      var swap := store.swaps[id];
      if caller != swap.seller {
        return Fail(OnlySellerReveal);
      }
      if caller.Contract? {
        return Fail(NotAuthorized);
      }
      if swap.status != Accepted {
        return Fail(NotAccepted);
      }
      if id in store.side.signers && |Lookup(store.side.signatures, id, [])| < |store.side.signers[id]| {
        return Fail(NotAllSigned);
      }
      if swap.ip !in store.world.ips {
        return Fail(IpNotFound);
      }
      if store.world.ips[swap.ip].commitment != digest {
        return Fail(InvalidKey);
      }
      var met := EvaluateConditions(swap.conditions, swap.price, store.now);
      return if met then Pass else Fail(ConditionNotMet);
    }

    method VerifyAndCompleteSwap(id: SwapId, caller: Address, digest: Digest) returns (r: Result<()>)
      modifies this
      ensures Commits(r, old(store), store, Do(old(store), id, VerifyAndCompletePlan(old(store), id, caller, digest)))
    {
      var at := store;
      if id !in at.swaps {
        return Err(SwapNotFound);
      }
      var swap := at.swaps[id];
      if caller != swap.seller {
        return Err(OnlySellerReveal);
      }
      if caller.Contract? {
        return Err(NotAuthorized);
      }
      if swap.status != Accepted {
        return Err(NotAccepted);
      }
      if swap.ip !in at.world.ips {
        return Err(IpNotFound);
      }
      var bank, vault, status := at.bank, at.vault, Cancelled;
      if at.world.ips[swap.ip].commitment != digest {
        bank, vault :- PayBack(bank, vault, id, swap);
      } else {
        status := Completed;
        var fee :- Bps(swap.price, PROTOCOL_FEE_BPS);
        bank, vault :- PayOut(bank, vault, id, swap, fee);
      }
      store := StoreClosed(at.(bank := bank, vault := vault), id, swap, status);
      return Ok(());
    }

    method BatchRevealKeys(ids: seq<SwapId>, digests: seq<Digest>, seller: Address) returns (r: Result<()>)
      modifies this
      ensures Commits(r, old(store), store, BatchReveal(old(store), ids, digests, seller))
    {
      if seller.Contract? {
        return Err(NotAuthorized);
      }
      if ids == [] {
        return Err(BatchEmpty);
      }
      if |digests| != |ids| {
        return Err(BatchSizeMismatch);
      }
      if |ids| > MAX_BATCH_SIZE {
        return Err(BatchTooLarge);
      }
      var at := store;
      for i := 0 to |ids|
        invariant ValidateReveals(at, ids, seller, digests) == ValidateReveals(at, ids[i..], seller, digests[i..])
      {
        assert ids[i..][1..] == ids[i + 1..] && digests[i..][1..] == digests[i + 1..];
        var id := ids[i];
        if id !in at.swaps {
          return Err(SwapNotFound);
        }
        var swap := at.swaps[id];
        if seller != swap.seller {
          return Err(OnlySellerReveal);
        }
        if swap.status != Accepted {
          return Err(NotAccepted);
        }
        if swap.ip !in at.world.ips {
          return Err(IpNotFound);
        }
        if at.world.ips[swap.ip].commitment != digests[i] {
          return Err(InvalidKey);
        }
      }
      for i := 0 to |ids|
        invariant store == old(store) && RevealAll(store, ids) == RevealAll(at, ids[i..])
      {
        assert ids[i..][1..] == ids[i + 1..];
        at :- BatchRevealItem(at, ids[i]);
      }
      store := at;
      return Ok(());
    }

    // ── Cancellation, refund and rollback ──────────────────────────────────

    method CancelSwap(id: SwapId, canceller: Address) returns (r: Result<()>)
      modifies this
      ensures Commits(r, old(store), store, Do(old(store), id, CancelPlan(old(store), id, canceller)))
    {
      var at :- CancelItem(store, id, canceller);
      store := at;
      return Ok(());
    }

    method BatchCancelSwaps(ids: seq<SwapId>, canceller: Address, reasons: nat) returns (r: Result<seq<SwapId>>)
      modifies this
      ensures Commits(r, old(store), store, BatchCancel(old(store), ids, canceller, reasons))
      ensures r.Ok? ==> r.value == ids
    {
      if canceller.Contract? {
        return Err(NotAuthorized);
      }
      if reasons != |ids| {
        return Err(InvalidKey);
      }
      var at, cancelled :- CancelItems(store, ids, canceller);
      store := at;
      return Ok(cancelled);
    }

    method CancelPendingSwap(id: SwapId, caller: Address) returns (r: Result<()>)
      modifies this
      ensures Commits(r, old(store), store, Do(old(store), id, CancelPendingPlan(old(store), id, caller)))
    {
      var at := store;
      if id !in at.swaps {
        return Err(SwapNotFound);
      }
      var swap := at.swaps[id];
      if caller != swap.buyer {
        return Err(OnlyBuyerCancel);
      }
      if caller.Contract? {
        return Err(NotAuthorized);
      }
      if swap.status != Pending {
        return Err(NotPending);
      }
      if at.now < swap.expiry {
        return Err(PendingNotExpired);
      }
      at := StoreClosed(at, id, swap, Cancelled);
      store := AppendHistory(at, id, Cancelled);
      return Ok(());
    }

    method CancelExpiredSwap(id: SwapId, caller: Address) returns (r: Result<()>)
      modifies this
      ensures Commits(r, old(store), store, Do(old(store), id, CancelExpiredPlan(old(store), id, caller)))
    {
      var at := store;
      if id !in at.swaps {
        return Err(SwapNotFound);
      }
      var swap := at.swaps[id];
      if swap.status != Accepted {
        return Err(NotInAccepted);
      }
      if caller != swap.buyer {
        return Err(OnlyBuyerCancel);
      }
      if at.now <= swap.expiry {
        return Err(NotExpired);
      }
      at := StoreClosed(at, id, swap, Cancelled);
      var bank, vault :- PayBack(at.bank, at.vault, id, swap);
      at := at.(bank := bank, vault := vault);
      at := AppendHistory(at, id, Cancelled);
      store := UpdateReputation(at, swap.seller, -10);
      return Ok(());
    }

    method EscrowWithdraw(id: SwapId) returns (r: Result<()>)
      modifies this
      ensures Commits(r, old(store), store, Do(old(store), id, EscrowWithdrawPlan(old(store), id)))
    {
      var at := store;
      if id !in at.swaps {
        return Err(SwapNotFound);
      }
      var swap := at.swaps[id];
      if swap.buyer.Contract? {
        return Err(NotAuthorized);
      }
      if id !in at.side.escrowMode {
        return Err(Unauthorized);
      }
      if swap.status != Accepted {
        return Err(NotAccepted);
      }
      if at.now <= swap.expiry {
        return Err(NotExpired);
      }
      var deposit := Lookup(at.vault.deposits, id, 0);
      at := StoreClosed(at, id, swap, Cancelled);
      at := at.(vault := at.vault.(deposits := at.vault.deposits - {id}));
      at := AppendHistory(at, id, Cancelled);
      var bank :- PaySome(at.bank, swap.token, swap.buyer, deposit, Done);
      store := at.(bank := bank);
      return Ok(());
    }

    method AdminRollbackSwap(id: SwapId, caller: Address) returns (r: Result<()>)
      modifies this
      ensures Commits(r, old(store), store, Do(old(store), id, AdminRollbackPlan(old(store), id, caller)))
    {
      var at := store;
      if caller.Contract? {
        return Err(NotAuthorized);
      }
      if at.world.admin != Some(caller) {
        return Err(Unauthorized);
      }
      if id !in at.swaps {
        return Err(SwapNotFound);
      }
      if at.swaps[id].status == Completed {
        return Err(NotInAccepted);
      }
      at :- RollBackItem(at, id, at.swaps[id]);
      store := at;
      return Ok(());
    }

    method BatchRollbackSwaps(ids: seq<SwapId>, caller: Address) returns (r: Result<()>)
      modifies this
      ensures Commits(r, old(store), store, BatchRollback(old(store), ids, caller))
    {
      var at := store;
      if caller.Contract? {
        return Err(NotAuthorized);
      }
      if at.world.admin != Some(caller) {
        return Err(Unauthorized);
      }
      if ids == [] {
        return Err(BatchEmpty);
      }
      if |ids| > MAX_BATCH_SIZE {
        return Err(BatchTooLarge);
      }
      for i := 0 to |ids|
        invariant ValidateRollbacks(at, ids) == ValidateRollbacks(at, ids[i..])
      {
        assert ids[i..][1..] == ids[i + 1..];
        if ids[i] !in at.swaps {
          return Err(SwapNotFound);
        }
        if at.swaps[ids[i]].status == Completed {
          return Err(NotInAccepted);
        }
      }
      for i := 0 to |ids|
        invariant store == old(store) && RollBackAll(store, ids) == RollBackAll(at, ids[i..])
      {
        assert ids[i..][1..] == ids[i + 1..];
        if ids[i] !in at.swaps {
          return Err(SwapNotFound);
        }
        at :- RollBackItem(at, ids[i], at.swaps[ids[i]]);
      }
      store := at;
      return Ok(());
    }

    /** Answers whether the swap was rolled back. */
    method ValidateAndRollbackSwap(id: SwapId, keyValid: bool) returns (r: Result<bool>)
      modifies this
      ensures Commits(r, old(store), store, Do(old(store), id, ValidateAndRollbackPlan(old(store), id, keyValid)))
      ensures r.Ok? ==> id in store.swaps && (r.value <==> store.swaps[id].status == RolledBack)
    {
      var at := store;
      if id !in at.swaps {
        return Err(SwapNotFound);
      }
      var swap := at.swaps[id];
      if swap.buyer.Contract? {
        return Err(NotAuthorized);
      }
      if swap.status != Completed {
        return Err(NotInAccepted);
      }
      if Elapsed(at.now, Lookup(at.side.completedAt, id, 0)) > ROLLBACK_WINDOW {
        return Err(RollbackWindowExpired);
      }
      if keyValid {
        assert at.swaps[id := swap] == at.swaps;
        return Ok(false);
      }
      if !Fits(swap.price * 90) {
        return Err(Trap);
      }
      var refund := TruncDiv(swap.price * 90, 100);
      var penalty := swap.price - refund;
      var bank :- Pay(at.bank, swap.token, Contract, swap.buyer, refund, GiveSome(TREASURY, penalty, Done));
      bank :- PaySome(bank, swap.token, TREASURY, penalty, Done);
      at := at.(bank := bank);
      at := at.(swaps := at.swaps[id := swap.(status := RolledBack)]);
      at := at.(side := at.side.(completedAt := at.side.completedAt - {id}));
      store := AppendHistory(at, id, RolledBack);
      return Ok(true);
    }

    method ClaimInsurance(id: SwapId) returns (r: Result<()>)
      modifies this
      ensures Commits(r, old(store), store, Do(old(store), id, ClaimInsurancePlan(old(store), id)))
    {
      var at := store;
      if id !in at.swaps {
        return Err(SwapNotFound);
      }
      var swap := at.swaps[id];
      if swap.buyer.Contract? {
        return Err(NotAuthorized);
      }
      if !swap.insured {
        return Err(Unauthorized);
      }
      if id !in at.side.claimable {
        return Err(Unauthorized);
      }
      assert at.swaps[id := swap] == at.swaps;
      var pool := Pool(at.vault, swap.token);
      var payout := if pool >= swap.price then swap.price else pool;
      var bank :- Pay(at.bank, swap.token, Contract, swap.buyer, payout, Done);
      at := at.(bank := bank);
      at := at.(vault := at.vault.(pool := at.vault.pool[swap.token := pool - payout]));
      store := at.(side := at.side.(claimable := at.side.claimable - {id}));
      return Ok(());
    }

    // ── Auctions ───────────────────────────────────────────────────────────

    method StartIpAuction(token: Token, ip: IpId, seller: Address, minBid: I128, duration: nat)
      returns (r: Result<AuctionId>)
      modifies this
      ensures Commits(r, old(store), store, StartAuction(old(store), token, ip, seller, minBid, duration))
      ensures r.Ok? ==> r.value == old(store).house.next
    {
      var at := store;
      if at.world.paused {
        return Err(Paused);
      }
      if seller.Contract? {
        return Err(NotAuthorized);
      }
      if minBid <= 0 {
        return Err(PriceTooSmall);
      }
      :- RequireOwnsActiveIp(at, ip, seller);
      if ip in at.house.open {
        return Err(SwapExists);
      }
      var id := at.house.next;
      var start := at.now;
      if start + duration > U64_MAX {
        return Err(Trap);
      }
      var auction := Auction(ip, seller, token, minBid, 0, None, start, start + duration, false);
      var house := at.house.(auctions := at.house.auctions[id := auction]);
      house := house.(open := house.open[ip := id]);
      house := house.(next := id + 1);
      store := at.(house := house);
      return Ok(id);
    }

    method PlaceBid(id: AuctionId, bidder: Address, amount: I128) returns (r: Result<()>)
      modifies this
      ensures Commits(r, old(store), store, SwapSpec.PlaceBid(old(store), id, bidder, amount))
    {
      var at := store;
      if bidder.Contract? {
        return Err(NotAuthorized);
      }
      if id !in at.house.auctions {
        return Err(SwapNotFound);
      }
      var auction := at.house.auctions[id];
      if auction.finalized {
        return Err(AlreadyInit);
      }
      if at.now >= auction.endTime {
        return Err(NotExpired);
      }
      if amount < auction.minBid {
        return Err(PriceTooSmall);
      }
      if amount <= auction.highestBid {
        return Err(PriceTooSmall);
      }
      var bank := at.bank;
      if auction.highestBidder.Some? {
        bank :- Pay(bank, auction.token, Contract, auction.highestBidder.value,
                    auction.highestBid, Take(bidder, amount, Done));
      }
      bank :- Pay(bank, auction.token, bidder, Contract, amount, Done);
      auction := auction.(highestBid := amount);
      auction := auction.(highestBidder := Some(bidder));
      at := at.(bank := bank);
      store := at.(house := at.house.(auctions := at.house.auctions[id := auction]));
      return Ok(());
    }

    method FinalizeAuction(id: AuctionId) returns (r: Result<()>)
      modifies this
      ensures Commits(r, old(store), store, SwapSpec.FinalizeAuction(old(store), id))
    {
      var at := store;
      if id !in at.house.auctions {
        return Err(SwapNotFound);
      }
      var auction := at.house.auctions[id];
      if auction.finalized {
        return Err(AlreadyInit);
      }
      if at.now < auction.endTime {
        return Err(NotExpired);
      }
      at := at.(house := at.house.(auctions := at.house.auctions[id := auction.(finalized := true)]));
      at := at.(house := at.house.(open := at.house.open - {auction.ip}));
      if auction.highestBidder.Some? {
        var swap := NewRecord(at, auction.token, auction.ip, auction.seller,
                              auction.highestBid, auction.highestBidder.value);
        at := StoreNew(at, swap.(status := Accepted, acceptedAt := at.now), false, true);
      }
      store := at;
      return Ok(());
    }
  }
}

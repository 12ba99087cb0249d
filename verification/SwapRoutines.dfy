/** The routines that the entry points of the atomic swap contract share, step by step. */
module SwapRoutines {
  import opened Common
  import opened SwapState
  import opened SwapSpec

  // ── Searches and checks made in loops ────────────────────────────────────

  method EvaluateConditions(conditions: seq<Condition>, price: int, now: nat) returns (ok: bool)
    ensures ok <==> AllHold(conditions, price, now)
  {
    for i := 0 to |conditions|
      invariant forall j :: 0 <= j < i ==> Holds(conditions[j], price, now)
    {
      var holds := true;
      match conditions[i] {
        case KeyValid =>
        case PriceBelow(threshold) => holds := price < threshold;
        case TimeAfter(timestamp) => holds := now >= timestamp;
      }
      if !holds {
        assert conditions[i] in conditions;
        return false;
      }
    }
    return true;
  }

  method AllMade(made: seq<bool>) returns (all: bool)
    ensures all <==> AllPaid(made)
  {
    for i := 0 to |made|
      invariant forall j :: 0 <= j < i ==> made[j]
    {
      if !made[i] {
        return false;
      }
    }
    return true;
  }

  /** The read-only pass over a batch of offers. Each item is compared with all that follow it. */
  method CheckOffers(s: State, seller: Address, ips: seq<IpId>, prices: seq<I128>) returns (c: Check)
    requires |ips| == |prices|
    ensures c == ValidateOffers(s, seller, ips, prices)
  {
    for i := 0 to |ips|
      invariant ValidateOffers(s, seller, ips, prices) == ValidateOffers(s, seller, ips[i..], prices[i..])
    {
      assert ips[i..][1..] == ips[i + 1..] && prices[i..][1..] == prices[i + 1..];
      var offer := RequireOffer(s, ips[i], seller, prices[i]);
      if offer.Fail? {
        return offer;
      }
      for j := i + 1 to |ips|
        invariant ips[i] !in ips[i + 1..j]
      {
        if ips[j] == ips[i] {
          assert ips[i + 1..][j - i - 1] == ips[i];
          return Fail(SwapExists);
        }
      }
      assert ips[i + 1..|ips|] == ips[i + 1..];
    }
    return Pass;
  }

  // ── Payments ─────────────────────────────────────────────────────────────

  // A payment is told what its call still has to move afterwards, so that together the payments of a
  // call settle what was planned.

  /** One token transfer. */
  method Pay(b: Bank, token: Token, from: Address, to: Address, amount: int, ghost rest: Moves)
    returns (r: Result<Bank>)
    ensures Settle(b, token, Move(from, to, amount, rest)) == if r.Ok? then Settle(r.value, token, rest) else r
  {
    if amount < 0 {
      return Err(NegativeAmount);
    }
    if Bal(b, token, from) < amount {
      return Err(InsufficientBalance(from));
    }
    var bank := b[(token, from) := Bal(b, token, from) - amount];
    bank := bank[(token, to) := Bal(bank, token, to) + amount];
    return Ok(bank);
  }

  /** A payment by the contract, left out when there is nothing to pay. */
  method PaySome(b: Bank, token: Token, to: Address, amount: int, ghost rest: Moves) returns (r: Result<Bank>)
    ensures Settle(b, token, GiveSome(to, amount, rest)) == if r.Ok? then Settle(r.value, token, rest) else r
  {
    r := Ok(b);
    if amount > 0 {
      r := Pay(b, token, Contract, to, amount, rest);
    }
  }

  method PayReferrer(b: Bank, swap: SwapRecord, amount: int, ghost rest: Moves) returns (r: Result<Bank>)
    ensures Settle(b, swap.token, GiveReferrer(swap, amount, rest))
      == if r.Ok? then Settle(r.value, swap.token, rest) else r
  {
    r := Ok(b);
    match swap.referrer
    case Some(referrer) => r := PaySome(b, swap.token, referrer, amount, rest);
    case None =>
  }

  /** Hand out the collateral stored for a swap that asked for some. */
  method ReleaseCollateral(b: Bank, v: Vault, id: SwapId, swap: SwapRecord, to: Address, ghost rest: Moves)
    returns (r: Result<Bank>, vault: Vault)
    ensures Settle(b, swap.token, GiveCollateral(v, id, swap, to, rest))
      == if r.Ok? then Settle(r.value, swap.token, rest) else r
    ensures vault == WithoutCollateral(v, id, swap)
  {
    r := Ok(b);
    vault := v;
    if swap.collateralAmount > 0 {
      if id in v.collateral {
        r := Pay(b, swap.token, Contract, to, v.collateral[id], rest);
        vault := v.(collateral := v.collateral - {id});
      }
    }
  }

  // ── Parts of calls ───────────────────────────────────────────────────────

  /** Collect collateral if asked to, the price, and the premium. */
  method CollectInFull(b: Bank, v: Vault, id: SwapId, swap: SwapRecord, secure: bool)
    returns (r: Result<Bank>, vault: Vault)
    ensures Settle(b, swap.token, AcceptMoves(v, swap, secure)) == r
    ensures r.Ok? ==> vault == AcceptVault(v, id, swap, secure)
  {
    vault := v;
    var bank := b;
    var funds := Pool(v, swap.token) + Collected(swap);
    ghost var insurance := if Collected(swap) > 0 then Take(swap.buyer, Collected(swap), Gate(Fits(funds), Done))
      else Done;
    if secure {
      bank :- Pay(bank, swap.token, swap.buyer, Contract, swap.collateralAmount,
                  Take(swap.buyer, swap.price, insurance));
      vault := vault.(collateral := vault.collateral[id := swap.collateralAmount]);
    }
    bank :- Pay(bank, swap.token, swap.buyer, Contract, swap.price, insurance);
    if swap.insured && swap.premium > 0 {
      bank :- Pay(bank, swap.token, swap.buyer, Contract, swap.premium, Gate(Fits(funds), Done));
      if !Fits(funds) {
        return Err(Trap), vault;
      }
      vault := vault.(pool := vault.pool[swap.token := funds]);
    }
    return Ok(bank), vault;
  }

  /** Store a swap as accepted now, with its money collected. */
  method StoreAccepted(s: State, id: SwapId, swap: SwapRecord, secure: bool) returns (r: Result<State>)
    ensures r == Apply(s, id, AcceptInFull(s, id, swap, secure))
  {
    var bank, vault :- CollectInFull(s.bank, s.vault, id, swap, secure);
    var at := s.(bank := bank, vault := vault);
    at := at.(swaps := at.swaps[id := swap.(acceptedAt := at.now, status := Accepted)]);
    at := at.(history := Push(at.history, id, HistoryEntry(Accepted, at.now)));
    return Ok(at);
  }

  /** Pay out a price whose key has been revealed. */
  method PayForKey(b: Bank, v: Vault, id: SwapId, swap: SwapRecord, fee: int, referral: int)
    returns (r: Result<Bank>, vault: Vault)
    ensures Settle(b, swap.token, RevealMoves(v, id, swap, fee, referral)) == r
    ensures r.Ok? ==> vault == WithoutCollateral(v, id, swap)
  {
    vault := v;
    ghost var last := GiveCollateral(v, id, swap, swap.buyer, Done);
    ghost var main := Give(swap.seller, swap.price - fee - referral, last);
    var bank :- PaySome(b, swap.token, TREASURY, fee, GiveReferrer(swap, referral, main));
    bank :- PayReferrer(bank, swap, referral, main);
    bank :- Pay(bank, swap.token, Contract, swap.seller, swap.price - fee - referral, last);
    bank, vault :- ReleaseCollateral(bank, v, id, swap, swap.buyer, Done);
    return Ok(bank), vault;
  }

  /** Pay out a price whose key has been revealed in a batch. */
  method PayForKeyInBatch(b: Bank, v: Vault, id: SwapId, swap: SwapRecord, fee: int, referral: int)
    returns (r: Result<Bank>, vault: Vault)
    ensures Settle(b, swap.token, BatchRevealMoves(v, id, swap, fee, referral)) == r
    ensures r.Ok? ==> vault == WithoutCollateral(v, id, swap)
  {
    vault := v;
    ghost var last := GiveCollateral(v, id, swap, swap.seller, Done);
    ghost var others := GiveReferrer(swap, referral, last);
    var bank :- Pay(b, swap.token, Contract, swap.seller, swap.price - fee - referral, GiveSome(TREASURY, fee, others));
    bank :- PaySome(bank, swap.token, TREASURY, fee, others);
    bank :- PayReferrer(bank, swap, referral, last);
    bank, vault :- ReleaseCollateral(bank, v, id, swap, swap.seller, Done);
    return Ok(bank), vault;
  }

  /** Return price and collateral to the buyer. */
  method PayBack(b: Bank, v: Vault, id: SwapId, swap: SwapRecord) returns (r: Result<Bank>, vault: Vault)
    ensures Settle(b, swap.token, RefundMoves(v, id, swap)) == r
    ensures r.Ok? ==> vault == WithoutCollateral(v, id, swap)
  {
    vault := v;
    var bank :- Pay(b, swap.token, Contract, swap.buyer, swap.price, GiveCollateral(v, id, swap, swap.buyer, Done));
    bank, vault :- ReleaseCollateral(bank, v, id, swap, swap.buyer, Done);
    return Ok(bank), vault;
  }

  /** Pay seller and treasury, then release the collateral. */
  method PayOut(b: Bank, v: Vault, id: SwapId, swap: SwapRecord, fee: int) returns (r: Result<Bank>, vault: Vault)
    ensures Settle(b, swap.token, CompleteMoves(v, id, swap, fee)) == r
    ensures r.Ok? ==> vault == WithoutCollateral(v, id, swap)
  {
    vault := v;
    ghost var last := GiveCollateral(v, id, swap, swap.seller, Done);
    var bank :- Pay(b, swap.token, Contract, swap.seller, swap.price - fee, GiveSome(TREASURY, fee, last));
    bank :- PaySome(bank, swap.token, TREASURY, fee, last);
    bank, vault :- ReleaseCollateral(bank, v, id, swap, swap.seller, Done);
    return Ok(bank), vault;
  }

  /** Release the collateral, then pay seller and treasury. */
  method PayOutArbitrated(b: Bank, v: Vault, id: SwapId, swap: SwapRecord, fee: int)
    returns (r: Result<Bank>, vault: Vault)
    ensures Settle(b, swap.token, ArbitrateMoves(v, id, swap, fee)) == r
    ensures r.Ok? ==> vault == WithoutCollateral(v, id, swap)
  {
    vault := v;
    ghost var main := Give(swap.seller, swap.price - fee, GiveSome(TREASURY, fee, Done));
    var bank;
    bank, vault :- ReleaseCollateral(b, v, id, swap, swap.seller, main);
    bank :- Pay(bank, swap.token, Contract, swap.seller, swap.price - fee, GiveSome(TREASURY, fee, Done));
    bank :- PaySome(bank, swap.token, TREASURY, fee, Done);
    return Ok(bank), vault;
  }

  /** Return price, collateral and premium of a paid swap. */
  method PayBackAll(b: Bank, v: Vault, id: SwapId, swap: SwapRecord) returns (r: Result<Bank>, vault: Vault)
    ensures Settle(b, swap.token, RollBackMoves(v, id, swap)) == r
    ensures r.Ok? ==> vault == RollBackVault(v, id, swap)
  {
    vault := v;
    var bank := b;
    if swap.status == Accepted || swap.status == Disputed {
      ghost var premium := GiveSome(swap.buyer, swap.premium, Done);
      ghost var rest := if id in v.collateral then Give(swap.buyer, Stored(v, id), premium) else premium;
      bank :- Pay(bank, swap.token, Contract, swap.buyer, swap.price, rest);
      if id in v.collateral {
        bank :- Pay(bank, swap.token, Contract, swap.buyer, v.collateral[id], premium);
        vault := v.(collateral := v.collateral - {id});
      }
      bank :- PaySome(bank, swap.token, swap.buyer, swap.premium, Done);
    }
    return Ok(bank), vault;
  }

  // ── Storage ──────────────────────────────────────────────────────────────

  method AppendHistory(s: State, id: SwapId, status: Status) returns (at: State)
    ensures at == s.(history := Push(s.history, id, HistoryEntry(status, s.now)))
  {
    var entries := Lookup(s.history, id, []);
    entries := entries + [HistoryEntry(status, s.now)];
    at := s.(history := s.history[id := entries]);
  }

  method UpdateReputation(s: State, a: Address, delta: int) returns (at: State)
    ensures at == s.(reputation := Rated(s.reputation, a, delta))
    ensures a in at.reputation && 0 <= at.reputation[a] <= 100
    ensures 0 <= Lookup(s.reputation, a, 50) + delta <= 100 ==> at.reputation[a] == Lookup(s.reputation, a, 50) + delta
  {
    var rating := Lookup(s.reputation, a, 50) + delta;
    if rating < 0 {
      rating := 0;
    } else if rating > 100 {
      rating := 100;
    }
    at := s.(reputation := s.reputation[a := rating]);
  }

  /** Store a swap in its final status, and free its IP. */
  method StoreClosed(s: State, id: SwapId, swap: SwapRecord, status: Status) returns (at: State)
    ensures at == s.(swaps := s.swaps[id := swap.(status := status)], active := s.active - {swap.ip})
  {
    at := s.(swaps := s.swaps[id := swap.(status := status)]);
    at := at.(active := at.active - {swap.ip});
  }

  /** List a swap under its seller and its buyer. */
  method AppendSwapForParty(index: Index, seller: Address, buyer: Address, id: SwapId) returns (r: Index)
    ensures r == Index(Push(index.bySeller, seller, id), Push(index.byBuyer, buyer, id), index.byIp)
  {
    var sellerIds := Lookup(index.bySeller, seller, []) + [id];
    r := index.(bySeller := index.bySeller[seller := sellerIds]);
    var buyerIds := Lookup(index.byBuyer, buyer, []) + [id];
    r := r.(byBuyer := r.byBuyer[buyer := buyerIds]);
  }

  /** Store a new swap under the next id. */
  method StoreNew(s: State, swap: SwapRecord, lock: bool, byIp: bool) returns (at: State)
    ensures at == Enroll(s, swap, lock, byIp)
  {
    var id := s.nextId;
    at := s.(swaps := s.swaps[id := swap]);
    if lock {
      at := at.(active := at.active[swap.ip := id]);
    }
    var index := AppendSwapForParty(at.index, swap.seller, swap.buyer, id);
    if byIp {
      index := index.(byIp := Push(index.byIp, swap.ip, id));
    }
    at := at.(index := index);
    at := AppendHistory(at, id, swap.status);
    at := at.(nextId := id + 1);
  }

  /** Store one offer of a batch. */
  method StoreOffer(s: State, b: BatchTerms, ip: IpId, price: I128) returns (at: State)
    ensures at == Open(s, RecordOf(s, ItemTerms(b, ip, price, false), 0))
  {
    var swap := NewRecord(s, b.token, ip, b.seller, price, b.buyer);
    swap := swap.(requiredApprovals := b.requiredApprovals, referrer := b.referrer);
    at := StoreNew(s, swap, true, true);
  }

  /** The writing pass over a batch of offers. */
  method StoreOffers(s: State, b: BatchTerms, ips: seq<IpId>, prices: seq<I128>) returns (at: State, ids: seq<SwapId>)
    requires |ips| == |prices|
    ensures at == OpenAll(s, b, ips, prices)
    ensures |ids| == |ips| && forall k :: 0 <= k < |ips| ==> ids[k] == s.nextId + k
  {
    at, ids := s, [];
    for i := 0 to |ips|
      invariant OpenAll(s, b, ips, prices) == OpenAll(at, b, ips[i..], prices[i..])
      invariant at.nextId == s.nextId + i && |ids| == i
      invariant forall k :: 0 <= k < i ==> ids[k] == s.nextId + k
    {
      assert ips[i..][1..] == ips[i + 1..] && prices[i..][1..] == prices[i + 1..];
      ids := ids + [at.nextId];
      at := StoreOffer(at, b, ips[i], prices[i]);
    }
  }

  // ── One swap of a batch, or the part of a call that does the same ────────

  method StoreDeposit(s: State, id: SwapId, swap: SwapRecord) returns (r: Result<State>)
    ensures r == Do(s, id, Deposit(s, id, swap))
  {
    if id !in s.side.escrowMode {
      return Err(Unauthorized);
    }
    if swap.status != Pending {
      return Err(NotPending);
    }
    var bank :- Pay(s.bank, swap.token, swap.buyer, Contract, swap.price, Done);
    var at := s.(bank := bank);
    at := at.(vault := at.vault.(deposits := at.vault.deposits[id := swap.price]));
    at := at.(swaps := at.swaps[id := swap.(acceptedAt := at.now, status := Accepted)]);
    at := AppendHistory(at, id, Accepted);
    return Ok(at);
  }

  method BatchRevealItem(s: State, id: SwapId) returns (r: Result<State>)
    ensures r == Do(s, id, BatchRevealPlan(s, id))
  {
    if id !in s.swaps {
      return Err(SwapNotFound);
    }
    var swap := s.swaps[id];
    var fee :- Bps(swap.price, PROTOCOL_FEE_BPS);
    var referral :- Referral(swap);
    var at := StoreClosed(s, id, swap, Completed);
    at := AppendHistory(at, id, Completed);
    var bank, vault :- PayForKeyInBatch(s.bank, s.vault, id, swap, fee, referral);
    at := at.(bank := bank, vault := vault);
    at := UpdateReputation(at, swap.seller, 5);
    at := UpdateReputation(at, swap.buyer, 5);
    return Ok(at);
  }

  /** A refund or a payout, as the arbitrator decided, and the status that goes with it. */
  method PayDecision(b: Bank, v: Vault, id: SwapId, swap: SwapRecord, refund: bool)
    returns (r: Result<Bank>, vault: Vault, status: Status)
    ensures !refund && Bps(swap.price, PROTOCOL_FEE_BPS).Err? ==> r == Err(Bps(swap.price, PROTOCOL_FEE_BPS).error)
    ensures refund ==> r == Settle(b, swap.token, RefundMoves(v, id, swap)) && status == Cancelled
    ensures !refund && Bps(swap.price, PROTOCOL_FEE_BPS).Ok? ==>
      r == Settle(b, swap.token, CompleteMoves(v, id, swap, Bps(swap.price, PROTOCOL_FEE_BPS).value))
        && status == Completed
    ensures r.Ok? ==> vault == WithoutCollateral(v, id, swap)
  {
    vault, status := v, if refund then Cancelled else Completed;
    if refund {
      r, vault := PayBack(b, v, id, swap);
    } else {
      var fee :- Bps(swap.price, PROTOCOL_FEE_BPS);
      r, vault := PayOut(b, v, id, swap, fee);
    }
  }

  method BatchArbitrateItem(s: State, id: SwapId, refund: bool) returns (r: Result<State>)
    ensures r == Do(s, id, BatchArbitratePlan(s, id, refund))
  {
    if id !in s.swaps {
      return Err(SwapNotFound);
    }
    var swap := s.swaps[id];
    if swap.status != Disputed {
      return Err(NotDisputed);
    }
    var bank, vault, status :- PayDecision(s.bank, s.vault, id, swap, refund);
    var at := StoreClosed(s.(bank := bank, vault := vault), id, swap, status);
    at := AppendHistory(at, id, status);
    return Ok(at);
  }

  method CancelItem(s: State, id: SwapId, canceller: Address) returns (r: Result<State>)
    ensures r == Do(s, id, CancelPlan(s, id, canceller))
  {
    if id !in s.swaps {
      return Err(SwapNotFound);
    }
    var swap := s.swaps[id];
    if canceller != swap.seller && canceller != swap.buyer {
      return Err(OnlySellerBuyer);
    }
    if canceller.Contract? {
      return Err(NotAuthorized);
    }
    if swap.status != Pending {
      return Err(OnlyPending);
    }
    var at := StoreClosed(s, id, swap, Cancelled);
    at := AppendHistory(at, id, Cancelled);
    at := UpdateReputation(at, canceller, -10);
    return Ok(at);
  }

  /** Cancel one swap after the other, and keep a list of them. */
  method CancelItems(s: State, ids: seq<SwapId>, canceller: Address) returns (r: Result<State>, cancelled: seq<SwapId>)
    ensures r == CancelAll(s, ids, canceller)
    ensures r.Ok? ==> cancelled == ids
  {
    var at := s;
    cancelled := [];
    for i := 0 to |ids|
      invariant CancelAll(s, ids, canceller) == CancelAll(at, ids[i..], canceller)
      invariant cancelled == ids[..i]
    {
      assert ids[i..][1..] == ids[i + 1..];
      at :- CancelItem(at, ids[i], canceller);
      cancelled := cancelled + [ids[i]];
    }
    return Ok(at), cancelled;
  }

  method RollBackItem(s: State, id: SwapId, swap: SwapRecord) returns (r: Result<State>)
    ensures r == Apply(s, id, RollBack(s, id, swap))
  {
    var bank, vault :- PayBackAll(s.bank, s.vault, id, swap);
    var at := StoreClosed(s.(bank := bank, vault := vault), id, swap, Cancelled);
    at := AppendHistory(at, id, Cancelled);
    return Ok(at);
  }
}

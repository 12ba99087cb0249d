/** What the contract owes, token by token, and the invariant of its storage. */
module SwapClaims {
  import opened Common
  import opened SwapState

  // ── Claims ───────────────────────────────────────────────────────────────

  /** The amounts of the payments that are flagged as made. */
  function Flagged(schedule: seq<Payment>, made: seq<bool>): int {
    if schedule == [] || made == [] then 0
    else Share(made[0], schedule[0].amount) + Flagged(schedule[1..], made[1..])
  }

  /** What has been paid on the schedule of a swap, if it has one. */
  function Scheduled(side: Side, id: SwapId): int {
    Flagged(Lookup(side.schedules, id, []), Lookup(side.paymentsMade, id, []))
  }

  /** The part of a swap's price that the contract is holding for its parties. */
  function Due(swap: SwapRecord, side: Side, id: SwapId): int {
    match swap.status
    case Pending => swap.paid + Scheduled(side, id)
    case Accepted => swap.price
    case Disputed => swap.price
    case _ => 0
  }

  function Claim(s: State, id: SwapId, t: Token): int {
    if id in s.swaps && s.swaps[id].token == t then Due(s.swaps[id], s.side, id) + Stored(s.vault, id) else 0
  }

  function AuctionClaim(h: House, a: AuctionId, t: Token): int {
    if a in h.auctions && h.auctions[a].token == t && !h.auctions[a].finalized then h.auctions[a].highestBid else 0
  }

  function SwapClaims(s: State, n: nat, t: Token): int {
    if n == 0 then 0 else SwapClaims(s, n - 1, t) + Claim(s, n - 1, t)
  }

  function AuctionClaims(h: House, n: nat, t: Token): int {
    if n == 0 then 0 else AuctionClaims(h, n - 1, t) + AuctionClaim(h, n - 1, t)
  }

  /** Everything owed in one token: swaps and their collateral, open auctions, and the insurance pool. */
  function Owed(s: State, t: Token): int {
    SwapClaims(s, s.nextId, t) + AuctionClaims(s.house, s.house.next, t) + Pool(s.vault, t)
  }

  /** What is left once every claim is met. */
  function Slack(s: State, t: Token): int {
    Held(s, t) - Owed(s, t)
  }

  ghost predicate Solvent(s: State) {
    forall t: Token :: Slack(s, t) >= 0
  }

  ghost predicate SlackKept(s: State, s': State) {
    forall t: Token :: Slack(s', t) >= Slack(s, t)
  }

  // ── The storage invariant ────────────────────────────────────────────────

  predicate RecordOk(swap: SwapRecord) {
    0 < swap.price <= I128_MAX && swap.quantity == 1 && swap.paid >= 0 && swap.premium >= 0
  }

  /** A stored deposit belongs to a swap past Pending, and equals its price. */
  predicate DepositOk(swap: SwapRecord, v: Vault, id: SwapId) {
    id in v.deposits ==> swap.status != Pending && v.deposits[id] == swap.price
  }

  predicate AuctionOk(a: Auction) {
    && 0 < a.minBid && 0 <= a.highestBid <= I128_MAX
    && (if a.highestBidder.Some? then a.minBid <= a.highestBid else a.highestBid == 0)
  }

  /** Everything the entries of one swap promise. */
  predicate EntryOk(s: State, id: SwapId)
    requires id in s.swaps
  {
    && RecordOk(s.swaps[id]) && Stored(s.vault, id) >= 0 && DepositOk(s.swaps[id], s.vault, id)
    && 0 < Lookup(s.side.offers, id, 1) <= I128_MAX && Scheduled(s.side, id) >= 0
  }

  /** A lock names a live swap of the IP it locks. */
  predicate LockOk(s: State, ip: IpId) {
    ip in s.active ==>
      s.active[ip] in s.swaps && s.swaps[s.active[ip]].ip == ip && s.swaps[s.active[ip]].status.Live()
  }

  ghost predicate Inv(s: State) {
    && (forall id :: id in s.swaps <==> 0 <= id < s.nextId)
    && (forall id :: id in s.swaps ==> EntryOk(s, id))
    && (forall id :: id in s.vault.collateral || id in s.vault.deposits || id in s.side.offers ==> id in s.swaps)
    && (forall id :: id in s.side.schedules || id in s.side.paymentsMade ==> id in s.swaps)
    && (forall t :: Pool(s.vault, t) >= 0)
    && (forall a :: a in s.house.auctions ==> a < s.house.next && AuctionOk(s.house.auctions[a]))
    && (forall ip :: LockOk(s, ip))
  }

  /** The converse of `LockOk`: a live swap holds the lock of its IP. */
  predicate Holding(s: State, id: SwapId)
    requires id in s.swaps
  {
    s.swaps[id].status.Live() ==> s.swaps[id].ip in s.active && s.active[s.swaps[id].ip] == id
  }

  ghost predicate Locked(s: State) {
    forall id :: id in s.swaps ==> Holding(s, id)
  }

  // ── Sums ─────────────────────────────────────────────────────────────────

  lemma {:induction false} FlagAdds(schedule: seq<Payment>, made: seq<bool>, i: nat)
    requires i < |schedule| && i < |made| && !made[i]
    ensures Flagged(schedule, made[i := true]) == Flagged(schedule, made) + schedule[i].amount
  {
    if i == 0 {
    } else {
      FlagAdds(schedule[1..], made[1..], i - 1);
      assert made[i := true][1..] == made[1..][i - 1 := true];
    }
  }

  lemma {:induction false} NothingFlagged(schedule: seq<Payment>, made: seq<bool>)
    requires forall i :: 0 <= i < |made| ==> !made[i]
    ensures Flagged(schedule, made) == 0
  {
    if schedule == [] || made == [] {
    } else {
      NothingFlagged(schedule[1..], made[1..]);
    }
  }

  lemma {:induction false} SwapClaimsAgree(s: State, s': State, n: nat, t: Token)
    requires forall id: nat :: id < n ==> Claim(s, id, t) == Claim(s', id, t)
    ensures SwapClaims(s, n, t) == SwapClaims(s', n, t)
  {
    if n == 0 {
    } else {
      SwapClaimsAgree(s, s', n - 1, t);
    }
  }

  lemma {:induction false} AuctionClaimsAgree(h: House, h': House, n: nat, t: Token)
    requires forall a: nat :: a < n ==> AuctionClaim(h, a, t) == AuctionClaim(h', a, t)
    ensures AuctionClaims(h, n, t) == AuctionClaims(h', n, t)
  {
    if n == 0 {
    } else {
      AuctionClaimsAgree(h, h', n - 1, t);
    }
  }

  /** Changing one swap changes the sum by that swap's change. */
  lemma {:induction false} SwapClaimsChange(s: State, s': State, id: SwapId, n: nat, t: Token)
    requires id < n
    requires forall j: nat :: j < n && j != id ==> Claim(s, j, t) == Claim(s', j, t)
    ensures SwapClaims(s', n, t) - SwapClaims(s, n, t) == Claim(s', id, t) - Claim(s, id, t)
  {
    if n - 1 == id {
      SwapClaimsAgree(s, s', n - 1, t);
    } else {
      SwapClaimsChange(s, s', id, n - 1, t);
    }
  }

  lemma {:induction false} AuctionClaimsChange(h: House, h': House, a: AuctionId, n: nat, t: Token)
    requires a < n
    requires forall j: nat :: j < n && j != a ==> AuctionClaim(h, j, t) == AuctionClaim(h', j, t)
    ensures AuctionClaims(h', n, t) - AuctionClaims(h, n, t) == AuctionClaim(h', a, t) - AuctionClaim(h, a, t)
  {
    if n - 1 == a {
      AuctionClaimsAgree(h, h', n - 1, t);
    } else {
      AuctionClaimsChange(h, h', a, n - 1, t);
    }
  }

  lemma {:induction false} SwapClaimWithin(s: State, id: SwapId, n: nat, t: Token)
    requires Inv(s)
    ensures 0 <= SwapClaims(s, n, t)
    ensures id < n ==> Claim(s, id, t) <= SwapClaims(s, n, t)
  {
    if n == 0 {
    } else {
      if n - 1 in s.swaps {
        assert EntryOk(s, n - 1);
      }
      SwapClaimWithin(s, id, n - 1, t);
    }
  }

  lemma {:induction false} AuctionClaimWithin(s: State, a: AuctionId, n: nat, t: Token)
    requires Inv(s)
    ensures 0 <= AuctionClaims(s.house, n, t)
    ensures a < n ==> AuctionClaim(s.house, a, t) <= AuctionClaims(s.house, n, t)
  {
    if n == 0 {
    } else {
      AuctionClaimWithin(s, a, n - 1, t);
    }
  }

  /** A solvent contract holds any one swap's claim together with the token's pool, and any one auction's. */
  lemma ClaimsCovered(s: State, id: SwapId, a: AuctionId, t: Token)
    requires Inv(s) && Solvent(s)
    ensures Claim(s, id, t) + Pool(s.vault, t) <= Held(s, t)
    ensures AuctionClaim(s.house, a, t) <= Held(s, t)
  {
    assert Slack(s, t) >= 0 && Pool(s.vault, t) >= 0;
    SwapClaimWithin(s, id, s.nextId, t);
    AuctionClaimWithin(s, a, s.house.next, t);
  }
}

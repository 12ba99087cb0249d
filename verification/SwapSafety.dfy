/** When a change to one swap is legal, and what a legal change does to the whole store. */
module SwapSafety {
  import opened Common
  import opened SwapState
  import opened SwapSpec
  import opened SwapClaims

  // ── Relations between a state and a later one ────────────────────────────

  predicate SameParties(a: SwapRecord, b: SwapRecord) {
    a.ip == b.ip && a.seller == b.seller && a.buyer == b.buyer && a.token == b.token
  }

  /** A status stays or moves strictly forward. */
  predicate Forward(before: Status, after: Status) {
    before == after || before.Rank() < after.Rank()
  }

  predicate Persists(s: State, s': State, id: SwapId)
    requires id in s.swaps
  {
    id in s'.swaps && SameParties(s.swaps[id], s'.swaps[id]) && Forward(s.swaps[id].status, s'.swaps[id].status)
  }

  ghost predicate Later(s: State, s': State) {
    && s.now <= s'.now && s.nextId <= s'.nextId && s.house.next <= s'.house.next
    && (forall id :: id in s.swaps ==> Persists(s, s', id))
  }

  /** What calls are meant to keep: invariant, order of statuses, and the match of locks and live swaps. */
  ghost predicate Kept(s: State, s': State) {
    Inv(s') && Later(s, s') && (Locked(s) ==> Locked(s'))
  }

  // ── Legal changes ────────────────────────────────────────────────────────

  /** At most the entry of `k` differs. */
  ghost predicate Touched<K, V>(m: map<K, V>, m': map<K, V>, k: K) {
    m' == m || m' == m - {k} || (k in m' && m' == m[k := m'[k]])
  }

  /** The IP is freed exactly when the swap stops being live; a swap that is not live may free it again
      as long as nobody holds it. */
  predicate UnlockOk(s: State, before: SwapRecord, c: Change) {
    if c.swap.status.Live() then before.status.Live() && !c.unlock
    else if before.status.Live() then c.unlock
    else c.unlock ==> before.ip !in s.active
  }

  /** A change that leaves the store in order, though it may free a lock too many or set a status back. */
  ghost predicate Tidy(s: State, id: SwapId, c: Change) {
    && id in s.swaps && SameParties(s.swaps[id], c.swap)
    && (s.swaps[id].status.Live() ==> c.swap.status.Live() || c.unlock)
    && RecordOk(c.swap) && Stored(c.vault, id) >= 0 && DepositOk(c.swap, c.vault, id)
    && 0 < Lookup(c.side.offers, id, 1) <= I128_MAX && Scheduled(c.side, id) >= 0
    && c.side.schedules == s.side.schedules && Touched(s.side.paymentsMade, c.side.paymentsMade, id)
    && Touched(s.vault.collateral, c.vault.collateral, id)
    && Touched(s.vault.deposits, c.vault.deposits, id)
    && Touched(s.side.offers, c.side.offers, id)
    && Touched(s.vault.pool, c.vault.pool, c.swap.token) && Pool(c.vault, c.swap.token) >= 0
  }

  /** A change that is in order and closes what it unlocks. */
  ghost predicate Closing(s: State, id: SwapId, c: Change) {
    Tidy(s, id, c) && (c.unlock ==> !c.swap.status.Live())
  }

  ghost predicate Legal(s: State, id: SwapId, c: Change) {
    Tidy(s, id, c) && Forward(s.swaps[id].status, c.swap.status) && UnlockOk(s, s.swaps[id], c)
  }

  /** How much richer a change leaves the contract, after what it owes is settled. */
  function Profit(s: State, id: SwapId, c: Change): int
    requires id in s.swaps
  {
    Net(c.moves)
    - (Due(c.swap, c.side, id) + Stored(c.vault, id) - Due(s.swaps[id], s.side, id) - Stored(s.vault, id))
    - (Pool(c.vault, c.swap.token) - Pool(s.vault, c.swap.token))
  }

  // ── From one swap to the whole store ─────────────────────────────────────

  lemma TidyKeepsEntries(s: State, id: SwapId, c: Change)
    requires Inv(s) && Tidy(s, id, c) && Apply(s, id, c).Ok?
    ensures forall j :: j in Apply(s, id, c).value.swaps ==> EntryOk(Apply(s, id, c).value, j)
  {
    var s' := Apply(s, id, c).value;
    forall j | j in s'.swaps ensures EntryOk(s', j) {
      if j != id {
        assert EntryOk(s, j);
      }
    }
  }

  /** Such a change keeps the invariant of the whole store. */
  lemma TidyKeepsInv(s: State, id: SwapId, c: Change)
    requires Inv(s) && Tidy(s, id, c) && Apply(s, id, c).Ok?
    ensures Inv(Apply(s, id, c).value)
  {
    var s' := Apply(s, id, c).value;
    TidyKeepsEntries(s, id, c);
    forall ip ensures LockOk(s', ip) {
      assert LockOk(s, ip);
    }
    forall t ensures Pool(s'.vault, t) >= 0 {
      assert Pool(s.vault, t) >= 0;
    }
  }

  /** It keeps the order of statuses exactly when its own swap moves forward. */
  lemma OrderKeptExactly(s: State, id: SwapId, c: Change)
    requires Tidy(s, id, c) && Apply(s, id, c).Ok?
    ensures Later(s, Apply(s, id, c).value) <==> Forward(s.swaps[id].status, c.swap.status)
  {
    var s' := Apply(s, id, c).value;
    if Forward(s.swaps[id].status, c.swap.status) {
      forall j | j in s.swaps ensures Persists(s, s', j) {
      }
    } else {
      assert !Persists(s, s', id);
    }
  }

  lemma UnlockKeepsLocks(s: State, id: SwapId, c: Change)
    requires Inv(s) && Locked(s) && Tidy(s, id, c) && UnlockOk(s, s.swaps[id], c) && Apply(s, id, c).Ok?
    ensures Locked(Apply(s, id, c).value)
  {
    var s' := Apply(s, id, c).value;
    forall j | j in s'.swaps ensures Holding(s', j) {
      assert Holding(s, j) && Holding(s, id);
    }
  }

  /** A swap that is no longer live and frees its IP takes it from whoever holds it. */
  lemma TakesLock(s: State, id: SwapId, c: Change)
    requires Inv(s) && Tidy(s, id, c) && Apply(s, id, c).Ok?
    requires !s.swaps[id].status.Live() && c.unlock && c.swap.ip in s.active
    ensures !Locked(Apply(s, id, c).value)
  {
    assert LockOk(s, c.swap.ip);
    assert !Holding(Apply(s, id, c).value, s.active[c.swap.ip]);
  }

  /** When live swaps and locks match, a change that closes what it unlocks keeps them matched exactly when it
      frees the IP of the swap that it closes, and revives none. */
  lemma LocksKeptExactly(s: State, id: SwapId, c: Change)
    requires Inv(s) && Locked(s) && Closing(s, id, c) && Apply(s, id, c).Ok?
    ensures Locked(Apply(s, id, c).value) <==> UnlockOk(s, s.swaps[id], c)
  {
    if UnlockOk(s, s.swaps[id], c) {
      UnlockKeepsLocks(s, id, c);
    } else if c.swap.status.Live() {
      assert LockOk(s, c.swap.ip);
      assert !Holding(Apply(s, id, c).value, id);
    } else {
      TakesLock(s, id, c);
    }
  }

  /** A legal change keeps parties, the order of statuses, and the match of locks and live swaps as well. */
  lemma LegalKeeps(s: State, id: SwapId, c: Change)
    requires Inv(s) && Legal(s, id, c) && Apply(s, id, c).Ok?
    ensures Kept(s, Apply(s, id, c).value)
  {
    TidyKeepsInv(s, id, c);
    OrderKeptExactly(s, id, c);
    if Locked(s) {
      UnlockKeepsLocks(s, id, c);
    }
  }

  /** Where live swaps and locks match, a change that closes what it unlocks does so exactly when it is legal. */
  lemma KeptIffLegal(s: State, id: SwapId, c: Change)
    requires Inv(s) && Locked(s) && Closing(s, id, c) && Apply(s, id, c).Ok?
    ensures Kept(s, Apply(s, id, c).value) <==> Legal(s, id, c)
  {
    TidyKeepsInv(s, id, c);
    OrderKeptExactly(s, id, c);
    LocksKeptExactly(s, id, c);
  }

  /** When every live swap holds its lock, such a change frees no lock but the one its own swap holds. */
  lemma FreesOwnLock(s: State, id: SwapId, c: Change, ip: IpId)
    requires Inv(s) && Locked(s) && Tidy(s, id, c) && UnlockOk(s, s.swaps[id], c) && Apply(s, id, c).Ok?
    requires ip in s.active && ip !in Apply(s, id, c).value.active
    ensures s.active[ip] == id
  {
    assert Holding(s, id);
  }

  /** The change's effect on money stays with its own swap and token. */
  ghost predicate Framed(s: State, id: SwapId, c: Change) {
    && id in s.swaps && s.swaps[id].token == c.swap.token
    && c.side.schedules == s.side.schedules && Touched(s.side.paymentsMade, c.side.paymentsMade, id)
    && Touched(s.vault.collateral, c.vault.collateral, id)
    && Touched(s.vault.pool, c.vault.pool, c.swap.token)
  }

  lemma OtherClaimsStay(s: State, id: SwapId, c: Change, j: SwapId, t: Token)
    requires Framed(s, id, c) && Apply(s, id, c).Ok? && j != id
    ensures Claim(Apply(s, id, c).value, j, t) == Claim(s, j, t)
  {
  }

  /** Such a change moves the slack of its token by exactly its profit, and no other. */
  lemma ChangeMovesSlack(s: State, id: SwapId, c: Change, t: Token)
    requires Inv(s) && Framed(s, id, c) && Apply(s, id, c).Ok?
    ensures Slack(Apply(s, id, c).value, t) == Slack(s, t) + Share(t == c.swap.token, Profit(s, id, c))
  {
    var s' := Apply(s, id, c).value;
    SettleHeld(s.bank, c.swap.token, c.moves, t);
    forall j: nat | j < s.nextId && j != id ensures Claim(s, j, t) == Claim(s', j, t) {
      OtherClaimsStay(s, id, c, j, t);
    }
    SwapClaimsChange(s, s', id, s.nextId, t);
  }

  /** So it keeps every slack exactly when it does not lose. */
  lemma SlackKeptIffProfit(s: State, id: SwapId, c: Change)
    requires Inv(s) && Framed(s, id, c) && Apply(s, id, c).Ok?
    ensures SlackKept(s, Apply(s, id, c).value) <==> Profit(s, id, c) >= 0
  {
    ChangeMovesSlack(s, id, c, c.swap.token);
    if Profit(s, id, c) >= 0 {
      forall t: Token ensures Slack(Apply(s, id, c).value, t) >= Slack(s, t) {
        ChangeMovesSlack(s, id, c, t);
      }
    }
  }

  // ── Composition ──────────────────────────────────────────────────────────

  lemma LaterTrans(a: State, b: State, c: State)
    requires Later(a, b) && Later(b, c)
    ensures Later(a, c)
  {
    forall id | id in a.swaps ensures Persists(a, c, id) {
      assert Persists(a, b, id) && Persists(b, c, id);
    }
  }

  lemma KeptTrans(a: State, b: State, c: State)
    requires Kept(a, b) && Kept(b, c)
    ensures Kept(a, c)
  {
    LaterTrans(a, b, c);
  }

  lemma SlackTrans(a: State, b: State, c: State)
    requires SlackKept(a, b) && SlackKept(b, c)
    ensures SlackKept(a, c)
  {
    forall t: Token ensures Slack(c, t) >= Slack(a, t) {
      assert Slack(b, t) >= Slack(a, t) && Slack(c, t) >= Slack(b, t);
    }
  }
}

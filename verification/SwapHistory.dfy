/** The stored history of a swap: what is written to it, and what it says about the run. */
module SwapHistory {
  import opened Common
  import opened SwapState
  import opened SwapSpec
  import opened SwapClaims
  import opened SwapSafety
  import opened SwapRuns
  import opened SwapActs
  import opened SwapBatches
  import opened SwapTheorems
  import opened SwapBook
  import opened BatchOpening

  // ── Histories ────────────────────────────────────────────────────────────

  function LogOf(s: State, id: SwapId): seq<HistoryEntry> {
    Lookup(s.history, id, [])
  }

  /** How far the history of a swap has come. */
  function LoggedRank(s: State, id: SwapId): int {
    var log := LogOf(s, id);
    if log == [] then -1 else log[|log| - 1].status.Rank()
  }

  function Present(s: State, id: SwapId): HistoryEntry
    requires id in s.swaps
  {
    HistoryEntry(s.swaps[id].status, s.now)
  }

  /** Statuses climb strictly, and times do not decrease and do not pass the present. */
  ghost predicate Climbing(log: seq<HistoryEntry>, now: nat) {
    && log != [] && log[|log| - 1].timestamp <= now
    && (forall i, j :: 0 <= i < j < |log| ==>
          log[i].status.Rank() < log[j].status.Rank() && log[i].timestamp <= log[j].timestamp)
  }

  /** Besides, the history is not ahead of the status that the swap has at present. */
  ghost predicate LogOk(log: seq<HistoryEntry>, present: HistoryEntry) {
    Climbing(log, present.timestamp) && log[|log| - 1].status.Rank() <= present.status.Rank()
  }

  ghost predicate HistoryOk(s: State) {
    s.history.Keys == s.swaps.Keys && (forall id :: id in s.swaps ==> LogOk(LogOf(s, id), Present(s, id)))
  }

  function Copies(n: nat, entry: HistoryEntry): seq<HistoryEntry> {
    seq(n, _ => entry)
  }

  /** Appending the same entry keeps a history climbing exactly if it is done at most once, and further along. */
  lemma CopiesClimb(log: seq<HistoryEntry>, before: nat, n: nat, entry: HistoryEntry)
    requires Climbing(log, before) && before <= entry.timestamp && n > 0
    ensures Climbing(log + Copies(n, entry), entry.timestamp)
      <==> n == 1 && log[|log| - 1].status.Rank() < entry.status.Rank()
    ensures (log + Copies(n, entry))[|log| + n - 1] == entry
  {
    var longer := log + Copies(n, entry);
    assert longer[|log|] == entry && longer[|log| - 1] == log[|log| - 1];
    if n > 1 {
      assert longer[|log| + 1] == entry;
    } else if log[|log| - 1].status.Rank() < entry.status.Rank() {
      forall i, j | 0 <= i < j < |longer|
        ensures longer[i].status.Rank() < longer[j].status.Rank() && longer[i].timestamp <= longer[j].timestamp
      {
        assert i < |log| - 1 ==> log[i].status.Rank() < log[|log| - 1].status.Rank()
                                 && log[i].timestamp <= log[|log| - 1].timestamp;
      }
    }
  }

  // ── What calls write ─────────────────────────────────────────────────────

  /** The status is set, and written, `n` times; if that is none, both are as before. */
  predicate WroteFor(s: State, s': State, id: SwapId, n: nat, status: Status)
    requires id in s.swaps && id in s'.swaps
  {
    && s'.swaps[id].status == (if n > 0 then status else s.swaps[id].status)
    && LogOf(s', id) == LogOf(s, id) + Copies(n, HistoryEntry(status, s.now))
  }

  /** For every occurrence of a swap in `ids` its status was set to `status`, and its history says so; all
      other swaps and histories are as before. */
  ghost predicate Wrote(s: State, s': State, ids: seq<SwapId>, status: Status) {
    && s'.now == s.now && s.history.Keys == s.swaps.Keys == s'.swaps.Keys == s'.history.Keys
    && (forall id :: id in ids ==> id in s.swaps)
    && (forall id :: id in s.swaps ==> WroteFor(s, s', id, multiset(ids)[id], status))
  }

  lemma WroteNothing(s: State, status: Status)
    requires s.history.Keys == s.swaps.Keys
    ensures Wrote(s, s, [], status)
  {
  }

  lemma WroteOne(s: State, id: SwapId, plan: Result<Change>, status: Status)
    requires s.history.Keys == s.swaps.Keys && id in s.swaps && Do(s, id, plan).Ok?
    requires plan.value.logged && plan.value.swap.status == status
    ensures Wrote(s, Do(s, id, plan).value, [id], status)
  {
    var s' := Do(s, id, plan).value;
    forall j | j in s.swaps ensures WroteFor(s, s', j, multiset([id])[j], status) {
    }
  }

  lemma WroteMore(a: State, b: State, c: State, id: SwapId, n: nat, m: nat, status: Status)
    requires id in a.swaps && id in b.swaps && id in c.swaps && a.now == b.now
    requires WroteFor(a, b, id, n, status) && WroteFor(b, c, id, m, status)
    ensures WroteFor(a, c, id, n + m, status)
  {
    var entry := HistoryEntry(status, a.now);
    assert Copies(n, entry) + Copies(m, entry) == Copies(n + m, entry);
  }

  lemma WroteFirst(s: State, next: State, end: State, ids: seq<SwapId>, status: Status)
    requires ids != [] && Wrote(s, next, [ids[0]], status) && Wrote(next, end, ids[1..], status)
    ensures Wrote(s, end, ids, status)
  {
    assert ids == [ids[0]] + ids[1..];
    forall id | id in s.swaps ensures WroteFor(s, end, id, multiset(ids)[id], status) {
      WroteMore(s, next, end, id, multiset([ids[0]])[id], multiset(ids[1..])[id], status);
    }
  }

  /** New swaps begin their histories with the present; the others are as before. */
  ghost predicate Began(s: State, s': State) {
    && s'.now == s.now && s.history.Keys == s.swaps.Keys && s'.history.Keys == s'.swaps.Keys
    && (forall id :: id in s.swaps ==> id in s'.swaps && s'.swaps[id] == s.swaps[id] && LogOf(s', id) == LogOf(s, id))
    && (forall id :: id in s'.swaps && id !in s.swaps ==> LogOf(s', id) == [Present(s', id)])
  }

  lemma EnrollBegins(s: State, rec: SwapRecord, lock: bool, byIp: bool)
    requires Numbered(s) && s.history.Keys == s.swaps.Keys
    ensures Began(s, Enroll(s, rec, lock, byIp))
  {
  }

  /** Entries other than swaps and histories do not matter. */
  lemma SameBegins(s: State, a: State, b: State)
    requires Began(s, a) && b.now == a.now && b.swaps == a.swaps && b.history == a.history
    ensures Began(s, b)
  {
  }

  lemma BeganThen(a: State, b: State, c: State)
    requires Began(a, b) && Began(b, c)
    ensures Began(a, c)
  {
  }

  // ── Batches ──────────────────────────────────────────────────────────────

  lemma {:induction false} DepositAllWrites(s: State, ids: seq<SwapId>, buyer: Address)
    requires s.history.Keys == s.swaps.Keys && DepositAll(s, ids, buyer).Ok?
    ensures Wrote(s, DepositAll(s, ids, buyer).value, ids, Accepted)
    decreases |ids|
  {
    if ids == [] {
      WroteNothing(s, Accepted);
    } else {
      var next := Do(s, ids[0], BatchDepositPlan(s, ids[0], buyer)).value;
      WroteOne(s, ids[0], BatchDepositPlan(s, ids[0], buyer), Accepted);
      DepositAllWrites(next, ids[1..], buyer);
      WroteFirst(s, next, DepositAll(s, ids, buyer).value, ids, Accepted);
    }
  }

  lemma {:induction false} AcceptAllWrites(s: State, ids: seq<SwapId>)
    requires s.history.Keys == s.swaps.Keys && AcceptAll(s, ids).Ok?
    ensures Wrote(s, AcceptAll(s, ids).value, ids, Accepted)
    decreases |ids|
  {
    if ids == [] {
      WroteNothing(s, Accepted);
    } else {
      var next := Do(s, ids[0], BatchAcceptPlan(s, ids[0])).value;
      WroteOne(s, ids[0], BatchAcceptPlan(s, ids[0]), Accepted);
      AcceptAllWrites(next, ids[1..]);
      WroteFirst(s, next, AcceptAll(s, ids).value, ids, Accepted);
    }
  }

  lemma {:induction false} RevealAllWrites(s: State, ids: seq<SwapId>)
    requires s.history.Keys == s.swaps.Keys && RevealAll(s, ids).Ok?
    ensures Wrote(s, RevealAll(s, ids).value, ids, Completed)
    decreases |ids|
  {
    if ids == [] {
      WroteNothing(s, Completed);
    } else {
      var next := Do(s, ids[0], BatchRevealPlan(s, ids[0])).value;
      WroteOne(s, ids[0], BatchRevealPlan(s, ids[0]), Completed);
      RevealAllWrites(next, ids[1..]);
      WroteFirst(s, next, RevealAll(s, ids).value, ids, Completed);
    }
  }

  lemma {:induction false} ArbitrateAllWrites(s: State, ids: seq<SwapId>, refund: bool)
    requires s.history.Keys == s.swaps.Keys && ArbitrateAll(s, ids, refund).Ok?
    ensures Wrote(s, ArbitrateAll(s, ids, refund).value, ids, Outcome(refund))
    decreases |ids|
  {
    if ids == [] {
      WroteNothing(s, Outcome(refund));
    } else {
      var next := Do(s, ids[0], BatchArbitratePlan(s, ids[0], refund)).value;
      WroteOne(s, ids[0], BatchArbitratePlan(s, ids[0], refund), Outcome(refund));
      ArbitrateAllWrites(next, ids[1..], refund);
      WroteFirst(s, next, ArbitrateAll(s, ids, refund).value, ids, Outcome(refund));
    }
  }

  lemma {:induction false} CancelAllWrites(s: State, ids: seq<SwapId>, canceller: Address)
    requires s.history.Keys == s.swaps.Keys && CancelAll(s, ids, canceller).Ok?
    ensures Wrote(s, CancelAll(s, ids, canceller).value, ids, Cancelled)
    decreases |ids|
  {
    if ids == [] {
      WroteNothing(s, Cancelled);
    } else {
      var next := Do(s, ids[0], CancelPlan(s, ids[0], canceller)).value;
      WroteOne(s, ids[0], CancelPlan(s, ids[0], canceller), Cancelled);
      CancelAllWrites(next, ids[1..], canceller);
      WroteFirst(s, next, CancelAll(s, ids, canceller).value, ids, Cancelled);
    }
  }

  lemma {:induction false} RollBackAllWrites(s: State, ids: seq<SwapId>)
    requires s.history.Keys == s.swaps.Keys && RollBackAll(s, ids).Ok?
    ensures Wrote(s, RollBackAll(s, ids).value, ids, Cancelled)
    decreases |ids|
  {
    if ids == [] {
      WroteNothing(s, Cancelled);
    } else {
      var next := Do(s, ids[0], BatchRollbackPlan(s, ids[0])).value;
      WroteOne(s, ids[0], BatchRollbackPlan(s, ids[0]), Cancelled);
      RollBackAllWrites(next, ids[1..]);
      WroteFirst(s, next, RollBackAll(s, ids).value, ids, Cancelled);
    }
  }

  /** The swaps that a batch writes for, in order, and the status that it gives them. */
  function Batched(op: Op): seq<SwapId>
    requires OnStored(op)
  {
    match op
    case BatchEscrowDeposit(ids, _) => ids
    case BatchAccept(ids, _) => ids
    case BatchReveal(ids, _, _) => ids
    case BatchArbitrate(ids, _, _) => ids
    case BatchCancel(ids, _, _) => ids
    case BatchRollback(ids, _) => ids
  }

  function Given(op: Op): Status
    requires OnStored(op)
  {
    match op
    case BatchEscrowDeposit(_, _) => Accepted
    case BatchAccept(_, _) => Accepted
    case BatchReveal(_, _, _) => Completed
    case BatchArbitrate(_, _, refund) => Outcome(refund)
    case BatchCancel(_, _, _) => Cancelled
    case BatchRollback(_, _) => Cancelled
  }

  lemma CheckedBatchWrites(s: State, op: Op)
    requires s.history.Keys == s.swaps.Keys && Step(s, op).Ok?
    requires op.BatchAccept? || op.BatchReveal? || op.BatchRollback?
    ensures Wrote(s, Step(s, op).value, Batched(op), Given(op))
  {
    if op.BatchAccept? {
      BatchAcceptCarries(s, op.ids, op.buyer);
      AcceptAllWrites(s, op.ids);
    } else if op.BatchReveal? {
      BatchRevealCarries(s, op.ids, op.digests, op.seller);
      RevealAllWrites(s, op.ids);
    } else {
      BatchRollbackCarries(s, op.ids, op.caller);
      RollBackAllWrites(s, op.ids);
    }
  }

  lemma BatchWrites(s: State, op: Op)
    requires s.history.Keys == s.swaps.Keys && OnStored(op) && Step(s, op).Ok?
    ensures Wrote(s, Step(s, op).value, Batched(op), Given(op))
  {
    if op.BatchEscrowDeposit? {
      BatchDepositCarries(s, op.ids, op.buyer);
      DepositAllWrites(s, op.ids, op.buyer);
    } else if op.BatchArbitrate? {
      BatchArbitrateCarries(s, op.ids, op.arbitrator, op.refund);
      ArbitrateAllWrites(s, op.ids, op.refund);
    } else if op.BatchCancel? {
      BatchCancelCarries(s, op.ids, op.caller, op.reasons);
      CancelAllWrites(s, op.ids, op.caller);
    } else {
      CheckedBatchWrites(s, op);
    }
  }

  // ── Openings ─────────────────────────────────────────────────────────────

  lemma {:induction false} OpenCheckingBegins(s: State, b: BatchTerms, ips: seq<IpId>, prices: seq<I128>, insured: bool)
    requires Numbered(s) && s.history.Keys == s.swaps.Keys && OpenChecking(s, b, ips, prices, insured).Ok?
    ensures Began(s, OpenChecking(s, b, ips, prices, insured).value)
    decreases |ips|
  {
    if ips == [] {
    } else {
      var rec := RecordOf(s, ItemTerms(b, ips[0], prices[0], insured), Premium(prices[0], insured).value);
      EnrollBegins(s, rec, true, true);
      EnrollBook(s, rec, true, true);
      OpenCheckingBegins(Open(s, rec), b, ips[1..], prices[1..], insured);
      BeganThen(s, Open(s, rec), OpenChecking(s, b, ips, prices, insured).value);
    }
  }

  lemma EscrowBegins(
      s: State, token: Token, ip: IpId, seller: Address, price: int, buyer: Address, timeout: nat, byIp: bool)
    requires Numbered(s) && s.history.Keys == s.swaps.Keys
    ensures Began(s, OpenEscrow(s, token, ip, seller, price, buyer, timeout, byIp))
  {
    EnrollBegins(s, NewRecord(s, token, ip, seller, price, buyer).(expiry := timeout), true, byIp);
  }

  lemma {:induction false} OpenEscrowsBegins(
      s: State, token: Token, seller: Address, buyer: Address, ips: seq<IpId>, prices: seq<I128>, timeouts: seq<nat>)
    requires Numbered(s) && s.history.Keys == s.swaps.Keys
    requires |ips| == |prices| == |timeouts| && OpenEscrows(s, token, seller, buyer, ips, prices, timeouts).Ok?
    ensures Began(s, OpenEscrows(s, token, seller, buyer, ips, prices, timeouts).value)
    decreases |ips|
  {
    if ips == [] {
    } else {
      var first := OpenEscrow(s, token, ips[0], seller, prices[0], buyer, timeouts[0], true);
      EscrowBegins(s, token, ips[0], seller, prices[0], buyer, timeouts[0], true);
      EscrowBook(s, token, ips[0], seller, prices[0], buyer, timeouts[0], true);
      OpenEscrowsBegins(first, token, seller, buyer, ips[1..], prices[1..], timeouts[1..]);
      BeganThen(s, first, OpenEscrows(s, token, seller, buyer, ips, prices, timeouts).value);
    }
  }

  lemma ScheduleBegins(s: State, token: Token, ip: IpId, seller: Address, schedule: seq<Payment>, buyer: Address)
    requires Numbered(s) && s.history.Keys == s.swaps.Keys
    requires SwapSpec.InitiateWithSchedule(s, token, ip, seller, schedule, buyer).Ok?
    ensures Began(s, SwapSpec.InitiateWithSchedule(s, token, ip, seller, schedule, buyer).value)
  {
    var rec := NewRecord(s, token, ip, seller, ScheduleTotal(schedule), buyer).(installment := true);
    EnrollBegins(s, rec, true, true);
    SameBegins(s, Open(s, rec), SwapSpec.InitiateWithSchedule(s, token, ip, seller, schedule, buyer).value);
  }

  lemma SignersBegin(
      s: State, token: Token, ip: IpId, seller: Address, price: I128, buyer: Address, required: seq<Address>)
    requires Numbered(s) && s.history.Keys == s.swaps.Keys
    requires SwapSpec.InitiateWithSigners(s, token, ip, seller, price, buyer, required).Ok?
    ensures Began(s, SwapSpec.InitiateWithSigners(s, token, ip, seller, price, buyer, required).value)
  {
    var rec := NewRecord(s, token, ip, seller, price, buyer);
    EnrollBegins(s, rec, true, true);
    SameBegins(s, Open(s, rec), SwapSpec.InitiateWithSigners(s, token, ip, seller, price, buyer, required).value);
  }

  lemma InitiateBegins(s: State, t: Terms)
    requires Numbered(s) && s.history.Keys == s.swaps.Keys && InitiateSwap(s, t).Ok?
    ensures Began(s, InitiateSwap(s, t).value)
  {
    EnrollBegins(s, RecordOf(s, t, Premium(t.price, t.insured).value), true, true);
  }

  lemma OpeningBegins(s: State, op: Op)
    requires Numbered(s) && s.history.Keys == s.swaps.Keys && OpensOne(op) && Step(s, op).Ok?
    ensures Began(s, Step(s, op).value)
  {
    if op.Initiate? {
      InitiateBegins(s, op.terms);
    } else if op.InitiateWithSchedule? {
      ScheduleBegins(s, op.token, op.ip, op.seller, op.schedule, op.buyer);
    } else if op.InitiateWithSigners? {
      SignersBegin(s, op.token, op.ip, op.seller, op.price, op.buyer, op.required);
    } else {
      EscrowBegins(s, op.token, op.ip, op.seller, op.price, op.buyer, op.timeout, false);
    }
  }

  lemma BatchInitiateBegins(s: State, b: BatchTerms, ips: seq<IpId>, prices: seq<I128>)
    requires Numbered(s) && s.history.Keys == s.swaps.Keys && SwapSpec.BatchInitiate(s, b, ips, prices).Ok?
    ensures Began(s, SwapSpec.BatchInitiate(s, b, ips, prices).value)
  {
    TwoPassesAreOne(s, b, ips, prices);
    OpenCheckingBegins(s, b, ips, prices, false);
  }

  lemma BatchOpeningBegins(s: State, op: Op)
    requires Numbered(s) && s.history.Keys == s.swaps.Keys && OpensMany(op) && Step(s, op).Ok?
    ensures Began(s, Step(s, op).value)
  {
    if op.BatchInitiate? {
      BatchInitiateBegins(s, op.batch, op.ips, op.prices);
    } else if op.BatchInitiateWithInsurance? {
      OpenCheckingBegins(s, op.batch, op.ips, op.prices, op.insured);
    } else {
      OpenEscrowsBegins(s, op.token, op.seller, op.buyer, op.ips, op.prices, op.timeouts);
    }
  }

  lemma NothingBegins(s: State, s': State)
    requires s.history.Keys == s.swaps.Keys && s'.now == s.now && s'.swaps == s.swaps && s'.history == s.history
    ensures Began(s, s')
  {
  }

  lemma FinalizeBegins(s: State, id: AuctionId)
    requires Numbered(s) && s.history.Keys == s.swaps.Keys && SwapSpec.FinalizeAuction(s, id).Ok?
    ensures Began(s, SwapSpec.FinalizeAuction(s, id).value)
  {
    var auction := s.house.auctions[id];
    var closed := CloseAuction(s, id, auction);
    NothingBegins(s, closed);
    if auction.highestBidder.Some? {
      EnrollBegins(closed, WonSwap(s, auction, auction.highestBidder.value), false, true);
      BeganThen(s, closed, SwapSpec.FinalizeAuction(s, id).value);
    }
  }

  /** Calls that are about no stored swap. */
  predicate OnNone(op: Op) {
    !op.Surround? && !op.On? && !OnStored(op)
  }

  lemma NewBegins(s: State, op: Op)
    requires Numbered(s) && s.history.Keys == s.swaps.Keys && OnNone(op) && Step(s, op).Ok?
    ensures Began(s, Step(s, op).value)
  {
    if OpensOne(op) {
      OpeningBegins(s, op);
    } else if OpensMany(op) {
      BatchOpeningBegins(s, op);
    } else if op.FinalizeAuction? {
      FinalizeBegins(s, op.auction);
    } else {
      NothingBegins(s, Step(s, op).value);
    }
  }

  // ── When histories stay in order ─────────────────────────────────────────

  lemma WroteForOk(s: State, s': State, id: SwapId, n: nat, status: Status)
    requires id in s.swaps && id in s'.swaps && s'.now == s.now
    requires LogOk(LogOf(s, id), Present(s, id)) && WroteFor(s, s', id, n, status)
    ensures LogOk(LogOf(s', id), Present(s', id)) <==> n == 0 || (n == 1 && LoggedRank(s, id) < status.Rank())
  {
    if n == 0 {
      assert LogOf(s', id) == LogOf(s, id);
    } else {
      CopiesClimb(LogOf(s, id), s.now, n, HistoryEntry(status, s.now));
    }
  }

  /** Writing a status for a batch keeps all histories in order exactly when no swap is named twice and none had
      come that far already. */
  lemma WroteKeepsExactly(s: State, s': State, ids: seq<SwapId>, status: Status)
    requires HistoryOk(s) && Wrote(s, s', ids, status)
    ensures HistoryOk(s') <==> Distinct(ids) && forall id :: id in ids ==> LoggedRank(s, id) < status.Rank()
  {
    DistinctOnce(ids);
    forall id | id in s.swaps
      ensures LogOk(LogOf(s', id), Present(s', id))
        <==> id !in ids || (multiset(ids)[id] == 1 && LoggedRank(s, id) < status.Rank())
    {
      WroteForOk(s, s', id, multiset(ids)[id], status);
    }
  }

  /** One swap's history is kept in order by a new entry exactly if the entry is further along, and without one
      exactly if the swap does not fall behind it. */
  predicate Climbs(s: State, id: SwapId, c: Change) {
    if c.logged then LoggedRank(s, id) < c.swap.status.Rank() else LoggedRank(s, id) <= c.swap.status.Rank()
  }

  /** Without a new entry only the swap's own history can fall out of order. */
  lemma QuietKeepsExactly(s: State, id: SwapId, plan: Result<Change>)
    requires HistoryOk(s) && id in s.swaps && Do(s, id, plan).Ok? && !plan.value.logged
    ensures HistoryOk(Do(s, id, plan).value) <==> Climbs(s, id, plan.value)
  {
    var s' := Do(s, id, plan).value;
    assert s'.history == s.history && s'.swaps == s.swaps[id := plan.value.swap] && s'.now == s.now;
    assert LogOk(LogOf(s, id), Present(s, id));
    forall j | j in s.swaps && j != id ensures LogOk(LogOf(s', j), Present(s', j)) {
      assert LogOk(LogOf(s, j), Present(s, j));
    }
    assert LogOk(LogOf(s', id), Present(s', id)) <==> Climbs(s, id, plan.value);
  }

  lemma LoggedKeepsExactly(s: State, id: SwapId, plan: Result<Change>)
    requires HistoryOk(s) && id in s.swaps && Do(s, id, plan).Ok? && plan.value.logged
    ensures HistoryOk(Do(s, id, plan).value) <==> Climbs(s, id, plan.value)
  {
    var s', status := Do(s, id, plan).value, plan.value.swap.status;
    WroteOne(s, id, plan, status);
    assert WroteFor(s, s', id, 1, status);
    WroteForOk(s, s', id, 1, status);
    forall j | j in s.swaps && j != id ensures LogOk(LogOf(s', j), Present(s', j)) {
      assert WroteFor(s, s', j, 0, status);
      WroteForOk(s, s', j, 0, status);
    }
  }

  lemma ChangeKeepsExactly(s: State, id: SwapId, plan: Result<Change>)
    requires HistoryOk(s) && id in s.swaps && Do(s, id, plan).Ok?
    ensures HistoryOk(Do(s, id, plan).value) <==> Climbs(s, id, plan.value)
  {
    if plan.value.logged {
      LoggedKeepsExactly(s, id, plan);
    } else {
      QuietKeepsExactly(s, id, plan);
    }
  }

  /** The acts that may write a status a second time, or leave the history ahead of the swap. The history decides:
      a swap may be settled without a word in it. */
  predicate LogsOnceAct(s: State, id: SwapId, act: Act) {
    match act
    case MakeScheduledPayment(index) => LastPayment(s, id, index) ==> LoggedRank(s, id) < Accepted.Rank()
    case AdminRollback(_) => LoggedRank(s, id) < Cancelled.Rank()
    case Arbitrate(_, _) => LoggedRank(s, id) <= Completed.Rank()
    case _ => true
  }

  lemma PreparingLogs(s: State, id: SwapId, act: Act)
    requires Prepares(act) && !act.MakeScheduledPayment? && Plan(s, id, act).Ok?
    ensures id in s.swaps
    ensures Plan(s, id, act).value.logged ==> s.swaps[id].status.Rank() < Plan(s, id, act).value.swap.status.Rank()
  {
  }

  /** The calls that end a swap, or dispute it, log a later status or none. */
  lemma DisputingLogs(s: State, id: SwapId, act: Act)
    requires act.RequestArbitration? || act.RaiseDispute? || act.ResolveDispute?
      || act.AutoResolveDispute? || act.AutoRefundTimeout?
    requires Plan(s, id, act).Ok?
    ensures id in s.swaps
    ensures Plan(s, id, act).value.logged ==> s.swaps[id].status.Rank() < Plan(s, id, act).value.swap.status.Rank()
  {
  }

  lemma CancellingLogs(s: State, id: SwapId, act: Act)
    requires act.Cancel? || act.CancelPending? || act.CancelExpired? || act.EscrowWithdraw?
    requires Plan(s, id, act).Ok?
    ensures id in s.swaps
    ensures Plan(s, id, act).value.logged ==> s.swaps[id].status.Rank() < Plan(s, id, act).value.swap.status.Rank()
  {
  }

  lemma RevealLogs(s: State, id: SwapId, caller: Address, digest: Digest)
    requires RevealPlan(s, id, caller, digest).Ok?
    ensures id in s.swaps && s.swaps[id].status.Rank() < RevealPlan(s, id, caller, digest).value.swap.status.Rank()
  {
  }

  lemma VerifyAndCompleteLogs(s: State, id: SwapId, caller: Address, digest: Digest)
    requires VerifyAndCompletePlan(s, id, caller, digest).Ok?
    ensures id in s.swaps && !VerifyAndCompletePlan(s, id, caller, digest).value.logged
  {
  }

  lemma CompletingLogs(s: State, id: SwapId, act: Act)
    requires (act.Reveal? || act.VerifyAndComplete?) && Plan(s, id, act).Ok?
    ensures id in s.swaps
    ensures Plan(s, id, act).value.logged ==> s.swaps[id].status.Rank() < Plan(s, id, act).value.swap.status.Rank()
  {
    if act.Reveal? {
      RevealLogs(s, id, act.caller, act.digest);
    } else {
      VerifyAndCompleteLogs(s, id, act.caller, act.digest);
    }
  }

  lemma ReportingLogs(s: State, id: SwapId, act: Act)
    requires (act.ValidateAndRollback? || act.ClaimInsurance?) && Plan(s, id, act).Ok?
    ensures id in s.swaps
    ensures Plan(s, id, act).value.logged ==> s.swaps[id].status.Rank() < Plan(s, id, act).value.swap.status.Rank()
  {
  }

  lemma OrdinaryLogs(s: State, id: SwapId, act: Act)
    requires Ordinary(act) && Plan(s, id, act).Ok?
    ensures id in s.swaps
    ensures Plan(s, id, act).value.logged ==> s.swaps[id].status.Rank() < Plan(s, id, act).value.swap.status.Rank()
  {
    if Prepares(act) {
      PreparingLogs(s, id, act);
    } else if act.RequestArbitration? || act.RaiseDispute? || act.ResolveDispute? || act.AutoResolveDispute?
              || act.AutoRefundTimeout? {
      DisputingLogs(s, id, act);
    } else if act.Cancel? || act.CancelPending? || act.CancelExpired? || act.EscrowWithdraw? {
      CancellingLogs(s, id, act);
    } else if act.Reveal? || act.VerifyAndComplete? {
      CompletingLogs(s, id, act);
    } else {
      ReportingLogs(s, id, act);
    }
  }

  lemma OrdinaryForward(s: State, id: SwapId, act: Act)
    requires Inv(s) && Ordinary(act) && Plan(s, id, act).Ok?
    ensures id in s.swaps && Forward(s.swaps[id].status, Plan(s, id, act).value.swap.status)
  {
    OrdinaryLegal(s, id, act);
  }

  /** All other acts log a later status, or none and do not set the status back. */
  lemma OrdinaryClimbs(s: State, id: SwapId, act: Act)
    requires Inv(s) && HistoryOk(s) && Ordinary(act) && Plan(s, id, act).Ok?
    ensures id in s.swaps && Climbs(s, id, Plan(s, id, act).value)
  {
    OrdinaryForward(s, id, act);
    OrdinaryLogs(s, id, act);
    assert LogOk(LogOf(s, id), Present(s, id));
  }

  lemma ScheduledPaymentClimbs(s: State, id: SwapId, index: nat)
    requires HistoryOk(s) && Do(s, id, ScheduledPaymentPlan(s, id, index)).Ok?
    ensures id in s.swaps
    ensures Climbs(s, id, ScheduledPaymentPlan(s, id, index).value) <==> LogsOnceAct(s, id, MakeScheduledPayment(index))
  {
    ScheduledPaymentDone(s, id, index);
    assert LogOk(LogOf(s, id), Present(s, id));
  }

  lemma AdminRollbackClimbs(s: State, id: SwapId, caller: Address)
    requires AdminRollbackPlan(s, id, caller).Ok?
    ensures id in s.swaps
    ensures Climbs(s, id, AdminRollbackPlan(s, id, caller).value) <==> LogsOnceAct(s, id, AdminRollback(caller))
  {
  }

  lemma ArbitrateClimbs(s: State, id: SwapId, arbitrator: Address, refund: bool)
    requires ArbitratePlan(s, id, arbitrator, refund).Ok?
    ensures id in s.swaps
    ensures Climbs(s, id, ArbitratePlan(s, id, arbitrator, refund).value)
      <==> LogsOnceAct(s, id, Arbitrate(arbitrator, refund))
  {
  }

  lemma ActClimbs(s: State, id: SwapId, act: Act)
    requires Inv(s) && HistoryOk(s) && Do(s, id, Plan(s, id, act)).Ok?
    ensures id in s.swaps && (Climbs(s, id, Plan(s, id, act).value) <==> LogsOnceAct(s, id, act))
  {
    if act.MakeScheduledPayment? {
      ScheduledPaymentClimbs(s, id, act.index);
    } else if act.AdminRollback? {
      AdminRollbackClimbs(s, id, act.caller);
    } else if act.Arbitrate? {
      ArbitrateClimbs(s, id, act.arbitrator, act.refund);
    } else {
      OrdinaryClimbs(s, id, act);
    }
  }

  /** A call about one swap that goes through keeps all histories in order exactly under the condition that
      `LogsOnceAct` states. */
  lemma ActHistoryExactly(s: State, id: SwapId, act: Act)
    requires Inv(s) && HistoryOk(s) && Do(s, id, Plan(s, id, act)).Ok?
    ensures HistoryOk(Do(s, id, Plan(s, id, act)).value) <==> LogsOnceAct(s, id, act)
  {
    ActClimbs(s, id, act);
    ChangeKeepsExactly(s, id, Plan(s, id, act));
  }

  ghost predicate LogsOnce(s: State, op: Op) {
    match op
    case Surround(now, _, _, _) => s.now <= now
    case On(id, act) => LogsOnceAct(s, id, act)
    case BatchAccept(ids, _) => Distinct(ids)
    case BatchReveal(ids, _, _) => Distinct(ids)
    case BatchRollback(ids, _) => Distinct(ids) && forall id :: id in ids ==> LoggedRank(s, id) < Cancelled.Rank()
    case _ => true
  }

  ghost predicate Are(s: State, ids: seq<SwapId>, status: Status) {
    forall id :: id in ids ==> id in s.swaps && s.swaps[id].status == status
  }

  /** The swap `id` leaves the status `status`; no other swap changes. */
  predicate Leaves(s: State, s': State, id: SwapId, status: Status) {
    && id in s.swaps && s.swaps[id].status == status
    && id in s'.swaps && s'.swaps[id].status != status && s'.swaps == s.swaps[id := s'.swaps[id]]
  }

  lemma LeavesFirst(s: State, next: State, ids: seq<SwapId>, status: Status)
    requires ids != [] && Leaves(s, next, ids[0], status) && Are(next, ids[1..], status) && Distinct(ids[1..])
    ensures Are(s, ids, status) && Distinct(ids)
  {
    assert ids[0] !in ids[1..];
    DistinctSplits(ids);
    forall id | id in ids ensures id in s.swaps && s.swaps[id].status == status {
      assert id == ids[0] || id in ids[1..];
    }
  }

  lemma DepositsItem(s: State, id: SwapId, buyer: Address)
    requires Do(s, id, BatchDepositPlan(s, id, buyer)).Ok?
    ensures Leaves(s, Do(s, id, BatchDepositPlan(s, id, buyer)).value, id, Pending)
  {
  }

  lemma {:induction false} DepositsOnce(s: State, ids: seq<SwapId>, buyer: Address)
    requires DepositAll(s, ids, buyer).Ok?
    ensures Are(s, ids, Pending) && Distinct(ids)
    decreases |ids|
  {
    if ids == [] {
    } else {
      var next := Do(s, ids[0], BatchDepositPlan(s, ids[0], buyer)).value;
      DepositsItem(s, ids[0], buyer);
      DepositsOnce(next, ids[1..], buyer);
      LeavesFirst(s, next, ids, Pending);
    }
  }

  lemma ArbitrationsItem(s: State, id: SwapId, refund: bool)
    requires Do(s, id, BatchArbitratePlan(s, id, refund)).Ok?
    ensures Leaves(s, Do(s, id, BatchArbitratePlan(s, id, refund)).value, id, Disputed)
  {
  }

  lemma {:induction false} ArbitrationsOnce(s: State, ids: seq<SwapId>, refund: bool)
    requires ArbitrateAll(s, ids, refund).Ok?
    ensures Are(s, ids, Disputed) && Distinct(ids)
    decreases |ids|
  {
    if ids == [] {
    } else {
      var next := Do(s, ids[0], BatchArbitratePlan(s, ids[0], refund)).value;
      ArbitrationsItem(s, ids[0], refund);
      ArbitrationsOnce(next, ids[1..], refund);
      LeavesFirst(s, next, ids, Disputed);
    }
  }

  lemma CancellationsItem(s: State, id: SwapId, canceller: Address)
    requires Do(s, id, CancelPlan(s, id, canceller)).Ok?
    ensures Leaves(s, Do(s, id, CancelPlan(s, id, canceller)).value, id, Pending)
  {
  }

  lemma {:induction false} CancellationsOnce(s: State, ids: seq<SwapId>, canceller: Address)
    requires CancelAll(s, ids, canceller).Ok?
    ensures Are(s, ids, Pending) && Distinct(ids)
    decreases |ids|
  {
    if ids == [] {
    } else {
      var next := Do(s, ids[0], CancelPlan(s, ids[0], canceller)).value;
      CancellationsItem(s, ids[0], canceller);
      CancellationsOnce(next, ids[1..], canceller);
      LeavesFirst(s, next, ids, Pending);
    }
  }

  lemma {:induction false} AcceptsArePending(s: State, ids: seq<SwapId>, buyer: Address)
    requires ValidateAccepts(s, ids, buyer).Pass?
    ensures Are(s, ids, Pending)
  {
    if ids == [] {
    } else {
      AcceptsArePending(s, ids[1..], buyer);
    }
  }

  /** A batch of swaps that all have one status, and are given a later one, keeps histories in order as long as no
      swap comes twice. */
  lemma FreshBatch(s: State, s': State, ids: seq<SwapId>, before: Status, status: Status)
    requires HistoryOk(s) && Wrote(s, s', ids, status) && Are(s, ids, before) && before.Rank() < status.Rank()
    ensures HistoryOk(s') <==> Distinct(ids)
  {
    WroteKeepsExactly(s, s', ids, status);
    forall id | id in ids ensures LoggedRank(s, id) < status.Rank() {
      assert LogOk(LogOf(s, id), Present(s, id));
    }
  }

  lemma DepositHistory(s: State, ids: seq<SwapId>, buyer: Address)
    requires HistoryOk(s) && DepositAll(s, ids, buyer).Ok?
    ensures HistoryOk(DepositAll(s, ids, buyer).value)
  {
    DepositsOnce(s, ids, buyer);
    DepositAllWrites(s, ids, buyer);
    FreshBatch(s, DepositAll(s, ids, buyer).value, ids, Pending, Accepted);
  }

  lemma ArbitrateHistory(s: State, ids: seq<SwapId>, refund: bool)
    requires HistoryOk(s) && ArbitrateAll(s, ids, refund).Ok?
    ensures HistoryOk(ArbitrateAll(s, ids, refund).value)
  {
    ArbitrationsOnce(s, ids, refund);
    ArbitrateAllWrites(s, ids, refund);
    FreshBatch(s, ArbitrateAll(s, ids, refund).value, ids, Disputed, Outcome(refund));
  }

  lemma CancelHistory(s: State, ids: seq<SwapId>, canceller: Address)
    requires HistoryOk(s) && CancelAll(s, ids, canceller).Ok?
    ensures HistoryOk(CancelAll(s, ids, canceller).value)
  {
    CancellationsOnce(s, ids, canceller);
    CancelAllWrites(s, ids, canceller);
    FreshBatch(s, CancelAll(s, ids, canceller).value, ids, Pending, Cancelled);
  }

  lemma AcceptHistory(s: State, ids: seq<SwapId>)
    requires HistoryOk(s) && Are(s, ids, Pending) && AcceptAll(s, ids).Ok?
    ensures HistoryOk(AcceptAll(s, ids).value) <==> Distinct(ids)
  {
    AcceptAllWrites(s, ids);
    FreshBatch(s, AcceptAll(s, ids).value, ids, Pending, Accepted);
  }

  lemma RevealHistory(s: State, ids: seq<SwapId>)
    requires HistoryOk(s) && Are(s, ids, Accepted) && RevealAll(s, ids).Ok?
    ensures HistoryOk(RevealAll(s, ids).value) <==> Distinct(ids)
  {
    RevealAllWrites(s, ids);
    FreshBatch(s, RevealAll(s, ids).value, ids, Accepted, Completed);
  }

  lemma RollBackHistory(s: State, ids: seq<SwapId>)
    requires HistoryOk(s) && RollBackAll(s, ids).Ok?
    ensures HistoryOk(RollBackAll(s, ids).value)
      <==> Distinct(ids) && forall id :: id in ids ==> LoggedRank(s, id) < Cancelled.Rank()
  {
    RollBackAllWrites(s, ids);
    WroteKeepsExactly(s, RollBackAll(s, ids).value, ids, Cancelled);
  }

  /** A batch of acceptances that goes through keeps histories in order exactly when no id is repeated. */
  lemma BatchAcceptHistoryExactly(s: State, ids: seq<SwapId>, buyer: Address)
    requires HistoryOk(s) && SwapSpec.BatchAccept(s, ids, buyer).Ok?
    ensures HistoryOk(SwapSpec.BatchAccept(s, ids, buyer).value) <==> Distinct(ids)
  {
    BatchAcceptCarries(s, ids, buyer);
    AcceptsArePending(s, ids, buyer);
    AcceptHistory(s, ids);
  }

  /** And so does a batch of reveals. */
  lemma BatchRevealHistoryExactly(s: State, ids: seq<SwapId>, digests: seq<Digest>, seller: Address)
    requires HistoryOk(s) && SwapSpec.BatchReveal(s, ids, digests, seller).Ok?
    ensures HistoryOk(SwapSpec.BatchReveal(s, ids, digests, seller).value) <==> Distinct(ids)
  {
    BatchRevealCarries(s, ids, digests, seller);
    ValidatedReveals(s, ids, seller, digests);
    RevealHistory(s, ids);
  }

  /** A batch of rollbacks does so exactly when, besides, no history in it has ended. */
  lemma BatchRollbackHistoryExactly(s: State, ids: seq<SwapId>, caller: Address)
    requires HistoryOk(s) && SwapSpec.BatchRollback(s, ids, caller).Ok?
    ensures HistoryOk(SwapSpec.BatchRollback(s, ids, caller).value)
      <==> Distinct(ids) && forall id :: id in ids ==> LoggedRank(s, id) < Cancelled.Rank()
  {
    BatchRollbackCarries(s, ids, caller);
    RollBackHistory(s, ids);
  }

  lemma BatchHistoryExactly(s: State, op: Op)
    requires HistoryOk(s) && OnStored(op) && Step(s, op).Ok?
    ensures HistoryOk(Step(s, op).value) <==> LogsOnce(s, op)
  {
    if op.BatchEscrowDeposit? {
      DepositHistory(s, op.ids, op.buyer);
    } else if op.BatchAccept? {
      BatchAcceptHistoryExactly(s, op.ids, op.buyer);
    } else if op.BatchReveal? {
      BatchRevealHistoryExactly(s, op.ids, op.digests, op.seller);
    } else if op.BatchArbitrate? {
      ArbitrateHistory(s, op.ids, op.refund);
    } else if op.BatchCancel? {
      CancelHistory(s, op.ids, op.caller);
    } else {
      BatchRollbackHistoryExactly(s, op.ids, op.caller);
    }
  }

  lemma BeganKeeps(s: State, s': State)
    requires HistoryOk(s) && Began(s, s')
    ensures HistoryOk(s')
  {
  }

  /** Of all calls that go through, exactly those under `LogsOnce` keep every history in order: acceptances and
      reveals that name no swap twice, rollbacks of swaps whose history has not yet ended, last payments of swaps
      whose history says no more than Pending, and nearly all the rest without any condition. */
  lemma StepHistoryExactly(s: State, op: Op)
    requires Inv(s) && HistoryOk(s) && Step(s, op).Ok? && (op.Surround? ==> s.now <= op.now)
    ensures HistoryOk(Step(s, op).value) <==> LogsOnce(s, op)
  {
    if op.On? {
      ActHistoryExactly(s, op.id, op.act);
    } else if OnStored(op) {
      BatchHistoryExactly(s, op);
    } else if OnNone(op) {
      NewBegins(s, op);
      BeganKeeps(s, Step(s, op).value);
    }
  }

  // ── Histories by themselves ──────────────────────────────────────────────

  ghost predicate LogsClimb(s: State) {
    s.history.Keys == s.swaps.Keys && (forall id :: id in s.swaps ==> Climbing(LogOf(s, id), s.now))
  }

  lemma WroteForClimbs(s: State, s': State, id: SwapId, n: nat, status: Status)
    requires id in s.swaps && id in s'.swaps && s'.now == s.now
    requires Climbing(LogOf(s, id), s.now) && WroteFor(s, s', id, n, status)
    ensures Climbing(LogOf(s', id), s.now) <==> n == 0 || (n == 1 && LoggedRank(s, id) < status.Rank())
  {
    if n == 0 {
      assert LogOf(s', id) == LogOf(s, id);
    } else {
      CopiesClimb(LogOf(s, id), s.now, n, HistoryEntry(status, s.now));
    }
  }

  lemma WroteClimbsExactly(s: State, s': State, ids: seq<SwapId>, status: Status)
    requires LogsClimb(s) && Wrote(s, s', ids, status)
    ensures LogsClimb(s') <==> Distinct(ids) && forall id :: id in ids ==> LoggedRank(s, id) < status.Rank()
  {
    DistinctOnce(ids);
    forall id | id in s.swaps
      ensures Climbing(LogOf(s', id), s'.now)
        <==> id !in ids || (multiset(ids)[id] == 1 && LoggedRank(s, id) < status.Rank())
    {
      WroteForClimbs(s, s', id, multiset(ids)[id], status);
    }
  }

  /** What is written comes once, and is further along than what the history says. */
  ghost predicate WritesOnward(s: State, op: Op) {
    if op.On? then
      var plan := Plan(s, op.id, op.act);
      plan.Ok? && plan.value.logged ==> LoggedRank(s, op.id) < plan.value.swap.status.Rank()
    else if OnStored(op) then
      Distinct(Batched(op)) && forall id :: id in Batched(op) ==> LoggedRank(s, id) < Given(op).Rank()
    else true
  }

  lemma QuietClimbs(s: State, id: SwapId, plan: Result<Change>)
    requires LogsClimb(s) && id in s.swaps && Do(s, id, plan).Ok? && !plan.value.logged
    ensures LogsClimb(Do(s, id, plan).value)
  {
    var s' := Do(s, id, plan).value;
    forall j | j in s'.swaps ensures Climbing(LogOf(s', j), s'.now) {
      assert Climbing(LogOf(s, j), s.now);
    }
  }

  lemma LoggedClimbs(s: State, id: SwapId, plan: Result<Change>)
    requires LogsClimb(s) && id in s.swaps && Do(s, id, plan).Ok? && plan.value.logged
    ensures LogsClimb(Do(s, id, plan).value) <==> LoggedRank(s, id) < plan.value.swap.status.Rank()
  {
    var s', status := Do(s, id, plan).value, plan.value.swap.status;
    WroteOne(s, id, plan, status);
    assert WroteFor(s, s', id, 1, status);
    WroteForClimbs(s, s', id, 1, status);
    forall j | j in s.swaps && j != id ensures Climbing(LogOf(s', j), s'.now) {
      assert WroteFor(s, s', j, 0, status);
      WroteForClimbs(s, s', j, 0, status);
    }
  }

  lemma ActLogsExactly(s: State, id: SwapId, act: Act)
    requires LogsClimb(s) && Do(s, id, Plan(s, id, act)).Ok?
    ensures LogsClimb(Do(s, id, Plan(s, id, act)).value) <==> WritesOnward(s, On(id, act))
  {
    ActParties(s, id, act);
    if Plan(s, id, act).value.logged {
      LoggedClimbs(s, id, Plan(s, id, act));
    } else {
      QuietClimbs(s, id, Plan(s, id, act));
    }
  }

  lemma BatchLogsExactly(s: State, op: Op)
    requires LogsClimb(s) && OnStored(op) && Step(s, op).Ok?
    ensures LogsClimb(Step(s, op).value) <==> WritesOnward(s, op)
  {
    BatchWrites(s, op);
    WroteClimbsExactly(s, Step(s, op).value, Batched(op), Given(op));
  }

  lemma BeganClimbs(s: State, s': State)
    requires LogsClimb(s) && Began(s, s')
    ensures LogsClimb(s')
  {
  }

  /** Whatever the statuses do: a call that goes through keeps every history climbing exactly when what it writes
      comes once and is further along. */
  lemma StepLogsExactly(s: State, op: Op)
    requires Numbered(s) && LogsClimb(s) && Step(s, op).Ok? && (op.Surround? ==> s.now <= op.now)
    ensures LogsClimb(Step(s, op).value) <==> WritesOnward(s, op)
  {
    if op.On? {
      ActLogsExactly(s, op.id, op.act);
    } else if OnStored(op) {
      BatchLogsExactly(s, op);
    } else if OnNone(op) {
      NewBegins(s, op);
      BeganClimbs(s, Step(s, op).value);
    }
  }

  // ── Whole runs ───────────────────────────────────────────────────────────

  ghost predicate LogsOnceRun(s: State, ops: seq<Op>)
    decreases |ops|
  {
    ops == [] || (LogsOnceRun(s, ops[..|ops| - 1]) && LogsOnce(Run(s, ops[..|ops| - 1]), ops[|ops| - 1]))
  }

  /** In every run of such calls each stored history climbs strictly through the statuses, at times that do not
      decrease, and never runs ahead of its swap. */
  lemma {:induction false} RunHistory(s: State, ops: seq<Op>)
    requires Genesis(s) && s.history == map[] && LogsOnceRun(s, ops)
    ensures HistoryOk(Run(s, ops))
    decreases |ops|
  {
    if ops == [] {
    } else {
      var before := Run(s, ops[..|ops| - 1]);
      RunHistory(s, ops[..|ops| - 1]);
      GenesisOk(s);
      RunInv(s, ops[..|ops| - 1]);
      if Step(before, ops[|ops| - 1]).Ok? {
        StepHistoryExactly(before, ops[|ops| - 1]);
      }
    }
  }

  /** A history keeps what it had and gains at most copies of the present. */
  predicate Gained(s: State, s': State, id: SwapId)
    requires id in s'.swaps
  {
    && |LogOf(s, id)| <= |LogOf(s', id)|
    && LogOf(s', id) == LogOf(s, id) + Copies(|LogOf(s', id)| - |LogOf(s, id)|, Present(s', id))
  }

  /** The batches that could name a swap twice and go through. */
  ghost predicate NoRepeats(op: Op) {
    op.BatchAccept? || op.BatchReveal? || op.BatchRollback? ==> Distinct(op.ids)
  }

  lemma WroteGains(s: State, s': State, ids: seq<SwapId>, status: Status, id: SwapId)
    requires Wrote(s, s', ids, status) && id in s.swaps
    ensures Gained(s, s', id)
    ensures Distinct(ids) ==> |LogOf(s', id)| <= |LogOf(s, id)| + 1
  {
    DistinctOnce(ids);
    assert WroteFor(s, s', id, multiset(ids)[id], status);
    assert id in ids <==> multiset(ids)[id] > 0;
  }

  lemma BatchDistinct(s: State, op: Op)
    requires OnStored(op) && Step(s, op).Ok? && NoRepeats(op)
    ensures Distinct(Batched(op))
  {
    if op.BatchEscrowDeposit? {
      DepositsOnce(s, op.ids, op.buyer);
    } else if op.BatchArbitrate? {
      ArbitrationsOnce(s, op.ids, op.refund);
    } else if op.BatchCancel? {
      CancellationsOnce(s, op.ids, op.caller);
    }
  }

  lemma ActGains(s: State, id: SwapId, act: Act, j: SwapId)
    requires s.history.Keys == s.swaps.Keys && Do(s, id, Plan(s, id, act)).Ok?
    ensures Do(s, id, Plan(s, id, act)).value.history.Keys == Do(s, id, Plan(s, id, act)).value.swaps.Keys
    ensures j in Do(s, id, Plan(s, id, act)).value.swaps ==> Gained(s, Do(s, id, Plan(s, id, act)).value, j)
    ensures |LogOf(Do(s, id, Plan(s, id, act)).value, j)| <= |LogOf(s, j)| + 1
  {
    ActParties(s, id, act);
    var s' := Do(s, id, Plan(s, id, act)).value;
    if Plan(s, id, act).value.logged {
      WroteOne(s, id, Plan(s, id, act), Plan(s, id, act).value.swap.status);
      if j in s.swaps {
        WroteGains(s, s', [id], Plan(s, id, act).value.swap.status, j);
      }
    }
  }

  /** Whatever the call, a history gains only the present, and gains it once if the call repeats no swap. */
  lemma StepGains(s: State, op: Op, id: SwapId)
    requires Numbered(s) && s.history.Keys == s.swaps.Keys && Step(s, op).Ok?
    ensures Step(s, op).value.history.Keys == Step(s, op).value.swaps.Keys
    ensures id in Step(s, op).value.swaps ==> Gained(s, Step(s, op).value, id)
    ensures NoRepeats(op) ==> |LogOf(Step(s, op).value, id)| <= |LogOf(s, id)| + 1
  {
    var s' := Step(s, op).value;
    if op.On? {
      ActGains(s, op.id, op.act, id);
    } else if OnStored(op) {
      BatchWrites(s, op);
      if NoRepeats(op) {
        BatchDistinct(s, op);
      }
      if id in s.swaps {
        WroteGains(s, s', Batched(op), Given(op), id);
      }
    } else if OnNone(op) {
      NewBegins(s, op);
    }
  }

  /** What a run showed of a swap after its first `n` calls. */
  predicate Showed(s: State, ops: seq<Op>, n: nat, id: SwapId, entry: HistoryEntry) {
    && n <= |ops| && id in Run(s, ops[..n]).swaps
    && entry == HistoryEntry(Run(s, ops[..n]).swaps[id].status, Run(s, ops[..n]).now)
  }

  /** A history tells, in order, of moments of the run; of different ones if `once`. */
  ghost predicate Traces(s: State, ops: seq<Op>, id: SwapId, log: seq<HistoryEntry>, moments: seq<nat>, once: bool) {
    && |moments| == |log|
    && (forall i, j :: 0 <= i < j < |moments| ==> moments[i] <= moments[j] && (once ==> moments[i] < moments[j]))
    && (forall i :: 0 <= i < |log| ==> Showed(s, ops, moments[i], id, log[i]))
  }

  lemma TracesLonger(s: State, ops: seq<Op>, id: SwapId, log: seq<HistoryEntry>, moments: seq<nat>, once: bool)
    requires ops != [] && Traces(s, ops[..|ops| - 1], id, log, moments, once)
    ensures Traces(s, ops, id, log, moments, once)
    ensures forall i :: 0 <= i < |moments| ==> moments[i] < |ops|
  {
    forall i | 0 <= i < |log| ensures moments[i] < |ops| && Showed(s, ops, moments[i], id, log[i]) {
      assert Showed(s, ops[..|ops| - 1], moments[i], id, log[i]);
      assert ops[..|ops| - 1][..moments[i]] == ops[..moments[i]];
    }
  }

  lemma TracesNow(s: State, ops: seq<Op>, id: SwapId, log: seq<HistoryEntry>, moments: seq<nat>, once: bool, n: nat)
    requires Traces(s, ops, id, log, moments, once) && (forall i :: 0 <= i < |moments| ==> moments[i] < |ops|)
    requires id in Run(s, ops).swaps && (once ==> n <= 1)
    ensures Traces(s, ops, id, log + Copies(n, Present(Run(s, ops), id)), moments + seq(n, _ => |ops|), once)
  {
    assert ops[..|ops|] == ops;
    assert Showed(s, ops, |ops|, id, Present(Run(s, ops), id));
  }

  lemma {:induction false} RunKeys(s: State, ops: seq<Op>)
    requires Numbered(s) && s.history.Keys == s.swaps.Keys
    ensures Run(s, ops).history.Keys == Run(s, ops).swaps.Keys
    decreases |ops|
  {
    if ops == [] {
    } else {
      RunKeys(s, ops[..|ops| - 1]);
      RunBook(s, ops[..|ops| - 1]);
      if Step(Run(s, ops[..|ops| - 1]), ops[|ops| - 1]).Ok? {
        StepGains(Run(s, ops[..|ops| - 1]), ops[|ops| - 1], 0);
      }
    }
  }

  lemma TraceStep(s: State, ops: seq<Op>, id: SwapId, moments: seq<nat>, once: bool) returns (more: seq<nat>)
    requires ops != [] && (once ==> NoRepeats(ops[|ops| - 1]))
    requires Numbered(Run(s, ops[..|ops| - 1]))
    requires Run(s, ops[..|ops| - 1]).history.Keys == Run(s, ops[..|ops| - 1]).swaps.Keys
    requires Traces(s, ops[..|ops| - 1], id, LogOf(Run(s, ops[..|ops| - 1]), id), moments, once)
    ensures Traces(s, ops, id, LogOf(Run(s, ops), id), more, once)
  {
    var before, op := Run(s, ops[..|ops| - 1]), ops[|ops| - 1];
    more := moments;
    TracesLonger(s, ops, id, LogOf(before, id), moments, once);
    if Step(before, op).Ok? {
      StepGains(before, op, id);
      StepBook(before, op);
      if id in Run(s, ops).swaps {
        var n := |LogOf(Run(s, ops), id)| - |LogOf(before, id)|;
        TracesNow(s, ops, id, LogOf(before, id), moments, once, n);
        more := moments + seq(n, _ => |ops|);
      }
    }
  }

  /** In every run at all, the stored history of a swap is made of the statuses and times that the swap really had
      at moments of the run, in order. If no batch of the run names a swap twice, they are different moments: the
      history is a subsequence of what happened. */
  lemma {:induction false} HistoryIsTrace(s: State, ops: seq<Op>, id: SwapId, once: bool) returns (moments: seq<nat>)
    requires s.nextId == 0 && s.swaps == map[] && s.history == map[]
    requires once ==> forall i :: 0 <= i < |ops| ==> NoRepeats(ops[i])
    ensures Traces(s, ops, id, LogOf(Run(s, ops), id), moments, once)
    decreases |ops|
  {
    if ops == [] {
      moments := [];
    } else {
      var before := HistoryIsTrace(s, ops[..|ops| - 1], id, once);
      RunBook(s, ops[..|ops| - 1]);
      RunKeys(s, ops[..|ops| - 1]);
      moments := TraceStep(s, ops, id, before, once);
    }
  }
}

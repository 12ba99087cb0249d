/** The book of swaps under any calls at all: who is party to which swap, and what the lists of each party say. */
module SwapBook {
  import opened Common
  import opened SwapState
  import opened SwapSpec
  import opened SwapSafety
  import opened SwapRuns
  import opened SwapBatches
  import opened BatchOpening

  // ── The book ─────────────────────────────────────────────────────────────

  datatype Role = AsSeller | AsBuyer

  function Party(swap: SwapRecord, role: Role): Address {
    match role
    case AsSeller => swap.seller
    case AsBuyer => swap.buyer
  }

  /** The stored list of a party. */
  function ListFor(index: Index, role: Role, a: Address): seq<SwapId> {
    match role
    case AsSeller => ListOf(index.bySeller, a)
    case AsBuyer => ListOf(index.byBuyer, a)
  }

  /** The ids below `n` of the swaps with this party, in ascending order. */
  function IdsOf(swaps: map<SwapId, SwapRecord>, n: nat, role: Role, a: Address): seq<SwapId> {
    if n == 0 then []
    else IdsOf(swaps, n - 1, role, a) + (if n - 1 in swaps && Party(swaps[n - 1], role) == a then [n - 1] else [])
  }

  ghost predicate Numbered(s: State) {
    forall id :: id in s.swaps <==> 0 <= id < s.nextId
  }

  ghost predicate ListsOk(s: State) {
    forall role: Role, a: Address :: ListFor(s.index, role, a) == IdsOf(s.swaps, s.nextId, role, a)
  }

  /** A swap keeps its IP, parties and token; once it is no longer Pending it never is again, and its price is fixed. */
  predicate Continues(a: SwapRecord, b: SwapRecord) {
    SameParties(a, b) && (a.status != Pending ==> b.status != Pending && b.price == a.price)
  }

  /** What every call does to the book: no swap disappears or changes what is fixed, one that the call does not
      name stays as it is, and numbers and lists stay in order. */
  ghost predicate BookStep(s: State, s': State, named: set<SwapId>) {
    && s.nextId <= s'.nextId && Numbered(s') && (ListsOk(s) ==> ListsOk(s'))
    && (forall id :: id in s.swaps ==> id in s'.swaps && Continues(s.swaps[id], s'.swaps[id]))
    && (forall id :: id in s.swaps && id !in named ==> id in s'.swaps && s'.swaps[id] == s.swaps[id])
  }

  lemma {:induction false} IdsAgree(
      swaps: map<SwapId, SwapRecord>, swaps': map<SwapId, SwapRecord>, n: nat, role: Role, a: Address)
    requires forall id: nat :: id < n ==> (id in swaps <==> id in swaps')
    requires forall id: nat :: id < n && id in swaps ==> Party(swaps'[id], role) == Party(swaps[id], role)
    ensures IdsOf(swaps', n, role, a) == IdsOf(swaps, n, role, a)
  {
    if n == 0 {
    } else {
      IdsAgree(swaps, swaps', n - 1, role, a);
    }
  }

  ghost predicate Ascending(ids: seq<SwapId>) {
    forall i, j :: 0 <= i < j < |ids| ==> ids[i] < ids[j]
  }

  lemma {:induction false} IdsExact(swaps: map<SwapId, SwapRecord>, n: nat, role: Role, a: Address)
    ensures forall id :: id in IdsOf(swaps, n, role, a) <==> id < n && id in swaps && Party(swaps[id], role) == a
    ensures Ascending(IdsOf(swaps, n, role, a))
  {
    if n == 0 {
    } else {
      var before := IdsOf(swaps, n - 1, role, a);
      IdsExact(swaps, n - 1, role, a);
      forall i | 0 <= i < |before| ensures before[i] < n - 1 {
        assert before[i] in before;
      }
      assert Ascending(before + [n - 1]);
    }
  }

  // ── One swap, and one new swap ───────────────────────────────────────────

  lemma EditBook(s: State, s': State, named: set<SwapId>)
    requires Numbered(s) && s'.nextId == s.nextId && s'.index == s.index && s'.swaps.Keys == s.swaps.Keys
    requires forall id :: id in s.swaps ==> Continues(s.swaps[id], s'.swaps[id])
    requires forall id :: id in s.swaps && id !in named ==> s'.swaps[id] == s.swaps[id]
    ensures BookStep(s, s', named)
  {
    if ListsOk(s) {
      forall role: Role, a: Address ensures ListFor(s'.index, role, a) == IdsOf(s'.swaps, s'.nextId, role, a) {
        IdsAgree(s.swaps, s'.swaps, s.nextId, role, a);
      }
    }
  }

  lemma EnrollLists(s: State, rec: SwapRecord, lock: bool, byIp: bool, role: Role, a: Address)
    requires ListFor(s.index, role, a) == IdsOf(s.swaps, s.nextId, role, a)
    ensures var s' := Enroll(s, rec, lock, byIp); ListFor(s'.index, role, a) == IdsOf(s'.swaps, s'.nextId, role, a)
  {
    IdsAgree(s.swaps, Enroll(s, rec, lock, byIp).swaps, s.nextId, role, a);
  }

  lemma EnrollBook(s: State, rec: SwapRecord, lock: bool, byIp: bool)
    requires Numbered(s)
    ensures BookStep(s, Enroll(s, rec, lock, byIp), {})
  {
    if ListsOk(s) {
      forall role: Role, a: Address {
        EnrollLists(s, rec, lock, byIp, role, a);
      }
    }
  }

  lemma BookTrans(a: State, b: State, c: State, first: set<SwapId>, second: set<SwapId>)
    requires BookStep(a, b, first) && BookStep(b, c, second)
    ensures BookStep(a, c, first + second)
  {
  }

  /** The same when other entries are written for the new swap. */
  lemma EnrollSideBook(s: State, rec: SwapRecord, byIp: bool, side: Side)
    requires Numbered(s)
    ensures BookStep(s, Enroll(s, rec, true, byIp).(side := side), {})
  {
    EnrollBook(s, rec, true, byIp);
    EditBook(Enroll(s, rec, true, byIp), Enroll(s, rec, true, byIp).(side := side), {});
    BookTrans(s, Enroll(s, rec, true, byIp), Enroll(s, rec, true, byIp).(side := side), {}, {});
  }

  lemma PreparingParties(s: State, id: SwapId, act: Act)
    requires Prepares(act) && Plan(s, id, act).Ok?
    ensures id in s.swaps && Continues(s.swaps[id], Plan(s, id, act).value.swap)
  {
  }

  predicate Refunds(act: Act) {
    act.Cancel? || act.CancelPending? || act.CancelExpired? || act.EscrowWithdraw? || act.AdminRollback?
  }

  lemma RefundingParties(s: State, id: SwapId, act: Act)
    requires Refunds(act) && Plan(s, id, act).Ok?
    ensures id in s.swaps && Continues(s.swaps[id], Plan(s, id, act).value.swap)
  {
  }

  predicate Pays(act: Act) {
    act.Reveal? || act.VerifyAndComplete? || act.Arbitrate? || act.ValidateAndRollback? || act.ClaimInsurance?
  }

  lemma PayingParties(s: State, id: SwapId, act: Act)
    requires Pays(act) && Plan(s, id, act).Ok?
    ensures id in s.swaps && Continues(s.swaps[id], Plan(s, id, act).value.swap)
  {
  }

  lemma DisputingParties(s: State, id: SwapId, act: Act)
    requires !Prepares(act) && !Refunds(act) && !Pays(act) && Plan(s, id, act).Ok?
    ensures id in s.swaps && Continues(s.swaps[id], Plan(s, id, act).value.swap)
  {
  }

  lemma ActParties(s: State, id: SwapId, act: Act)
    requires Plan(s, id, act).Ok?
    ensures id in s.swaps && Continues(s.swaps[id], Plan(s, id, act).value.swap)
  {
    if Prepares(act) {
      PreparingParties(s, id, act);
    } else if Refunds(act) {
      RefundingParties(s, id, act);
    } else if Pays(act) {
      PayingParties(s, id, act);
    } else {
      DisputingParties(s, id, act);
    }
  }

  lemma DoBook(s: State, id: SwapId, plan: Result<Change>)
    requires Numbered(s) && id in s.swaps && Do(s, id, plan).Ok? && Continues(s.swaps[id], plan.value.swap)
    ensures BookStep(s, Do(s, id, plan).value, {id})
  {
    EditBook(s, Do(s, id, plan).value, {id});
  }

  // ── Batches ──────────────────────────────────────────────────────────────

  lemma FirstAndRest(s: State, next: State, end: State, ids: seq<SwapId>)
    requires ids != [] && BookStep(s, next, {ids[0]}) && BookStep(next, end, Elements(ids[1..]))
    ensures BookStep(s, end, Elements(ids))
  {
    BookTrans(s, next, end, {ids[0]}, Elements(ids[1..]));
    assert Elements(ids) == {ids[0]} + Elements(ids[1..]);
  }

  lemma NothingBook(s: State, named: set<SwapId>)
    requires Numbered(s)
    ensures BookStep(s, s, named)
  {
  }

  lemma {:induction false} DepositAllBook(s: State, ids: seq<SwapId>, buyer: Address)
    requires Numbered(s) && DepositAll(s, ids, buyer).Ok?
    ensures BookStep(s, DepositAll(s, ids, buyer).value, Elements(ids))
    decreases |ids|
  {
    if ids == [] {
      NothingBook(s, Elements(ids));
    } else {
      var next := Do(s, ids[0], BatchDepositPlan(s, ids[0], buyer)).value;
      DoBook(s, ids[0], BatchDepositPlan(s, ids[0], buyer));
      DepositAllBook(next, ids[1..], buyer);
      FirstAndRest(s, next, DepositAll(s, ids, buyer).value, ids);
    }
  }

  lemma {:induction false} AcceptAllBook(s: State, ids: seq<SwapId>)
    requires Numbered(s) && AcceptAll(s, ids).Ok?
    ensures BookStep(s, AcceptAll(s, ids).value, Elements(ids))
    decreases |ids|
  {
    if ids == [] {
      NothingBook(s, Elements(ids));
    } else {
      var next := Do(s, ids[0], BatchAcceptPlan(s, ids[0])).value;
      DoBook(s, ids[0], BatchAcceptPlan(s, ids[0]));
      AcceptAllBook(next, ids[1..]);
      FirstAndRest(s, next, AcceptAll(s, ids).value, ids);
    }
  }

  lemma {:induction false} RevealAllBook(s: State, ids: seq<SwapId>)
    requires Numbered(s) && RevealAll(s, ids).Ok?
    ensures BookStep(s, RevealAll(s, ids).value, Elements(ids))
    decreases |ids|
  {
    if ids == [] {
      NothingBook(s, Elements(ids));
    } else {
      var next := Do(s, ids[0], BatchRevealPlan(s, ids[0])).value;
      DoBook(s, ids[0], BatchRevealPlan(s, ids[0]));
      RevealAllBook(next, ids[1..]);
      FirstAndRest(s, next, RevealAll(s, ids).value, ids);
    }
  }

  lemma {:induction false} ArbitrateAllBook(s: State, ids: seq<SwapId>, refund: bool)
    requires Numbered(s) && ArbitrateAll(s, ids, refund).Ok?
    ensures BookStep(s, ArbitrateAll(s, ids, refund).value, Elements(ids))
    decreases |ids|
  {
    if ids == [] {
      NothingBook(s, Elements(ids));
    } else {
      var next := Do(s, ids[0], BatchArbitratePlan(s, ids[0], refund)).value;
      DoBook(s, ids[0], BatchArbitratePlan(s, ids[0], refund));
      ArbitrateAllBook(next, ids[1..], refund);
      FirstAndRest(s, next, ArbitrateAll(s, ids, refund).value, ids);
    }
  }

  lemma {:induction false} CancelAllBook(s: State, ids: seq<SwapId>, canceller: Address)
    requires Numbered(s) && CancelAll(s, ids, canceller).Ok?
    ensures BookStep(s, CancelAll(s, ids, canceller).value, Elements(ids))
    decreases |ids|
  {
    if ids == [] {
      NothingBook(s, Elements(ids));
    } else {
      var next := Do(s, ids[0], CancelPlan(s, ids[0], canceller)).value;
      DoBook(s, ids[0], CancelPlan(s, ids[0], canceller));
      CancelAllBook(next, ids[1..], canceller);
      FirstAndRest(s, next, CancelAll(s, ids, canceller).value, ids);
    }
  }

  lemma {:induction false} RollBackAllBook(s: State, ids: seq<SwapId>)
    requires Numbered(s) && RollBackAll(s, ids).Ok?
    ensures BookStep(s, RollBackAll(s, ids).value, Elements(ids))
    decreases |ids|
  {
    if ids == [] {
      NothingBook(s, Elements(ids));
    } else {
      var next := Do(s, ids[0], BatchRollbackPlan(s, ids[0])).value;
      DoBook(s, ids[0], BatchRollbackPlan(s, ids[0]));
      RollBackAllBook(next, ids[1..]);
      FirstAndRest(s, next, RollBackAll(s, ids).value, ids);
    }
  }

  lemma {:induction false} OpenCheckingBook(s: State, b: BatchTerms, ips: seq<IpId>, prices: seq<I128>, insured: bool)
    requires Numbered(s) && OpenChecking(s, b, ips, prices, insured).Ok?
    ensures BookStep(s, OpenChecking(s, b, ips, prices, insured).value, {})
    decreases |ips|
  {
    if ips == [] {
      NothingBook(s, {});
    } else {
      var rec := RecordOf(s, ItemTerms(b, ips[0], prices[0], insured), Premium(prices[0], insured).value);
      EnrollBook(s, rec, true, true);
      OpenCheckingBook(Open(s, rec), b, ips[1..], prices[1..], insured);
      BookTrans(s, Open(s, rec), OpenChecking(s, b, ips, prices, insured).value, {}, {});
    }
  }

  lemma EscrowBook(
      s: State, token: Token, ip: IpId, seller: Address, price: int, buyer: Address, timeout: nat, byIp: bool)
    requires Numbered(s)
    ensures BookStep(s, OpenEscrow(s, token, ip, seller, price, buyer, timeout, byIp), {})
  {
    EnrollSideBook(s, NewRecord(s, token, ip, seller, price, buyer).(expiry := timeout), byIp,
                   OpenEscrow(s, token, ip, seller, price, buyer, timeout, byIp).side);
  }

  lemma {:induction false} OpenEscrowsBook(
      s: State, token: Token, seller: Address, buyer: Address, ips: seq<IpId>, prices: seq<I128>, timeouts: seq<nat>)
    requires Numbered(s) && |ips| == |prices| == |timeouts|
    requires OpenEscrows(s, token, seller, buyer, ips, prices, timeouts).Ok?
    ensures BookStep(s, OpenEscrows(s, token, seller, buyer, ips, prices, timeouts).value, {})
    decreases |ips|
  {
    if ips == [] {
      NothingBook(s, {});
    } else {
      var first := OpenEscrow(s, token, ips[0], seller, prices[0], buyer, timeouts[0], true);
      EscrowBook(s, token, ips[0], seller, prices[0], buyer, timeouts[0], true);
      OpenEscrowsBook(first, token, seller, buyer, ips[1..], prices[1..], timeouts[1..]);
      BookTrans(s, first, OpenEscrows(s, token, seller, buyer, ips, prices, timeouts).value, {}, {});
    }
  }

  // ── All calls ────────────────────────────────────────────────────────────

  /** The swaps a call is about. */
  function Named(op: Op): set<SwapId> {
    match op
    case On(id, _) => {id}
    case BatchEscrowDeposit(ids, _) => Elements(ids)
    case BatchAccept(ids, _) => Elements(ids)
    case BatchReveal(ids, _, _) => Elements(ids)
    case BatchArbitrate(ids, _, _) => Elements(ids)
    case BatchCancel(ids, _, _) => Elements(ids)
    case BatchRollback(ids, _) => Elements(ids)
    case _ => {}
  }

  predicate OnStored(op: Op) {
    || op.BatchEscrowDeposit? || op.BatchAccept? || op.BatchReveal?
    || op.BatchArbitrate? || op.BatchCancel? || op.BatchRollback?
  }

  predicate OpensOne(op: Op) {
    op.Initiate? || op.InitiateWithSchedule? || op.InitiateWithSigners? || op.InitiateEscrow?
  }

  predicate OpensMany(op: Op) {
    op.BatchInitiate? || op.BatchInitiateWithInsurance? || op.BatchInitiateEscrow?
  }

  lemma ActBook(s: State, id: SwapId, act: Act)
    requires Numbered(s) && Do(s, id, Plan(s, id, act)).Ok?
    ensures BookStep(s, Do(s, id, Plan(s, id, act)).value, {id})
  {
    ActParties(s, id, act);
    DoBook(s, id, Plan(s, id, act));
  }

  lemma CheckedBatchBook(s: State, op: Op)
    requires Numbered(s) && Step(s, op).Ok? && (op.BatchAccept? || op.BatchReveal? || op.BatchRollback?)
    ensures BookStep(s, Step(s, op).value, Named(op))
  {
    if op.BatchAccept? {
      BatchAcceptCarries(s, op.ids, op.buyer);
      AcceptAllBook(s, op.ids);
    } else if op.BatchReveal? {
      BatchRevealCarries(s, op.ids, op.digests, op.seller);
      RevealAllBook(s, op.ids);
    } else {
      BatchRollbackCarries(s, op.ids, op.caller);
      RollBackAllBook(s, op.ids);
    }
  }

  lemma BatchBook(s: State, op: Op)
    requires Numbered(s) && OnStored(op) && Step(s, op).Ok?
    ensures BookStep(s, Step(s, op).value, Named(op))
  {
    if op.BatchEscrowDeposit? {
      BatchDepositCarries(s, op.ids, op.buyer);
      DepositAllBook(s, op.ids, op.buyer);
    } else if op.BatchArbitrate? {
      BatchArbitrateCarries(s, op.ids, op.arbitrator, op.refund);
      ArbitrateAllBook(s, op.ids, op.refund);
    } else if op.BatchCancel? {
      BatchCancelCarries(s, op.ids, op.caller, op.reasons);
      CancelAllBook(s, op.ids, op.caller);
    } else {
      CheckedBatchBook(s, op);
    }
  }

  lemma ScheduleBook(s: State, token: Token, ip: IpId, seller: Address, schedule: seq<Payment>, buyer: Address)
    requires Numbered(s) && SwapSpec.InitiateWithSchedule(s, token, ip, seller, schedule, buyer).Ok?
    ensures BookStep(s, SwapSpec.InitiateWithSchedule(s, token, ip, seller, schedule, buyer).value, {})
  {
    var rec := NewRecord(s, token, ip, seller, ScheduleTotal(schedule), buyer).(installment := true);
    EnrollSideBook(s, rec, true, SwapSpec.InitiateWithSchedule(s, token, ip, seller, schedule, buyer).value.side);
  }

  lemma SignersBook(
      s: State, token: Token, ip: IpId, seller: Address, price: I128, buyer: Address, required: seq<Address>)
    requires Numbered(s) && SwapSpec.InitiateWithSigners(s, token, ip, seller, price, buyer, required).Ok?
    ensures BookStep(s, SwapSpec.InitiateWithSigners(s, token, ip, seller, price, buyer, required).value, {})
  {
    EnrollSideBook(s, NewRecord(s, token, ip, seller, price, buyer), true,
                   SwapSpec.InitiateWithSigners(s, token, ip, seller, price, buyer, required).value.side);
  }

  lemma InitiateBook(s: State, t: Terms)
    requires Numbered(s) && InitiateSwap(s, t).Ok?
    ensures BookStep(s, InitiateSwap(s, t).value, {})
  {
    EnrollBook(s, RecordOf(s, t, Premium(t.price, t.insured).value), true, true);
  }

  lemma OpeningBook(s: State, op: Op)
    requires Numbered(s) && OpensOne(op) && Step(s, op).Ok?
    ensures BookStep(s, Step(s, op).value, {})
  {
    if op.Initiate? {
      InitiateBook(s, op.terms);
    } else if op.InitiateWithSchedule? {
      ScheduleBook(s, op.token, op.ip, op.seller, op.schedule, op.buyer);
    } else if op.InitiateWithSigners? {
      SignersBook(s, op.token, op.ip, op.seller, op.price, op.buyer, op.required);
    } else {
      EscrowBook(s, op.token, op.ip, op.seller, op.price, op.buyer, op.timeout, false);
    }
  }

  lemma BatchInitiateBook(s: State, b: BatchTerms, ips: seq<IpId>, prices: seq<I128>)
    requires Numbered(s) && SwapSpec.BatchInitiate(s, b, ips, prices).Ok?
    ensures BookStep(s, SwapSpec.BatchInitiate(s, b, ips, prices).value, {})
  {
    TwoPassesAreOne(s, b, ips, prices);
    OpenCheckingBook(s, b, ips, prices, false);
  }

  lemma BatchOpeningBook(s: State, op: Op)
    requires Numbered(s) && OpensMany(op) && Step(s, op).Ok?
    ensures BookStep(s, Step(s, op).value, {})
  {
    if op.BatchInitiate? {
      BatchInitiateBook(s, op.batch, op.ips, op.prices);
    } else if op.BatchInitiateWithInsurance? {
      OpenCheckingBook(s, op.batch, op.ips, op.prices, op.insured);
    } else {
      OpenEscrowsBook(s, op.token, op.seller, op.buyer, op.ips, op.prices, op.timeouts);
    }
  }

  lemma ClosingBook(s: State, id: AuctionId)
    requires Numbered(s) && SwapSpec.FinalizeAuction(s, id).Ok?
    ensures BookStep(s, SwapSpec.FinalizeAuction(s, id).value, {})
  {
    var auction := s.house.auctions[id];
    var closed := CloseAuction(s, id, auction);
    EditBook(s, closed, {});
    if auction.highestBidder.Some? {
      EnrollBook(closed, WonSwap(s, auction, auction.highestBidder.value), false, true);
      BookTrans(s, closed, SwapSpec.FinalizeAuction(s, id).value, {}, {});
    }
  }

  lemma StepBook(s: State, op: Op)
    requires Numbered(s) && Step(s, op).Ok?
    ensures BookStep(s, Step(s, op).value, Named(op))
  {
    if op.On? {
      ActBook(s, op.id, op.act);
    } else if OnStored(op) {
      BatchBook(s, op);
    } else if OpensOne(op) {
      OpeningBook(s, op);
    } else if OpensMany(op) {
      BatchOpeningBook(s, op);
    } else if op.FinalizeAuction? {
      ClosingBook(s, op.auction);
    } else {
      EditBook(s, Step(s, op).value, {});
    }
  }

  // ── Whole runs ───────────────────────────────────────────────────────────

  /** Along any run no swap disappears or changes its parties, and its price is fixed once it is accepted. */
  lemma {:induction false} RunBook(s: State, ops: seq<Op>)
    requires Numbered(s)
    ensures Numbered(Run(s, ops)) && (ListsOk(s) ==> ListsOk(Run(s, ops)))
    ensures forall id :: id in s.swaps ==> id in Run(s, ops).swaps && Continues(s.swaps[id], Run(s, ops).swaps[id])
    decreases |ops|
  {
    if ops == [] {
    } else {
      var before := Run(s, ops[..|ops| - 1]);
      RunBook(s, ops[..|ops| - 1]);
      if Step(before, ops[|ops| - 1]).Ok? {
        StepBook(before, ops[|ops| - 1]);
      }
    }
  }

  /** So the list of a seller, or of a buyer, holds the ids of exactly his swaps, each once, in the order in
      which they were opened. */
  lemma ListsExact(s: State, ops: seq<Op>, role: Role, a: Address)
    requires s.nextId == 0 && s.swaps == map[] && s.index == Index(map[], map[], map[])
    ensures forall id :: (id in ListFor(Run(s, ops).index, role, a)
                          <==> id in Run(s, ops).swaps && Party(Run(s, ops).swaps[id], role) == a)
    ensures Ascending(ListFor(Run(s, ops).index, role, a))
  {
    RunBook(s, ops);
    IdsExact(Run(s, ops).swaps, Run(s, ops).nextId, role, a);
    assert ListFor(Run(s, ops).index, role, a) == IdsOf(Run(s, ops).swaps, Run(s, ops).nextId, role, a);
  }
}

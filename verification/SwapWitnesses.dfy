/** Runs of a new contract that show each limit being reached: the conditions of `SwapLimits` and `SwapHistory` can
    really fail, and what then happens does happen. */
module SwapWitnesses {
  import opened Common
  import opened SwapState
  import opened SwapSpec
  import opened SwapClaims
  import opened SwapSafety
  import opened SwapRuns
  import opened SwapBatches
  import opened SwapActs
  import opened SwapTheorems
  import opened SwapRollbacks
  import opened SwapUnlocks
  import opened SwapLimits
  import opened SwapHistory

  // ── A small world ────────────────────────────────────────────────────────

  const SELLER := Account(1)
  const BUYER := Account(2)
  const ADMIN := Account(3)
  const KEY: Digest := 7
  const TOKEN: Token := 0
  const TWICE: seq<SwapId> := [0, 0]
  const KEYS: seq<Digest> := [KEY, KEY]
  const FIRST: seq<SwapId> := [0]

  /** Two IPs of one seller, who is about to sell them to one buyer. */
  function Market(): World {
    World(map[0 := IpView(SELLER, false, KEY), 1 := IpView(SELLER, false, KEY)], false, Some(ADMIN))
  }

  function Start(): State {
    State(0, map[(TOKEN, BUYER) := 1000], Market(), 0, map[], map[], map[], Index(map[], map[], map[]),
          Vault(map[], map[], map[]),
          Side(map[], map[], map[], map[], map[], {}, {}, map[], map[], map[], map[]), map[], House(map[], map[], 0))
  }

  lemma StartsFresh()
    ensures Genesis(Start()) && Start().history == map[] && Inv(Start()) && Locked(Start()) && HistoryOk(Start())
  {
    GenesisOk(Start());
  }

  lemma ReachedInv(ops: seq<Op>)
    ensures Inv(Run(Start(), ops))
  {
    StartsFresh();
    RunInv(Start(), ops);
  }

  lemma RunOne(s: State, ops: seq<Op>, op: Op)
    ensures Run(s, ops + [op]) == After(Run(s, ops), op)
  {
    assert (ops + [op])[..|ops|] == ops;
  }

  lemma AfterAct(s: State, id: SwapId, act: Act, next: State)
    requires Do(s, id, Plan(s, id, act)) == Ok(next)
    ensures After(s, On(id, act)) == next
  {
  }

  /** What matters of a state on the way. */
  predicate Holds(s: State, contract: int, buyer: int) {
    s.now == 0 && s.world == Market() && Bal(s.bank, TOKEN, Contract) == contract && Bal(s.bank, TOKEN, BUYER) == buyer
  }

  function Offer(ip: IpId, insured: bool): Op {
    Op.Initiate(Terms(TOKEN, ip, SELLER, 100, BUYER, 0, None, 0, insured))
  }

  /** The record of such an offer. */
  function Offered(ip: IpId, insured: bool): SwapRecord {
    SwapRecord(ip, SELLER, BUYER, 100, TOKEN, Pending, SWAP_LIFETIME, 0, 0, 0, None, 0,
               if insured then 2 else 0, insured, 1, [], 0, false)
  }

  function Sold(ip: IpId, insured: bool): SwapRecord {
    Offered(ip, insured).(status := Accepted)
  }

  // ── Single calls ─────────────────────────────────────────────────────────

  lemma Offers(s: State, ip: IpId, insured: bool)
    requires s.now == 0 && s.world == Market() && ip < 2 && ip !in s.active
    ensures Step(s, Offer(ip, insured)) == Ok(Open(s, Offered(ip, insured)))
  {
  }

  lemma Accepts(s: State, id: SwapId, ip: IpId, insured: bool, contract: int, buyer: int)
    requires Holds(s, contract, buyer) && buyer >= 102 && s.vault == Vault(map[], map[], map[])
    requires id in s.swaps && s.swaps[id] == Offered(ip, insured) && id !in s.side.minReputation
    ensures var r := Step(s, On(id, Accept)); var paid := if insured then 102 else 100;
            && r.Ok? && Holds(r.value, contract + paid, buyer - paid)
            && r.value.swaps == s.swaps[id := Sold(ip, insured)]
            && r.value.active == s.active && r.value.nextId == s.nextId
            && r.value.vault == Vault(map[], map[], if insured then map[TOKEN := 2] else map[])
            && r.value.side == s.side
            && LogOf(r.value, id) == LogOf(s, id) + [HistoryEntry(Accepted, 0)]
            && (forall j :: j != id ==> LogOf(r.value, j) == LogOf(s, j))
  {
    var swap := s.swaps[id];
    var c := AcceptPlan(s, id).value;
    SettleHeld(s.bank, TOKEN, c.moves, TOKEN);
  }

  /** The state after `s` in which only swap `id`, its lock and the money it was worth are gone. */
  predicate PaidOut(s: State, s': State, id: SwapId, swap: SwapRecord, contract: int, buyer: int) {
    && Holds(s', contract, buyer) && s'.swaps == s.swaps[id := swap] && s'.active == s.active - {swap.ip}
    && s'.nextId == s.nextId && s'.vault == s.vault && s'.side.signers == s.side.signers
  }

  lemma PaysTwo(b: Bank, to: Address, amount: nat, other: Address, share: nat)
    requires to.Account? && other.Account? && to != BUYER && other != BUYER && amount + share <= Bal(b, TOKEN, Contract)
    ensures var r := Settle(b, TOKEN, Move(Contract, to, amount, Move(Contract, other, share, Done)));
            && r.Ok? && Bal(r.value, TOKEN, Contract) == Bal(b, TOKEN, Contract) - amount - share
            && Bal(r.value, TOKEN, BUYER) == Bal(b, TOKEN, BUYER)
  {
    var next := Transfer(b, TOKEN, Contract, to, amount).value;
    assert Settle(b, TOKEN, Move(Contract, to, amount, Move(Contract, other, share, Done)))
      == Settle(next, TOKEN, Move(Contract, other, share, Done));
    assert Settle(next, TOKEN, Move(Contract, other, share, Done)) == Transfer(next, TOKEN, Contract, other, share);
  }

  lemma RevealPlanned(s: State, id: SwapId, ip: IpId)
    requires s.now == 0 && s.world == Market() && s.vault == Vault(map[], map[], map[]) && ip < 2
    requires id in s.swaps && s.swaps[id] == Sold(ip, false) && id !in s.side.signers
    ensures RevealPlan(s, id, SELLER, KEY).Ok?
    ensures var c := RevealPlan(s, id, SELLER, KEY).value;
            && c.moves == Move(Contract, TREASURY, 2, Move(Contract, SELLER, 98, Done))
            && c.swap == Sold(ip, false).(status := Completed) && c.unlock && c.vault == s.vault
            && c.side == s.side.(completedAt := s.side.completedAt[id := 0])
  {
    assert Bps(100, PROTOCOL_FEE_BPS) == Ok(2);
  }

  lemma Reveals(s: State, id: SwapId, ip: IpId, contract: int, buyer: int)
    requires Holds(s, contract, buyer) && contract >= 100 && s.vault == Vault(map[], map[], map[]) && ip < 2
    requires id in s.swaps && s.swaps[id] == Sold(ip, false) && id !in s.side.signers
    ensures var r := Do(s, id, RevealPlan(s, id, SELLER, KEY));
            && r.Ok? && PaidOut(s, r.value, id, Sold(ip, false).(status := Completed), contract - 100, buyer)
            && r.value.side.completedAt == s.side.completedAt[id := 0]
  {
    RevealPlanned(s, id, ip);
    PaysTwo(s.bank, TREASURY, 2, SELLER, 98);
  }

  lemma RevealsInBatch(s: State, id: SwapId, swap: SwapRecord, contract: int, buyer: int)
    requires Holds(s, contract, buyer) && contract >= 100 && s.vault == Vault(map[], map[], map[])
    requires id in s.swaps && s.swaps[id] == swap && swap.(status := Accepted) == Sold(swap.ip, false)
    ensures var r := Do(s, id, BatchRevealPlan(s, id));
            r.Ok? && PaidOut(s, r.value, id, swap.(status := Completed), contract - 100, buyer)
  {
    PaysTwo(s.bank, SELLER, 98, TREASURY, 2);
    var c := BatchRevealPlan(s, id).value;
    assert Bps(100, PROTOCOL_FEE_BPS) == Ok(2);
    assert c.moves == Move(Contract, SELLER, 98, Move(Contract, TREASURY, 2, Done));
  }

  lemma Cancels(s: State, id: SwapId)
    requires id in s.swaps && s.swaps[id].seller == SELLER && s.swaps[id].status == Pending
    ensures var r := Step(s, On(id, Cancel(SELLER)));
            && r.Ok? && r.value.swaps == s.swaps[id := s.swaps[id].(status := Cancelled)]
            && r.value.active == s.active - {s.swaps[id].ip} && r.value.side == s.side && r.value.nextId == s.nextId
            && r.value.now == s.now && r.value.bank == s.bank && r.value.world == s.world && r.value.vault == s.vault
  {
  }

  // ── Two sales of the same price ──────────────────────────────────────────

  predicate BothOffered(s: State) {
    && Holds(s, 0, 1000) && s.swaps == map[0 := Offered(0, false), 1 := Offered(1, false)]
    && s.active == map[0 := 0, 1 := 1] && s.nextId == 2 && s.vault == Start().vault && s.side == Start().side
    && LogOf(s, 0) == [HistoryEntry(Pending, 0)] && LogOf(s, 1) == [HistoryEntry(Pending, 0)]
    && s.history.Keys == {0, 1}
  }

  predicate FirstSold(s: State) {
    && Holds(s, 100, 900) && s.swaps == map[0 := Sold(0, false), 1 := Offered(1, false)]
    && s.active == map[0 := 0, 1 := 1] && s.nextId == 2 && s.vault == Start().vault && s.side == Start().side
  }

  predicate BothSold(s: State) {
    && Holds(s, 200, 800) && s.swaps == map[0 := Sold(0, false), 1 := Sold(1, false)]
    && s.active == map[0 := 0, 1 := 1] && s.nextId == 2 && s.vault == Start().vault && s.side == Start().side
  }

  // The lemmas about runs return the calls that lead there.

  lemma OneOffer(ip: IpId, insured: bool) returns (ops: seq<Op>)
    requires ip < 2
    ensures Run(Start(), ops) == Open(Start(), Offered(ip, insured))
  {
    ops := [] + [Offer(ip, insured)];
    RunOne(Start(), [], Offer(ip, insured));
    Offers(Start(), ip, insured);
  }

  lemma TwoOffers() returns (ops: seq<Op>)
    ensures BothOffered(Run(Start(), ops))
  {
    var first := OneOffer(0, false);
    ops := first + [Offer(1, false)];
    RunOne(Start(), first, Offer(1, false));
    Offers(Run(Start(), first), 1, false);
  }

  lemma OneSale() returns (ops: seq<Op>)
    ensures FirstSold(Run(Start(), ops))
  {
    var before := TwoOffers();
    ops := before + [On(0, Accept)];
    RunOne(Start(), before, On(0, Accept));
    Accepts(Run(Start(), before), 0, 0, false, 0, 1000);
  }

  lemma TwoSales() returns (ops: seq<Op>)
    ensures BothSold(Run(Start(), ops)) && Inv(Run(Start(), ops))
  {
    var before := OneSale();
    ops := before + [On(1, Accept)];
    RunOne(Start(), before, On(1, Accept));
    Accepts(Run(Start(), before), 1, 1, false, 100, 900);
    ReachedInv(ops);
  }

  /** A call that goes through, lowers the slack, and leaves a contract that cannot pay what it owes. */
  ghost predicate Ruins(s: State, r: Result<State>) {
    r.Ok? && !SlackKept(s, r.value) && !Solvent(r.value)
  }

  /** A contract that holds nothing but has an accepted swap cannot pay it out. */
  lemma CannotPay(s: State, id: SwapId)
    requires Inv(s) && id in s.swaps && s.swaps[id].token == TOKEN
      && Held(s, TOKEN) < Due(s.swaps[id], s.side, id) + Pool(s.vault, TOKEN)
    ensures !Solvent(s)
  {
    assert EntryOk(s, id);
    if Solvent(s) {
      ClaimsCovered(s, id, 0, TOKEN);
    }
  }

  lemma RevealAllTwo(s: State, next: State, end: State)
    requires Do(s, 0, BatchRevealPlan(s, 0)) == Ok(next) && Do(next, 0, BatchRevealPlan(next, 0)) == Ok(end)
    ensures RevealAll(s, TWICE) == Ok(end)
  {
    assert TWICE[1..] == [0] && [0][1..] == [];
    assert RevealAll(end, []) == Ok(end);
    assert RevealAll(next, [0]) == Ok(end);
  }

  /** A batch that names the first swap twice passes the checks. */
  lemma RepeatedRevealChecked(s: State)
    requires BothSold(s)
    ensures SwapSpec.BatchReveal(s, TWICE, KEYS, SELLER) == RevealAll(s, TWICE)
  {
    assert ValidateReveal(s, 0, SELLER, KEY).Pass?;
    assert ValidateReveals(s, TWICE[1..], SELLER, KEYS[1..]).Pass?;
  }

  lemma RepeatedRevealPaid(s: State)
    requires BothSold(s)
    ensures var r := RevealAll(s, TWICE);
            && r.Ok? && Held(r.value, TOKEN) == 0 && r.value.vault == s.vault
            && 1 in r.value.swaps && r.value.swaps[1] == Sold(1, false)
  {
    RevealsInBatch(s, 0, Sold(0, false), 200, 800);
    var next := Do(s, 0, BatchRevealPlan(s, 0)).value;
    RevealsInBatch(next, 0, Sold(0, false).(status := Completed), 100, 800);
    RevealAllTwo(s, next, Do(next, 0, BatchRevealPlan(next, 0)).value);
  }

  /** There is nothing left in hand after such a batch, and the second swap is still to be paid. */
  predicate Emptied(r: Result<State>) {
    && r.Ok? && Held(r.value, TOKEN) == 0 && Pool(r.value.vault, TOKEN) == 0
    && 1 in r.value.swaps && r.value.swaps[1] == Sold(1, false)
  }

  lemma RepeatedRevealLeaves(s: State)
    requires BothSold(s)
    ensures AllPayOthers(s, TWICE) && !Distinct(TWICE) && Emptied(SwapSpec.BatchReveal(s, TWICE, KEYS, SELLER))
  {
    RepeatedRevealChecked(s);
    RepeatedRevealPaid(s);
    assert TWICE[0] == TWICE[1];
  }

  /** There are two sales in a state in which a batch can be asked to pay one of them out twice. */
  lemma RepeatedRevealReached() returns (s: State, ops: seq<Op>)
    ensures s == Run(Start(), ops) && Inv(s) && AllPayOthers(s, TWICE) && !Distinct(TWICE)
    ensures Emptied(SwapSpec.BatchReveal(s, TWICE, KEYS, SELLER))
  {
    ops := TwoSales();
    s := Run(Start(), ops);
    RepeatedRevealLeaves(s);
  }

  lemma PaidTwice(s: State)
    requires Inv(s) && AllPayOthers(s, TWICE) && !Distinct(TWICE) && SwapSpec.BatchReveal(s, TWICE, KEYS, SELLER).Ok?
    ensures !SlackKept(s, SwapSpec.BatchReveal(s, TWICE, KEYS, SELLER).value)
    ensures Inv(SwapSpec.BatchReveal(s, TWICE, KEYS, SELLER).value)
  {
    BatchRevealKept(s, TWICE, KEYS, SELLER);
    BatchRevealBackedExactly(s, TWICE, KEYS, SELLER);
  }

  lemma EmptiedCannotPay(r: Result<State>)
    requires Emptied(r) && Inv(r.value)
    ensures !Solvent(r.value)
  {
    CannotPay(r.value, 1);
  }

  lemma PaidTwiceRuins(s: State)
    requires Inv(s) && AllPayOthers(s, TWICE) && !Distinct(TWICE)
    requires Emptied(SwapSpec.BatchReveal(s, TWICE, KEYS, SELLER))
    ensures Ruins(s, SwapSpec.BatchReveal(s, TWICE, KEYS, SELLER))
  {
    PaidTwice(s);
    EmptiedCannotPay(SwapSpec.BatchReveal(s, TWICE, KEYS, SELLER));
  }

  /** A batch of reveals that names one swap twice pays it out twice, with the money of the other swap. */
  lemma RepeatedRevealSpendsTwice() returns (s: State, ops: seq<Op>)
    ensures s == Run(Start(), ops) && Ruins(s, SwapSpec.BatchReveal(s, TWICE, KEYS, SELLER))
  {
    s, ops := RepeatedRevealReached();
    PaidTwiceRuins(s);
  }

  // ── A completed sale, paid out again ─────────────────────────────────────

  /** The first sale is completed and paid out; what the contract holds belongs to the second. */
  predicate FirstDone(s: State) {
    && Holds(s, 100, 800) && s.swaps == map[0 := Sold(0, false).(status := Completed), 1 := Sold(1, false)]
    && s.active == map[1 := 1] && s.nextId == 2 && s.vault == Start().vault && s.side.completedAt == map[0 := 0]
  }

  lemma PlansReveal(s: State, id: SwapId)
    ensures Plan(s, id, Reveal(SELLER, KEY)) == RevealPlan(s, id, SELLER, KEY)
  {
  }

  lemma FirstPaidOut(s: State, next: State)
    requires BothSold(s) && PaidOut(s, next, 0, Sold(0, false).(status := Completed), 100, 800)
    requires next.side.completedAt == s.side.completedAt[0 := 0]
    ensures FirstDone(next)
  {
  }

  lemma RevealFirst(s: State) returns (next: State)
    requires BothSold(s)
    ensures Do(s, 0, RevealPlan(s, 0, SELLER, KEY)) == Ok(next) && FirstDone(next)
  {
    Reveals(s, 0, 0, 200, 800);
    next := Do(s, 0, RevealPlan(s, 0, SELLER, KEY)).value;
    FirstPaidOut(s, next);
  }

  lemma OneRevealed() returns (ops: seq<Op>)
    ensures FirstDone(Run(Start(), ops)) && Inv(Run(Start(), ops))
  {
    var before := TwoSales();
    var next := RevealFirst(Run(Start(), before));
    ops := before + [On(0, Reveal(SELLER, KEY))];
    RunOne(Start(), before, On(0, Reveal(SELLER, KEY)));
    PlansReveal(Run(Start(), before), 0);
    AfterAct(Run(Start(), before), 0, Reveal(SELLER, KEY), next);
    ReachedInv(ops);
  }

  lemma NothingLeft(s: State)
    requires FirstDone(s) && Inv(s)
    ensures Slack(s, TOKEN) <= 0
  {
    assert SwapClaims.SwapClaims(s, 2, TOKEN) == SwapClaims.SwapClaims(s, 1, TOKEN) + Claim(s, 1, TOKEN);
    SwapClaimWithin(s, 0, 1, TOKEN);
    AuctionClaimWithin(s, 0, s.house.next, TOKEN);
  }

  /** Whoever gets the price of the first swap once more gets the second buyer's money. */
  lemma SecondPayoutRuins(s: State, act: Act)
    requires FirstDone(s) && Inv(s) && Do(s, 0, Plan(s, 0, act)).Ok? && Gain(s, 0, act) == -100
    requires act.Arbitrate? || act.ValidateAndRollback?
    ensures Ruins(s, Do(s, 0, Plan(s, 0, act)))
  {
    NothingLeft(s);
    ActMovesSlack(s, 0, act, TOKEN);
    assert Slack(Do(s, 0, Plan(s, 0, act)).value, TOKEN) == Slack(s, TOKEN) - 100;
  }

  lemma BadKeyPays(s: State)
    requires FirstDone(s)
    ensures Do(s, 0, ValidateAndRollbackPlan(s, 0, false)).Ok?
  {
    assert ValidateAndRollbackPlan(s, 0, false).value.moves
      == Move(Contract, BUYER, 90, Move(Contract, TREASURY, 10, Done));
    var next := Transfer(s.bank, TOKEN, Contract, BUYER, 90).value;
    assert Transfer(next, TOKEN, Contract, TREASURY, 10).Ok?;
  }

  lemma PlansReport(s: State)
    ensures Plan(s, 0, ValidateAndRollback(false)) == ValidateAndRollbackPlan(s, 0, false)
  {
  }

  lemma BadKeyReported(s: State)
    requires FirstDone(s)
    ensures Do(s, 0, Plan(s, 0, ValidateAndRollback(false))).Ok?
  {
    BadKeyPays(s);
    PlansReport(s);
  }

  lemma BadKeyLost(s: State)
    requires FirstDone(s) && Inv(s)
    ensures Ruins(s, Do(s, 0, Plan(s, 0, ValidateAndRollback(false))))
  {
    BadKeyReported(s);
    SecondPayoutRuins(s, ValidateAndRollback(false));
  }

  /** A report of a bad key. */
  lemma BadKeyReportRuins() returns (ops: seq<Op>)
    ensures Ruins(Run(Start(), ops), Do(Run(Start(), ops), 0, Plan(Run(Start(), ops), 0, ValidateAndRollback(false))))
  {
    ops := OneRevealed();
    BadKeyLost(Run(Start(), ops));
  }

  lemma LateArbitrationPays(s: State)
    requires FirstDone(s)
    ensures var r := Do(s, 0, ArbitratePlan(s, 0, ADMIN, true)); r.Ok? && !Later(s, r.value)
  {
    assert ArbitratePlan(s, 0, ADMIN, true).value.moves == Move(Contract, BUYER, 100, Done);
    assert !Persists(s, Do(s, 0, ArbitratePlan(s, 0, ADMIN, true)).value, 0);
  }

  lemma PlansArbitration(s: State)
    ensures Plan(s, 0, Arbitrate(ADMIN, true)) == ArbitratePlan(s, 0, ADMIN, true)
  {
  }

  lemma LateArbitrationLost(s: State)
    requires FirstDone(s) && Inv(s)
    ensures var r := Do(s, 0, Plan(s, 0, Arbitrate(ADMIN, true))); Ruins(s, r) && !Later(s, r.value)
  {
    LateArbitrationPays(s);
    PlansArbitration(s);
    SecondPayoutRuins(s, Arbitrate(ADMIN, true));
  }

  /** An arbitration of a completed swap, which also turns its status around. */
  lemma LateArbitrationRuins() returns (ops: seq<Op>)
    ensures var r := Do(Run(Start(), ops), 0, Plan(Run(Start(), ops), 0, Arbitrate(ADMIN, true)));
            Ruins(Run(Start(), ops), r) && !Later(Run(Start(), ops), r.value)
  {
    ops := OneRevealed();
    LateArbitrationLost(Run(Start(), ops));
  }

  // ── A premium, paid back and still counted ───────────────────────────────

  predicate InsuredSold(s: State) {
    && Holds(s, 102, 898) && s.swaps == map[0 := Sold(0, true)] && s.nextId == 1
    && s.vault == Vault(map[], map[], map[TOKEN := 2])
  }

  lemma InsuredAccept(s: State)
    requires s == Open(Start(), Offered(0, true))
    ensures InsuredSold(After(s, On(0, Accept)))
  {
    Accepts(s, 0, 0, true, 0, 1000);
  }

  lemma InsuredSale() returns (ops: seq<Op>)
    ensures InsuredSold(Run(Start(), ops)) && Inv(Run(Start(), ops))
  {
    var before := OneOffer(0, true);
    ops := before + [On(0, Accept)];
    RunOne(Start(), before, On(0, Accept));
    InsuredAccept(Run(Start(), before));
    ReachedInv(ops);
  }

  lemma PremiumReturned(s: State)
    requires InsuredSold(s) && Inv(s)
    ensures AdminRollbackPlan(s, 0, ADMIN).Ok? && Do(s, 0, AdminRollbackPlan(s, 0, ADMIN)).Ok?
    ensures Slack(s, TOKEN) <= 0
  {
    assert AdminRollbackPlan(s, 0, ADMIN).value.moves == Move(Contract, BUYER, 100, Move(Contract, BUYER, 2, Done));
    var next := Transfer(s.bank, TOKEN, Contract, BUYER, 100).value;
    assert Transfer(next, TOKEN, Contract, BUYER, 2).Ok?;
    assert SwapClaims.SwapClaims(s, 1, TOKEN) == SwapClaims.SwapClaims(s, 0, TOKEN) + Claim(s, 0, TOKEN);
    AuctionClaimWithin(s, 0, s.house.next, TOKEN);
  }

  lemma PlansRollback(s: State)
    ensures Plan(s, 0, AdminRollback(ADMIN)) == AdminRollbackPlan(s, 0, ADMIN)
  {
  }

  lemma PremiumRolledBack(s: State)
    requires InsuredSold(s) && Inv(s)
    ensures Do(s, 0, Plan(s, 0, AdminRollback(ADMIN))).Ok? && Slack(s, TOKEN) <= 0
  {
    PremiumReturned(s);
    PlansRollback(s);
  }

  lemma PremiumLost(s: State)
    requires InsuredSold(s) && Inv(s)
    ensures Ruins(s, Do(s, 0, Plan(s, 0, AdminRollback(ADMIN))))
  {
    PremiumRolledBack(s);
    assert Margin(s, 0, TOKEN) == -2 && PaysOthers(s.swaps[0]);
    ActMovesSlack(s, 0, AdminRollback(ADMIN), TOKEN);
    assert Slack(Do(s, 0, Plan(s, 0, AdminRollback(ADMIN))).value, TOKEN) == Slack(s, TOKEN) - 2;
  }

  lemma PremiumRollbackRuins() returns (ops: seq<Op>)
    ensures Ruins(Run(Start(), ops), Do(Run(Start(), ops), 0, Plan(Run(Start(), ops), 0, AdminRollback(ADMIN))))
  {
    ops := InsuredSale();
    PremiumLost(Run(Start(), ops));
  }

  /** In a batch, too. */
  lemma PremiumInBatch(s: State)
    requires InsuredSold(s) && Inv(s)
    ensures SwapSpec.BatchRollback(s, FIRST, ADMIN).Ok?
  {
    PremiumReturned(s);
    var next := Do(s, 0, AdminRollbackPlan(s, 0, ADMIN)).value;
    assert FIRST[1..] == [] && RollBackAll(next, []) == Ok(next);
    assert ValidateRollbacks(s, FIRST[1..]).Pass? && Do(s, 0, BatchRollbackPlan(s, 0)) == Ok(next);
  }

  lemma PremiumMargin(s: State)
    requires InsuredSold(s)
    ensures Margins(s, FIRST, TOKEN) == -2 && AllPayOthers(s, FIRST)
  {
    assert FIRST[1..] == [] && Margins(s, FIRST[1..], TOKEN) == 0;
  }

  lemma PremiumUncovered(s: State)
    requires InsuredSold(s) && Inv(s)
    ensures !PremiumsCovered(s, FIRST)
    ensures var r := SwapSpec.BatchRollback(s, FIRST, ADMIN); r.Ok? && !SlackKept(s, r.value)
  {
    PremiumInBatch(s);
    PremiumMargin(s);
    BatchRollbackBackedExactly(s, FIRST, ADMIN);
  }

  lemma PremiumBatchLoses() returns (s: State, ops: seq<Op>)
    ensures s == Run(Start(), ops)
    ensures var r := SwapSpec.BatchRollback(s, FIRST, ADMIN); r.Ok? && !SlackKept(s, r.value)
  {
    ops := InsuredSale();
    s := Run(Start(), ops);
    PremiumUncovered(s);
  }

  // ── Another swap's lock ──────────────────────────────────────────────────

  /** The first offer was cancelled, and the same IP is offered again. */
  predicate OfferedAgain(s: State) {
    && s.world == Market() && s.active == map[0 := 1]
    && s.swaps == map[0 := Offered(0, false).(status := Cancelled), 1 := Offered(0, false)]
  }

  lemma CancelledOnce() returns (ops: seq<Op>)
    ensures var s := Run(Start(), ops);
            && s.now == 0 && s.world == Market() && s.active == map[] && s.nextId == 1
            && s.swaps == map[0 := Offered(0, false).(status := Cancelled)]
  {
    var first := OneOffer(0, false);
    ops := first + [On(0, Cancel(SELLER))];
    RunOne(Start(), first, On(0, Cancel(SELLER)));
    Cancels(Run(Start(), first), 0);
  }

  lemma CancelAndOffer() returns (ops: seq<Op>)
    ensures OfferedAgain(Run(Start(), ops))
  {
    var before := CancelledOnce();
    ops := before + [Offer(0, false)];
    RunOne(Start(), before, Offer(0, false));
    Offers(Run(Start(), before), 0, false);
  }

  lemma TakesOther(s: State)
    requires OfferedAgain(s)
    ensures var r := Do(s, 0, AdminRollbackPlan(s, 0, ADMIN)); r.Ok? && !Locked(r.value) && !FreesOwn(s, r.value, FIRST)
    ensures Locked(s)
  {
    var s' := Do(s, 0, AdminRollbackPlan(s, 0, ADMIN)).value;
    assert 0 in s.active && 0 !in s'.active && s.active[0] == 1;
    assert !Holding(s', 1);
  }

  /** Rolling the cancelled swap back once more takes the lock of the new one. */
  lemma LateRollbackTakesLock() returns (ops: seq<Op>)
    ensures var s := Run(Start(), ops); var r := Do(s, 0, AdminRollbackPlan(s, 0, ADMIN));
            Locked(s) && r.Ok? && !Locked(r.value) && !FreesOwn(s, r.value, FIRST)
  {
    ops := CancelAndOffer();
    TakesOther(Run(Start(), ops));
  }

  // ── A status set back ────────────────────────────────────────────────────

  function Schedule(): seq<Payment> {
    [Payment(100, 0)]
  }

  predicate ScheduleCancelled(s: State) {
    && Holds(s, 0, 1000) && 0 in s.swaps && s.swaps[0] == Offered(0, false).(installment := true, status := Cancelled)
    && s.side.schedules == map[0 := Schedule()] && s.side.paymentsMade == map[0 := [false]]
  }

  lemma OffersSchedule(s: State)
    requires s == Start()
    ensures var r := Step(s, Op.InitiateWithSchedule(TOKEN, 0, SELLER, Schedule(), BUYER));
            && r.Ok? && Holds(r.value, 0, 1000) && r.value.swaps == map[0 := Offered(0, false).(installment := true)]
            && r.value.side.offers == map[] && r.value.vault == Start().vault
            && r.value.side.schedules == map[0 := Schedule()] && r.value.side.paymentsMade == map[0 := [false]]
  {
    var schedule := Schedule();
    assert schedule[..0] == [] && ScheduleTotal(schedule) == 100;
    assert seq(1, i => false) == [false];
  }

  lemma CancelSchedule() returns (ops: seq<Op>)
    ensures ScheduleCancelled(Run(Start(), ops))
  {
    var offer := Op.InitiateWithSchedule(TOKEN, 0, SELLER, Schedule(), BUYER);
    var first := [] + [offer];
    RunOne(Start(), [], offer);
    OffersSchedule(Start());
    ops := first + [On(0, Cancel(SELLER))];
    RunOne(Start(), first, On(0, Cancel(SELLER)));
    Cancels(Run(Start(), first), 0);
  }

  lemma LatePaymentPays(s: State)
    requires ScheduleCancelled(s)
    ensures var r := Do(s, 0, ScheduledPaymentPlan(s, 0, 0)); r.Ok? && !Later(s, r.value)
  {
    var c := ScheduledPaymentPlan(s, 0, 0).value;
    assert c.moves == Move(BUYER, Contract, 100, Gate(true, Done));
    assert [false][0 := true] == [true];
    assert !Persists(s, Do(s, 0, ScheduledPaymentPlan(s, 0, 0)).value, 0);
  }

  /** The last payment of a cancelled swap's schedule makes it Accepted again. */
  lemma LatePaymentRevives() returns (ops: seq<Op>)
    ensures var s := Run(Start(), ops); var r := Do(s, 0, ScheduledPaymentPlan(s, 0, 0)); r.Ok? && !Later(s, r.value)
  {
    ops := CancelSchedule();
    LatePaymentPays(Run(Start(), ops));
  }

  // ── A price raised over its schedule ─────────────────────────────────────

  predicate Scheduling(s: State, price: int, offers: map<SwapId, int>) {
    && Holds(s, 0, 1000) && s.swaps == map[0 := Offered(0, false).(installment := true, price := price)]
    && s.side.schedules == map[0 := Schedule()] && s.side.paymentsMade == map[0 := [false]]
    && s.side.offers == offers && s.vault == Start().vault
  }

  lemma OffersMore(s: State)
    requires Scheduling(s, 100, map[])
    ensures Scheduling(After(s, On(0, Renegotiate(150))), 100, map[0 := 150])
  {
  }

  lemma TakesMore(s: State)
    requires Scheduling(s, 100, map[0 := 150])
    ensures Scheduling(After(s, On(0, AcceptRenegotiation)), 150, map[])
  {
  }

  lemma RaisedPrice() returns (ops: seq<Op>)
    ensures Scheduling(Run(Start(), ops), 150, map[]) && Inv(Run(Start(), ops))
  {
    var offer := Op.InitiateWithSchedule(TOKEN, 0, SELLER, Schedule(), BUYER);
    var first := [] + [offer];
    RunOne(Start(), [], offer);
    OffersSchedule(Start());
    var second := first + [On(0, Renegotiate(150))];
    RunOne(Start(), first, On(0, Renegotiate(150)));
    OffersMore(Run(Start(), first));
    ops := second + [On(0, AcceptRenegotiation)];
    RunOne(Start(), second, On(0, AcceptRenegotiation));
    TakesMore(Run(Start(), second));
    ReachedInv(ops);
  }

  /** The only payment has been made; the contract holds 100, and 150 have become due. */
  predicate RaisedPaid(r: Result<State>) {
    && r.Ok? && Held(r.value, TOKEN) == 100 && Pool(r.value.vault, TOKEN) == 0
    && 0 in r.value.swaps && r.value.swaps[0].status == Accepted && r.value.swaps[0].price == 150
    && r.value.swaps[0].token == TOKEN
  }

  lemma RaisedPays(s: State)
    requires Scheduling(s, 150, map[])
    ensures RaisedPaid(Do(s, 0, ScheduledPaymentPlan(s, 0, 0)))
  {
    assert ScheduledPaymentPlan(s, 0, 0).value.moves == Move(BUYER, Contract, 100, Gate(true, Done));
    assert [false][0 := true] == [true];
    SettleHeld(s.bank, TOKEN, ScheduledPaymentPlan(s, 0, 0).value.moves, TOKEN);
  }

  lemma RaisedNotCovered(s: State)
    requires Scheduling(s, 150, map[])
    ensures !BackedAct(s, 0, MakeScheduledPayment(0))
  {
    assert [false][0 := true] == [true];
    NothingFlagged(Schedule(), [false]);
  }

  lemma PlansPayment(s: State)
    ensures Plan(s, 0, MakeScheduledPayment(0)) == ScheduledPaymentPlan(s, 0, 0)
  {
  }

  lemma RaisedLoses(s: State)
    requires Scheduling(s, 150, map[]) && Inv(s) && Do(s, 0, ScheduledPaymentPlan(s, 0, 0)).Ok?
    ensures !SlackKept(s, Do(s, 0, ScheduledPaymentPlan(s, 0, 0)).value)
    ensures Inv(Do(s, 0, ScheduledPaymentPlan(s, 0, 0)).value)
  {
    RaisedNotCovered(s);
    PlansPayment(s);
    ActBackedExactly(s, 0, MakeScheduledPayment(0));
    ActOrderExactly(s, 0, MakeScheduledPayment(0));
  }

  lemma RaisedCannotPay(r: Result<State>)
    requires RaisedPaid(r) && Inv(r.value)
    ensures !Solvent(r.value)
  {
    CannotPay(r.value, 0);
  }

  lemma RaisedRuins(s: State)
    requires Scheduling(s, 150, map[]) && Inv(s)
    ensures Ruins(s, Do(s, 0, ScheduledPaymentPlan(s, 0, 0)))
  {
    RaisedPays(s);
    RaisedLoses(s);
    RaisedCannotPay(Do(s, 0, ScheduledPaymentPlan(s, 0, 0)));
  }

  /** A price agreed upon after the schedule is never collected in full: the payments still add up to the old one,
      and the last of them makes the new one due. */
  lemma RaisedPriceRuins() returns (ops: seq<Op>)
    ensures var s := Run(Start(), ops); Ruins(s, Do(s, 0, ScheduledPaymentPlan(s, 0, 0)))
  {
    ops := RaisedPrice();
    RaisedRuins(Run(Start(), ops));
  }

  // ── A won auction ────────────────────────────────────────────────────────

  predicate Led(s: State, now: nat) {
    && s.now == now && s.world == Market() && s.swaps == map[] && s.active == map[] && s.nextId == 0
    && s.house == House(map[0 := Auction(0, SELLER, TOKEN, 10, 10, Some(BUYER), 0, 5, false)], map[0 := 0], 1)
    && Bal(s.bank, TOKEN, Contract) == 10 && s.vault == Start().vault && s.side == Start().side
  }

  /** The auction is open and nobody has bid yet. */
  predicate AuctionOpen(s: State) {
    && s.now == 0 && s.world == Market() && s.swaps == map[] && s.active == map[] && s.nextId == 0
    && s.house == House(map[0 := Auction(0, SELLER, TOKEN, 10, 0, None, 0, 5, false)], map[0 := 0], 1)
    && s.bank == Start().bank && s.vault == Start().vault && s.side == Start().side
  }

  lemma Opens(s: State)
    requires s == Start()
    ensures AuctionOpen(After(s, Op.StartAuction(TOKEN, 0, SELLER, 10, 5)))
  {
  }

  lemma Bids(s: State)
    requires AuctionOpen(s)
    ensures Led(After(s, Op.PlaceBid(0, BUYER, 10)), 0)
  {
    assert BidMoves(s.house.auctions[0], BUYER, 10) == Move(BUYER, Contract, 10, Done);
  }

  /** The time of the auction is over. */
  lemma WaitedAuction() returns (ops: seq<Op>)
    ensures Led(Run(Start(), ops), 5)
  {
    var first := [] + [Op.StartAuction(TOKEN, 0, SELLER, 10, 5)];
    var second := first + [Op.PlaceBid(0, BUYER, 10)];
    RunOne(Start(), [], Op.StartAuction(TOKEN, 0, SELLER, 10, 5));
    Opens(Start());
    RunOne(Start(), first, Op.PlaceBid(0, BUYER, 10));
    Bids(Run(Start(), first));
    var wait := Surround(5, Run(Start(), second).bank, Market(), {});
    ops := second + [wait];
    RunOne(Start(), second, wait);
  }

  /** The winner's swap is live, and its IP is free. */
  predicate SoldUnlocked(s: State) {
    && s.world == Market() && s.active == map[] && s.nextId == 1 && s.swaps.Keys == {0} && s.swaps[0].status == Accepted
    && s.swaps[0].ip == 0 && s.swaps[0].price == 10 && s.swaps[0].seller == SELLER && s.swaps[0].token == TOKEN
    && s.swaps[0].referrer == None && s.swaps[0].conditions == [] && s.swaps[0].collateralAmount == 0
    && Bal(s.bank, TOKEN, Contract) == 10 && s.side.signers == map[]
  }

  lemma Settles(s: State)
    requires Led(s, 5)
    ensures Step(s, Op.FinalizeAuction(0)).Ok? && SoldUnlocked(After(s, Op.FinalizeAuction(0)))
  {
  }

  /** Settling it leaves a live swap without its lock. */
  lemma WonAuctionUnlocked() returns (ops: seq<Op>)
    ensures SoldUnlocked(Run(Start(), ops)) && !Locked(Run(Start(), ops))
  {
    var before := WaitedAuction();
    ops := before + [Op.FinalizeAuction(0)];
    RunOne(Start(), before, Op.FinalizeAuction(0));
    Settles(Run(Start(), before));
    assert !Holding(Run(Start(), ops), 0);
  }

  lemma SellsAgain(s: State)
    requires SoldUnlocked(s)
    ensures Step(s, Offer(0, false)) == Ok(Open(s, NewRecord(s, TOKEN, 0, SELLER, 100, BUYER)))
  {
  }

  /** The revealed swap takes the lock of the later offer with it. */
  lemma RevealTakesLock(s: State, before: State)
    requires SoldUnlocked(before) && s == Open(before, NewRecord(before, TOKEN, 0, SELLER, 100, BUYER))
    ensures var r := Do(s, 0, RevealPlan(s, 0, SELLER, KEY));
            r.Ok? && !FreesOwn(s, r.value, FIRST) && 1 in r.value.swaps
              && r.value.swaps[1].status == Pending && 0 !in r.value.active
  {
    assert Bps(10, PROTOCOL_FEE_BPS) == Ok(0);
    assert RevealPlan(s, 0, SELLER, KEY).value.moves == Move(Contract, SELLER, 10, Done);
    var s' := Do(s, 0, RevealPlan(s, 0, SELLER, KEY)).value;
    assert 0 in s.active && 0 !in s'.active && s.active[0] == 1;
  }

  /** So the IP can be offered again meanwhile, and completing the auctioned swap then frees it under the new offer. */
  lemma AuctionedIpSoldAgain() returns (ops: seq<Op>)
    ensures var s := Run(Start(), ops); var r := Do(s, 0, RevealPlan(s, 0, SELLER, KEY));
            r.Ok? && !FreesOwn(s, r.value, FIRST) && 1 in r.value.swaps
              && r.value.swaps[1].status == Pending && 0 !in r.value.active
  {
    var before := WonAuctionUnlocked();
    ops := before + [Offer(0, false)];
    RunOne(Start(), before, Offer(0, false));
    SellsAgain(Run(Start(), before));
    RevealTakesLock(Run(Start(), ops), Run(Start(), before));
  }

  // ── A status written twice ───────────────────────────────────────────────

  lemma AcceptsInBatch(s: State, id: SwapId, swap: SwapRecord, buyer: int)
    requires Bal(s.bank, TOKEN, BUYER) == buyer && buyer >= 100 && id in s.swaps && s.swaps[id] == swap
    requires swap.(status := Pending) == Offered(swap.ip, false)
    ensures var r := Do(s, id, BatchAcceptPlan(s, id));
            && r.Ok? && r.value.swaps == s.swaps[id := swap.(status := Accepted, acceptedAt := s.now)]
            && Bal(r.value.bank, TOKEN, BUYER) == buyer - 100 && r.value.now == s.now
  {
    assert BatchAcceptPlan(s, id).value.moves == Move(BUYER, Contract, 100, Done);
  }

  lemma AcceptAllTwo(s: State, next: State, end: State)
    requires Do(s, 0, BatchAcceptPlan(s, 0)) == Ok(next) && Do(next, 0, BatchAcceptPlan(next, 0)) == Ok(end)
    ensures AcceptAll(s, TWICE) == Ok(end)
  {
    assert TWICE[1..] == [0] && [0][1..] == [];
    assert AcceptAll(end, []) == Ok(end);
    assert AcceptAll(next, [0]) == Ok(end);
  }

  lemma RepeatedAcceptPaid(s: State)
    requires BothOffered(s)
    ensures SwapSpec.BatchAccept(s, TWICE, BUYER).Ok?
  {
    AcceptsInBatch(s, 0, Offered(0, false), 1000);
    var next := Do(s, 0, BatchAcceptPlan(s, 0)).value;
    AcceptsInBatch(next, 0, Sold(0, false), 900);
    AcceptAllTwo(s, next, Do(next, 0, BatchAcceptPlan(next, 0)).value);
    assert ValidateAccept(s, 0, BUYER).Pass?;
    assert TWICE[1..] == [0] && ValidateAccepts(s, TWICE[1..], BUYER).Pass?;
  }

  lemma OfferedHistory(s: State)
    requires BothOffered(s)
    ensures HistoryOk(s)
  {
  }

  lemma LogsTwice(s: State)
    requires HistoryOk(s) && SwapSpec.BatchAccept(s, TWICE, BUYER).Ok?
    ensures !HistoryOk(SwapSpec.BatchAccept(s, TWICE, BUYER).value)
  {
    assert TWICE[0] == TWICE[1];
    BatchAcceptHistoryExactly(s, TWICE, BUYER);
  }

  /** A batch of acceptances that names one swap twice has its history say Accepted twice. */
  lemma RepeatedAcceptLogsTwice() returns (s: State, ops: seq<Op>)
    ensures s == Run(Start(), ops) && HistoryOk(s)
    ensures var r := SwapSpec.BatchAccept(s, TWICE, BUYER); r.Ok? && !HistoryOk(r.value)
  {
    ops := TwoOffers();
    s := Run(Start(), ops);
    OfferedHistory(s);
    RepeatedAcceptPaid(s);
    LogsTwice(s);
  }
}

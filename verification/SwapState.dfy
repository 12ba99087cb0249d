/** The storage of the atomic swap contract and the token balances it moves. */
module SwapState {
  import opened Common

  type Token = nat
  type SwapId = nat
  type IpId = nat
  type AuctionId = nat
  type Digest = nat

  const I128_MAX: int := 0x7FFF_FFFF_FFFF_FFFF_FFFF_FFFF_FFFF_FFFF
  const I128_MIN: int := -I128_MAX - 1
  const U64_MAX: int := 0xFFFF_FFFF_FFFF_FFFF
  const TREASURY := Account(0)
  const PROTOCOL_FEE_BPS := 250
  const REFERRAL_FEE_BPS := 100
  const DISPUTE_WINDOW := 86_400
  const DISPUTE_TIMEOUT := 604_800
  const ARBITRATION_TIMEOUT := 1_209_600
  const SWAP_LIFETIME := 604_800
  const ROLLBACK_WINDOW := 86_400
  const MAX_BATCH_SIZE := 50

  type I128 = x: int | I128_MIN <= x <= I128_MAX

  datatype Status = Pending | Accepted | Disputed | Completed | Cancelled | RolledBack {
    /** The position of a status in a swap's life. */
    function Rank(): nat {
      match this
      case Pending => 0
      case Accepted => 1
      case Disputed => 2
      case Completed => 3
      case Cancelled => 3
      case RolledBack => 4
    }

    predicate Live() {
      Pending? || Accepted? || Disputed?
    }
  }

  datatype Condition = KeyValid | PriceBelow(threshold: int) | TimeAfter(timestamp: nat)

  datatype SwapRecord = SwapRecord(
    ip: IpId, seller: Address, buyer: Address, price: int, token: Token, status: Status,
    expiry: nat, acceptedAt: nat, requiredApprovals: nat, disputedAt: nat,
    referrer: Option<Address>, collateralAmount: int, premium: int, insured: bool,
    quantity: nat, conditions: seq<Condition>, paid: int, installment: bool)

  datatype HistoryEntry = HistoryEntry(status: Status, timestamp: nat)

  datatype Payment = Payment(amount: int, due: nat)

  datatype Auction = Auction(
    ip: IpId, seller: Address, token: Token, minBid: int, highestBid: int,
    highestBidder: Option<Address>, startTime: nat, endTime: nat, finalized: bool)

  /** What the swap contract reads from the registry about one IP. */
  datatype IpView = IpView(owner: Address, revoked: bool, commitment: Digest)

  /** The contract's surroundings: registry answers, the pause switch and the admin. */
  datatype World = World(ips: map<IpId, IpView>, paused: bool, admin: Option<Address>)

  datatype Index = Index(
    bySeller: map<Address, seq<SwapId>>, byBuyer: map<Address, seq<SwapId>>, byIp: map<IpId, seq<SwapId>>)

  /** The entries that record money held: collateral and escrow deposits per swap, insurance per token. */
  datatype Vault = Vault(collateral: map<SwapId, int>, deposits: map<SwapId, int>, pool: map<Token, int>)

  /** The remaining per-swap and per-party entries. */
  datatype Side = Side(
    approvals: map<SwapId, seq<Address>>, signers: map<SwapId, seq<Address>>, signatures: map<SwapId, seq<Address>>,
    minReputation: map<SwapId, nat>, offers: map<SwapId, int>,
    claimable: set<SwapId>, escrowMode: set<SwapId>, arbitrationAt: map<SwapId, nat>, completedAt: map<SwapId, nat>,
    schedules: map<SwapId, seq<Payment>>, paymentsMade: map<SwapId, seq<bool>>)

  datatype House = House(auctions: map<AuctionId, Auction>, open: map<IpId, AuctionId>, next: nat)

  datatype State = State(
    now: nat, bank: Bank, world: World, nextId: nat, swaps: map<SwapId, SwapRecord>, active: map<IpId, SwapId>,
    history: map<SwapId, seq<HistoryEntry>>, index: Index, vault: Vault, side: Side,
    reputation: map<Address, nat>, house: House)

  function Pool(v: Vault, t: Token): int {
    Lookup(v.pool, t, 0)
  }

  function Stored(v: Vault, id: SwapId): int {
    Lookup(v.collateral, id, 0)
  }

  function Bal(b: Bank, t: Token, a: Address): int {
    Lookup(b, (t, a), 0)
  }

  /** What the contract itself holds. */
  function Held(s: State, t: Token): int {
    Bal(s.bank, t, Contract)
  }

  function Clamp(x: int): nat {
    if x < 0 then 0 else if x > 100 then 100 else x
  }

  /** Reputation moves by `delta` from a default of 50 and stays within 0 and 100. */
  function Rated(reputation: map<Address, nat>, a: Address, delta: int): map<Address, nat> {
    reputation[a := Clamp(Lookup(reputation, a, 50) + delta)]
  }

  // ── Arithmetic ───────────────────────────────────────────────────────────

  /** Integer division that truncates toward zero. */
  function TruncDiv(a: int, b: int): int
    requires b > 0
  {
    if a >= 0 then a / b else -((-a) / b)
  }

  predicate Fits(x: int) {
    I128_MIN <= x <= I128_MAX
  }

  /** `saturating_add` on `i128`. */
  function SatAdd(a: int, b: int): int {
    if a + b > I128_MAX then I128_MAX else if a + b < I128_MIN then I128_MIN else a + b
  }

  /** `saturating_sub` on `u64`. */
  function Elapsed(now: nat, since: nat): nat {
    if now >= since then now - since else 0
  }

  // ── Tokens ───────────────────────────────────────────────────────────────

  type Bank = map<(Token, Address), int>

  function Share(concerned: bool, amount: int): int {
    if concerned then amount else 0
  }

  /** The token contract's `transfer`; sending to oneself leaves the balance as it was. */
  function Transfer(b: Bank, t: Token, from: Address, to: Address, amount: int): (r: Result<Bank>)
    ensures r.Ok? <==> 0 <= amount <= Bal(b, t, from)
  {
    if amount < 0 then Err(NegativeAmount)
    else if Bal(b, t, from) < amount then Err(InsufficientBalance(from))
    else
      var debited := b[(t, from) := Bal(b, t, from) - amount];
      Ok(debited[(t, to) := Bal(debited, t, to) + amount])
  }

  /** The transfers of one call, in order. A `Gate` that is not met traps between two of them. */
  datatype Moves =
    | Done
    | Move(from: Address, to: Address, amount: int, rest: Moves)
    | Gate(met: bool, rest: Moves)

  /** What the moves add to the contract's own balance. */
  function Net(m: Moves): int {
    match m
    case Done => 0
    case Move(from, to, amount, rest) => Share(to == Contract, amount) - Share(from == Contract, amount) + Net(rest)
    case Gate(_, rest) => Net(rest)
  }

  /** All that the contract is asked to pay. */
  function Outgo(m: Moves): nat {
    match m
    case Done => 0
    case Move(from, to, amount, rest) => Outgo(rest) + (if from == Contract && amount > 0 then amount else 0)
    case Gate(_, rest) => Outgo(rest)
  }

  /** Carry out the moves. */
  function Settle(b: Bank, t: Token, m: Moves): Result<Bank>
    decreases m
  {
    match m
    case Done => Ok(b)
    case Move(from, to, amount, rest) =>
      var next :- Transfer(b, t, from, to, amount);
      Settle(next, t, rest)
    case Gate(met, rest) => if met then Settle(b, t, rest) else Err(Trap)
  }

  lemma TransferBalances(b: Bank, t: Token, from: Address, to: Address, amount: int, u: Token, a: Address)
    requires Transfer(b, t, from, to, amount).Ok?
    ensures Bal(Transfer(b, t, from, to, amount).value, u, a)
      == Bal(b, u, a) - Share(u == t && a == from, amount) + Share(u == t && a == to, amount)
  {
  }

  /** Moves that are carried out change what the contract holds by their net amount. */
  lemma {:induction false} SettleHeld(b: Bank, t: Token, m: Moves, u: Token)
    requires Settle(b, t, m).Ok?
    ensures Bal(Settle(b, t, m).value, u, Contract) == Bal(b, u, Contract) + Share(u == t, Net(m))
    decreases m
  {
    match m
    case Done =>
    case Move(from, to, amount, rest) =>
      TransferBalances(b, t, from, to, amount, u, Contract);
      SettleHeld(Transfer(b, t, from, to, amount).value, t, rest, u);
    case Gate(_, rest) => SettleHeld(b, t, rest, u);
  }

  /** A contract that holds all it is asked to pay is never the one short of funds. */
  lemma {:induction false} SettleFunded(b: Bank, t: Token, m: Moves)
    requires Outgo(m) <= Bal(b, t, Contract)
    ensures Settle(b, t, m) != Err(InsufficientBalance(Contract))
    decreases m
  {
    match m
    case Done =>
    case Move(from, to, amount, rest) =>
      if Transfer(b, t, from, to, amount).Ok? {
        TransferBalances(b, t, from, to, amount, t, Contract);
        SettleFunded(Transfer(b, t, from, to, amount).value, t, rest);
      }
    case Gate(_, rest) => SettleFunded(b, t, rest);
  }

  /** A payment by the contract, followed by `rest`. */
  function Give(to: Address, amount: int, rest: Moves): (m: Moves)
    ensures Net(m) == Net(rest) - amount + Share(to == Contract, amount)
    ensures amount >= 0 ==> Outgo(m) == Outgo(rest) + amount
  {
    Move(Contract, to, amount, rest)
  }

  /** The same, skipped when there is nothing to pay. */
  function GiveSome(to: Address, amount: int, rest: Moves): (m: Moves)
    ensures amount >= 0 ==> Net(m) == Net(rest) - amount + Share(to == Contract, amount)
    ensures amount >= 0 ==> Outgo(m) == Outgo(rest) + amount
  {
    if amount > 0 then Give(to, amount, rest) else rest
  }

  /** A payment into the contract. */
  function Take(from: Address, amount: int, rest: Moves): (m: Moves)
    ensures from.Account? ==> Net(m) == Net(rest) + amount && Outgo(m) == Outgo(rest)
  {
    Move(from, Contract, amount, rest)
  }
}

/** Where the money of one call goes. */
module SwapMoney {
  import opened Common
  import opened SwapState

  /** What the moves add to the balance of `a`. */
  function Flow(m: Moves, a: Address): int {
    match m
    case Done => 0
    case Move(from, to, amount, rest) => Share(to == a, amount) - Share(from == a, amount) + Flow(rest, a)
    case Gate(_, rest) => Flow(rest, a)
  }

  /** Moves that are carried out change every balance of their token by its flow, and no other balance. */
  lemma {:induction false} SettleFlow(b: Bank, t: Token, m: Moves, u: Token, a: Address)
    requires Settle(b, t, m).Ok?
    ensures Bal(Settle(b, t, m).value, u, a) == Bal(b, u, a) + Share(u == t, Flow(m, a))
    decreases m
  {
    match m
    case Done =>
    case Move(from, to, amount, rest) => SettleFlow(Transfer(b, t, from, to, amount).value, t, rest, u, a);
    case Gate(_, rest) => SettleFlow(b, t, rest, u, a);
  }

  lemma FlowGive(to: Address, amount: int, rest: Moves, a: Address)
    requires a.Account?
    ensures Flow(Give(to, amount, rest), a) == Flow(rest, a) + Share(a == to, amount)
    ensures amount >= 0 ==> Flow(GiveSome(to, amount, rest), a) == Flow(rest, a) + Share(a == to, amount)
  {
  }

  /** Two payments by the contract to others may be made in either order. */
  lemma PaymentsCommute(b: Bank, t: Token, to: Address, amount: int, other: Address, share: nat, rest: Moves)
    requires to.Account? && other.Account?
    ensures Settle(b, t, Give(to, amount, Give(other, share, rest))).Ok?
      <==> Settle(b, t, Give(other, share, Give(to, amount, rest))).Ok?
    ensures Settle(b, t, Give(to, amount, Give(other, share, rest))).Ok? ==>
      Settle(b, t, Give(to, amount, Give(other, share, rest)))
        == Settle(b, t, Give(other, share, Give(to, amount, rest)))
  {
    if 0 <= amount && amount + share <= Bal(b, t, Contract) {
      var first := Transfer(Transfer(b, t, Contract, to, amount).value, t, Contract, other, share).value;
      var second := Transfer(Transfer(b, t, Contract, other, share).value, t, Contract, to, amount).value;
      assert first == second;
    }
  }

  /** The same when the second payment is left out if it is nothing. */
  lemma PaymentsCommuteSome(b: Bank, t: Token, to: Address, amount: int, other: Address, share: nat, rest: Moves)
    requires to.Account? && other.Account?
    ensures Settle(b, t, Give(to, amount, GiveSome(other, share, rest))).Ok?
      <==> Settle(b, t, GiveSome(other, share, Give(to, amount, rest))).Ok?
    ensures Settle(b, t, Give(to, amount, GiveSome(other, share, rest))).Ok? ==>
      Settle(b, t, Give(to, amount, GiveSome(other, share, rest)))
        == Settle(b, t, GiveSome(other, share, Give(to, amount, rest)))
  {
    PaymentsCommute(b, t, to, amount, other, share, rest);
  }

  /** What comes after a payment that changes nothing but its continuation's order. */
  lemma AfterSome(b: Bank, t: Token, to: Address, share: nat, m: Moves, m': Moves)
    requires forall c: Bank :: Settle(c, t, m).Ok? <==> Settle(c, t, m').Ok?
    requires forall c: Bank :: Settle(c, t, m).Ok? ==> Settle(c, t, m) == Settle(c, t, m')
    ensures Settle(b, t, GiveSome(to, share, m)).Ok? <==> Settle(b, t, GiveSome(to, share, m')).Ok?
    ensures Settle(b, t, GiveSome(to, share, m)).Ok? ==>
      Settle(b, t, GiveSome(to, share, m)) == Settle(b, t, GiveSome(to, share, m'))
  {
    assert Settle(b, t, m).Ok? <==> Settle(b, t, m').Ok?;
    if share > 0 && Transfer(b, t, Contract, to, share).Ok? {
      var next := Transfer(b, t, Contract, to, share).value;
      assert Settle(next, t, m).Ok? <==> Settle(next, t, m').Ok?;
    }
  }

  // ── When transfers can be carried out ────────────────────────────────────

  /** Payments by the contract, none of them negative. */
  predicate PaysOut(m: Moves)
    decreases m
  {
    match m
    case Done => true
    case Move(from, _, amount, rest) => from == Contract && amount >= 0 && PaysOut(rest)
    case Gate(_, _) => false
  }

  /** They go through, or the contract is short of funds. */
  lemma {:induction false} PaysOutSettles(b: Bank, t: Token, m: Moves)
    requires PaysOut(m)
    ensures Settle(b, t, m).Ok? || Settle(b, t, m) == Err(InsufficientBalance(Contract))
    decreases m
  {
    match m
    case Done =>
    case Move(from, to, amount, rest) =>
      if Transfer(b, t, from, to, amount).Ok? {
        PaysOutSettles(Transfer(b, t, from, to, amount).value, t, rest);
      }
  }

  /** Payments by one account into the contract. */
  predicate TakesFrom(m: Moves, a: Address)
    decreases m
  {
    match m
    case Done => true
    case Move(from, to, _, rest) => from == a && to == Contract && TakesFrom(rest, a)
    case Gate(_, rest) => TakesFrom(rest, a)
  }

  function Asked(m: Moves): int {
    match m
    case Done => 0
    case Move(_, _, amount, rest) => amount + Asked(rest)
    case Gate(_, rest) => Asked(rest)
  }

  /** No payment is negative, and no gate is closed. */
  predicate Passable(m: Moves)
    decreases m
  {
    match m
    case Done => true
    case Move(_, _, amount, rest) => amount >= 0 && Passable(rest)
    case Gate(met, rest) => met && Passable(rest)
  }

  lemma {:induction false} PassableAsks(m: Moves)
    requires Passable(m)
    ensures Asked(m) >= 0
    decreases m
  {
    match m
    case Done =>
    case Move(_, _, _, rest) => PassableAsks(rest);
    case Gate(_, rest) => PassableAsks(rest);
  }

  /** They go through exactly if the account has what is asked for; the contract is never the one short of funds. */
  lemma {:induction false} TakesSettle(b: Bank, t: Token, m: Moves, a: Address)
    requires a.Account? && TakesFrom(m, a) && (m.Move? || Bal(b, t, a) >= 0)
    ensures Settle(b, t, m).Ok? <==> Passable(m) && Asked(m) <= Bal(b, t, a)
    ensures Settle(b, t, m) != Err(InsufficientBalance(Contract))
    decreases m
  {
    match m
    case Done =>
    case Move(from, to, amount, rest) =>
      if Passable(rest) {
        PassableAsks(rest);
      }
      if Transfer(b, t, from, to, amount).Ok? {
        TakesSettle(Transfer(b, t, from, to, amount).value, t, rest, a);
      }
    case Gate(met, rest) =>
      if met {
        TakesSettle(b, t, rest, a);
      }
  }

  /** Nobody gains by them, and only that account pays, just what is asked for. */
  lemma {:induction false} TakesFlow(m: Moves, from: Address, a: Address)
    requires TakesFrom(m, from) && from.Account? && a.Account?
    ensures Flow(m, a) == -Share(a == from, Asked(m))
    decreases m
  {
    match m
    case Done =>
    case Move(_, _, _, rest) => TakesFlow(rest, from, a);
    case Gate(_, rest) => TakesFlow(rest, from, a);
  }

  lemma GivesPayOut(to: Address, amount: int, rest: Moves)
    requires PaysOut(rest) && amount >= 0
    ensures PaysOut(Give(to, amount, rest)) && PaysOut(GiveSome(to, amount, rest))
  {
  }

  predicate NoneNegative(m: Moves)
    decreases m
  {
    match m
    case Done => true
    case Move(_, _, amount, rest) => amount >= 0 && NoneNegative(rest)
    case Gate(_, rest) => NoneNegative(rest)
  }

  lemma {:induction false} NoneNegativeAsks(m: Moves)
    requires NoneNegative(m)
    ensures Asked(m) >= 0
    decreases m
  {
    match m
    case Done =>
    case Move(_, _, _, rest) => NoneNegativeAsks(rest);
    case Gate(_, rest) => NoneNegativeAsks(rest);
  }

  /** When they do not go through, a gate is closed or the account has too little, as the error says. */
  lemma {:induction false} TakesRefused(b: Bank, t: Token, m: Moves, a: Address)
    requires a.Account? && TakesFrom(m, a) && NoneNegative(m) && Settle(b, t, m).Err?
    requires m.Move? || Bal(b, t, a) >= 0
    ensures || (Settle(b, t, m).error == Trap && !Passable(m))
            || (Settle(b, t, m).error == InsufficientBalance(a) && Bal(b, t, a) < Asked(m))
    decreases m
  {
    match m
    case Move(from, to, amount, rest) =>
      NoneNegativeAsks(rest);
      if Transfer(b, t, from, to, amount).Ok? {
        TakesRefused(Transfer(b, t, from, to, amount).value, t, rest, a);
      }
    case Gate(met, rest) =>
      if met {
        TakesRefused(b, t, rest, a);
      }
  }
}

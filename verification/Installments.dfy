/** Swaps paid in parts: what the contract has taken in, and when the swap is accepted. */
module Installments {
  import opened Common
  import opened SwapState
  import opened SwapSpec
  import opened SwapClaims
  import opened SwapRuns
  import opened SwapActs
  import opened SwapMoney

  predicate Pays(op: Op, id: SwapId) {
    op.On? && op.id == id && (op.act.SubmitInstallment? || op.act.MakeScheduledPayment?)
  }

  /** What the part payments on swap `id` brought into the contract along a run. */
  function Collected(s: State, ops: seq<Op>, id: SwapId, t: Token): int
    decreases |ops|
  {
    if ops == [] then 0
    else
      var before := Run(s, ops[..|ops| - 1]);
      Collected(s, ops[..|ops| - 1], id, t) +
      (if Pays(ops[|ops| - 1], id) then Held(Run(s, ops), t) - Held(before, t) else 0)
  }

  // ── Free instalments ─────────────────────────────────────────────────────

  /** Only `submit_installment_payment` changes the swap; anything else may happen around it. */
  ghost predicate OnlySubmits(s: State, ops: seq<Op>, id: SwapId)
    decreases |ops|
  {
    ops == [] ||
    var before := Run(s, ops[..|ops| - 1]);
    var op := ops[|ops| - 1];
    && OnlySubmits(s, ops[..|ops| - 1], id)
    && (if Pays(op, id) then op.act.SubmitInstallment?
        else id in Run(s, ops).swaps && id in before.swaps && Run(s, ops).swaps[id] == before.swaps[id])
  }

  /** A swap with instalments, the paid part of its price, and its status, which says whether all is paid. */
  predicate Progress(swap: SwapRecord, price: I128, collected: int) {
    && swap.installment && swap.price == price && swap.paid == collected && 0 <= collected <= price
    && swap.status == if collected == price then Accepted else Pending
  }

  /** A payment is taken in full, or not at all. */
  lemma SubmitStep(s: State, id: SwapId, amount: I128)
    requires id in s.swaps && Fits(s.swaps[id].price) && 0 <= s.swaps[id].paid < s.swaps[id].price
    requires Do(s, id, SubmitInstallmentPlan(s, id, amount)).Ok?
    ensures var s' := Do(s, id, SubmitInstallmentPlan(s, id, amount)).value;
            && 0 < amount <= s.swaps[id].price - s.swaps[id].paid
            && Held(s', s.swaps[id].token) - Held(s, s.swaps[id].token) == amount
            && id in s'.swaps && s'.swaps[id].token == s.swaps[id].token
            && Progress(s'.swaps[id], s.swaps[id].price, s.swaps[id].paid + amount)
  {
    SettleHeld(s.bank, s.swaps[id].token, Take(s.swaps[id].buyer, amount, Done), s.swaps[id].token);
  }

  /** Nothing is taken once the swap has been accepted. */
  lemma SubmitNeedsPending(s: State, id: SwapId, amount: I128)
    requires id in s.swaps && s.swaps[id].status != Pending
    ensures Do(s, id, SubmitInstallmentPlan(s, id, amount)).Err?
  {
  }

  lemma AfterSubmit(s: State, id: SwapId, amount: I128)
    ensures After(s, On(id, SubmitInstallment(amount)))
      == match Do(s, id, SubmitInstallmentPlan(s, id, amount))
         case Ok(next) => next
         case Err(_) => s
  {
  }

  /** When instalments are all that changes a swap, the contract has collected exactly the paid amount,
      never more than the price, and the swap is accepted exactly when the price is paid. */
  lemma {:induction false} InstallmentsConserve(s: State, ops: seq<Op>, id: SwapId, price: I128, t: Token)
    requires id in s.swaps && s.swaps[id].token == t && price > 0 && Progress(s.swaps[id], price, 0)
    requires OnlySubmits(s, ops, id)
    ensures id in Run(s, ops).swaps && Run(s, ops).swaps[id].token == t
    ensures Progress(Run(s, ops).swaps[id], price, Collected(s, ops, id, t))
    decreases |ops|
  {
    if ops == [] {
    } else {
      var before := Run(s, ops[..|ops| - 1]);
      var op := ops[|ops| - 1];
      InstallmentsConserve(s, ops[..|ops| - 1], id, price, t);
      if Pays(op, id) {
        AfterSubmit(before, id, op.act.amount);
        if before.swaps[id].status != Pending {
          SubmitNeedsPending(before, id, op.act.amount);
        } else if Do(before, id, SubmitInstallmentPlan(before, id, op.act.amount)).Ok? {
          SubmitStep(before, id, op.act.amount);
        }
      }
    }
  }

  // ── Scheduled payments ───────────────────────────────────────────────────

  function Total(schedule: seq<Payment>): int {
    if schedule == [] then 0 else schedule[0].amount + Total(schedule[1..])
  }

  lemma {:induction false} TotalSnoc(schedule: seq<Payment>)
    requires schedule != []
    ensures Total(schedule) == Total(schedule[..|schedule| - 1]) + schedule[|schedule| - 1].amount
  {
    if |schedule| == 1 {
    } else {
      TotalSnoc(schedule[1..]);
      assert schedule[1..][..|schedule| - 2] == schedule[..|schedule| - 1][1..];
    }
  }

  lemma {:induction false} AllFlagged(schedule: seq<Payment>, made: seq<bool>)
    requires |made| == |schedule| && AllPaid(made)
    ensures Flagged(schedule, made) == Total(schedule)
  {
    if schedule == [] {
    } else {
      AllFlagged(schedule[1..], made[1..]);
    }
  }

  ghost predicate NonNegative(schedule: seq<Payment>) {
    forall i :: 0 <= i < |schedule| ==> schedule[i].amount >= 0
  }

  ghost predicate Positive(schedule: seq<Payment>) {
    forall i :: 0 <= i < |schedule| ==> schedule[i].amount > 0
  }

  function Others(made: seq<bool>): seq<bool> {
    seq(|made|, i requires 0 <= i < |made| => !made[i])
  }

  lemma {:induction false} OthersFlagged(schedule: seq<Payment>, made: seq<bool>)
    requires |made| == |schedule|
    ensures Flagged(schedule, made) + Flagged(schedule, Others(made)) == Total(schedule)
  {
    if schedule == [] {
    } else {
      OthersFlagged(schedule[1..], made[1..]);
      assert Others(made)[1..] == Others(made[1..]);
    }
  }

  /** Some payments, at least one, that add up to nothing. */
  ghost predicate ZeroPart(schedule: seq<Payment>, part: seq<bool>) {
    |part| == |schedule| && (exists i :: 0 <= i < |part| && part[i]) && Flagged(schedule, part) == 0
  }

  /** Whether every payment is flagged can be read off the collected amount, whichever payments were made,
      exactly when no payments of the schedule add up to zero. */
  lemma TotalTellsAll(schedule: seq<Payment>)
    ensures (forall made: seq<bool> :: |made| == |schedule| ==>
             (AllPaid(made) <==> Flagged(schedule, made) == Total(schedule)))
      <==> (forall part: seq<bool> :: !ZeroPart(schedule, part))
  {
    if forall made: seq<bool> ::
        |made| == |schedule| ==> (AllPaid(made) <==> Flagged(schedule, made) == Total(schedule))
    {
      forall part: seq<bool> ensures !ZeroPart(schedule, part) {
        if |part| == |schedule| {
          OthersFlagged(schedule, Others(part));
          assert Others(Others(part)) == part;
          assert forall i :: 0 <= i < |part| && part[i] ==> !Others(part)[i];
        }
      }
    }
    if forall part: seq<bool> :: !ZeroPart(schedule, part) {
      forall made: seq<bool> | |made| == |schedule|
        ensures AllPaid(made) <==> Flagged(schedule, made) == Total(schedule)
      {
        if AllPaid(made) {
          AllFlagged(schedule, made);
        } else {
          var i :| 0 <= i < |made| && !made[i];
          OthersFlagged(schedule, made);
          assert Others(made)[i] && !ZeroPart(schedule, Others(made));
        }
      }
    }
  }

  lemma {:induction false} FlagsAddUp(schedule: seq<Payment>, part: seq<bool>, i: nat)
    requires |part| == |schedule| && NonNegative(schedule)
    ensures Flagged(schedule, part) >= 0
    ensures i < |part| && part[i] ==> Flagged(schedule, part) >= schedule[i].amount
  {
    if schedule == [] {
    } else {
      FlagsAddUp(schedule[1..], part[1..], if i == 0 then 0 else i - 1);
    }
  }

  /** Where no payment is negative, that means that none is zero. */
  lemma NoZeroPartIffPositive(schedule: seq<Payment>)
    requires NonNegative(schedule)
    ensures (forall part: seq<bool> :: !ZeroPart(schedule, part)) <==> Positive(schedule)
  {
    if Positive(schedule) {
      forall part: seq<bool> ensures !ZeroPart(schedule, part) {
        if |part| == |schedule| && exists i :: 0 <= i < |part| && part[i] {
          var i :| 0 <= i < |part| && part[i];
          FlagsAddUp(schedule, part, i);
        }
      }
    } else {
      var i :| 0 <= i < |schedule| && schedule[i].amount <= 0;
      var none := seq(|schedule|, j => false);
      NothingFlagged(schedule, none);
      FlagAdds(schedule, none, i);
      assert none[i := true][i] && ZeroPart(schedule, none[i := true]);
    }
  }

  /** A schedule with a negative payment, which the contract stores as long as the total is positive: after one
      payment of [4, -2, 2] the whole total has been collected, and two payments are still missing. */
  lemma NegativePaymentMisleads()
    ensures var schedule := [Payment(4, 0), Payment(-2, 0), Payment(2, 0)];
            var made := [true, false, false];
            ScheduleTotal(schedule) == Flagged(schedule, made) == 4 && !AllPaid(made)
  {
    var schedule := [Payment(4, 0), Payment(-2, 0), Payment(2, 0)];
    var made := [true, false, false];
    assert schedule[..2] == [Payment(4, 0), Payment(-2, 0)] && schedule[..2][..1] == [Payment(4, 0)];
    assert made[1..] == [false, false] && made[1..][1..] == [false];
    assert schedule[1..] == [Payment(-2, 0), Payment(2, 0)] && schedule[1..][1..] == [Payment(2, 0)];
    assert Flagged([Payment(2, 0)], [false]) == 0;
    assert Flagged([Payment(-2, 0), Payment(2, 0)], [false, false]) == 0;
    assert ScheduleTotal([Payment(4, 0)]) == 4;
    assert ScheduleTotal([Payment(4, 0), Payment(-2, 0)]) == 2;
    assert !made[1];
  }

  /** A schedule whose total fits is offered at its exact total. */
  lemma {:induction false} TotalExact(schedule: seq<Payment>)
    requires NonNegative(schedule) && Total(schedule) <= I128_MAX
    ensures ScheduleTotal(schedule) == Total(schedule) >= 0
  {
    if schedule == [] {
    } else {
      TotalSnoc(schedule);
      TotalExact(schedule[..|schedule| - 1]);
    }
  }

  /** The entries of swap `id` that its scheduled payments may change. */
  predicate SameEntries(s: State, s': State, id: SwapId) {
    && id in s.swaps && id in s'.swaps && s'.swaps[id] == s.swaps[id]
    && Lookup(s'.side.schedules, id, []) == Lookup(s.side.schedules, id, [])
    && Lookup(s'.side.paymentsMade, id, []) == Lookup(s.side.paymentsMade, id, [])
  }

  /** Only `make_scheduled_payment` changes the swap and its schedule; anything else may happen around it. */
  ghost predicate OnlyScheduled(s: State, ops: seq<Op>, id: SwapId)
    decreases |ops|
  {
    ops == [] ||
    var before := Run(s, ops[..|ops| - 1]);
    var op := ops[|ops| - 1];
    && OnlyScheduled(s, ops[..|ops| - 1], id)
    && (if Pays(op, id) then op.act.MakeScheduledPayment? else SameEntries(before, Run(s, ops), id))
  }

  /** What has been collected is the sum of the flagged payments, and the status says whether all are flagged. */
  predicate OnSchedule(s: State, id: SwapId, t: Token, schedule: seq<Payment>, collected: int) {
    var made := Lookup(s.side.paymentsMade, id, []);
    && id in s.swaps && s.swaps[id].token == t
    && Lookup(s.side.schedules, id, []) == schedule && |made| == |schedule|
    && collected == Flagged(schedule, made)
    && s.swaps[id].status == if AllPaid(made) then Accepted else Pending
  }

  lemma ScheduledMoney(s: State, id: SwapId, index: nat)
    requires Do(s, id, ScheduledPaymentPlan(s, id, index)).Ok?
    ensures index < |s.side.schedules[id]|
    ensures Held(Do(s, id, ScheduledPaymentPlan(s, id, index)).value, s.swaps[id].token)
      == Held(s, s.swaps[id].token) + s.side.schedules[id][index].amount
  {
    SettleHeld(s.bank, s.swaps[id].token, ScheduledPaymentPlan(s, id, index).value.moves, s.swaps[id].token);
  }

  lemma ScheduledEntries(s: State, id: SwapId, index: nat)
    requires Do(s, id, ScheduledPaymentPlan(s, id, index)).Ok?
    requires index < |Lookup(s.side.paymentsMade, id, [])|
    ensures var s' := Do(s, id, ScheduledPaymentPlan(s, id, index)).value;
            var made := s.side.paymentsMade[id];
            && !made[index]
            && s'.swaps == s.swaps[id := s'.swaps[id]] && s'.swaps[id].token == s.swaps[id].token
            && s'.swaps[id].status == (if AllPaid(made[index := true]) then Accepted else s.swaps[id].status)
            && s'.side.schedules == s.side.schedules
            && s'.side.paymentsMade == s.side.paymentsMade[id := made[index := true]]
  {
  }

  lemma ScheduledStep(s: State, id: SwapId, index: nat, t: Token, schedule: seq<Payment>, collected: int)
    requires OnSchedule(s, id, t, schedule, collected)
    requires Do(s, id, ScheduledPaymentPlan(s, id, index)).Ok?
    ensures var s' := Do(s, id, ScheduledPaymentPlan(s, id, index)).value;
            OnSchedule(s', id, t, schedule, collected + Held(s', t) - Held(s, t))
  {
    ScheduledPaymentDone(s, id, index);
    ScheduledMoney(s, id, index);
    ScheduledEntries(s, id, index);
    FlagAdds(schedule, s.side.paymentsMade[id], index);
  }

  lemma AfterScheduled(s: State, id: SwapId, index: nat)
    ensures After(s, On(id, MakeScheduledPayment(index)))
      == match Do(s, id, ScheduledPaymentPlan(s, id, index))
         case Ok(next) => next
         case Err(_) => s
  {
  }

  /** When scheduled payments are all that changes a swap, then in whatever order they are made the contract
      has collected the sum of the flagged ones, and the swap is accepted exactly when all are flagged. */
  lemma {:induction false} ScheduleConserves(s: State, ops: seq<Op>, id: SwapId, t: Token, schedule: seq<Payment>)
    requires OnSchedule(s, id, t, schedule, 0) && OnlyScheduled(s, ops, id)
    ensures OnSchedule(Run(s, ops), id, t, schedule, Collected(s, ops, id, t))
    decreases |ops|
  {
    if ops == [] {
    } else {
      var before := Run(s, ops[..|ops| - 1]);
      var op := ops[|ops| - 1];
      ScheduleConserves(s, ops[..|ops| - 1], id, t, schedule);
      if Pays(op, id) {
        AfterScheduled(before, id, op.act.index);
        if Do(before, id, ScheduledPaymentPlan(before, id, op.act.index)).Ok? {
          ScheduledStep(before, id, op.act.index, t, schedule, Collected(s, ops[..|ops| - 1], id, t));
        }
      }
    }
  }

  /** Nothing of the schedule has been paid yet. */
  ghost predicate Unpaid(s: State, id: SwapId) {
    forall i :: 0 <= i < |Lookup(s.side.paymentsMade, id, [])| ==> !Lookup(s.side.paymentsMade, id, [])[i]
  }

  /** A swap offered with a schedule starts out on it. */
  lemma StartsOnSchedule(s: State, token: Token, ip: IpId, seller: Address, schedule: seq<Payment>, buyer: Address)
    requires SwapSpec.InitiateWithSchedule(s, token, ip, seller, schedule, buyer).Ok?
    ensures var s' := SwapSpec.InitiateWithSchedule(s, token, ip, seller, schedule, buyer).value;
            && OnSchedule(s', s.nextId, token, schedule, 0) && Unpaid(s', s.nextId)
            && s'.swaps[s.nextId].price == ScheduleTotal(schedule)
            && (Fits(ScheduleTotal(schedule)) ==> Progress(s'.swaps[s.nextId], ScheduleTotal(schedule), 0))
  {
    var made := seq(|schedule|, i => false);
    NothingFlagged(schedule, made);
    assert !made[0];
  }

  /** A payment that goes through is not negative, so a swap whose schedule has a negative payment is never
      accepted by scheduled payments. */
  lemma {:induction false} NegativePaymentBlocks(
      s: State, ops: seq<Op>, id: SwapId, t: Token, schedule: seq<Payment>, i: nat)
    requires OnSchedule(s, id, t, schedule, 0) && OnlyScheduled(s, ops, id)
    requires i < |schedule| && schedule[i].amount < 0 && !Lookup(s.side.paymentsMade, id, [])[i]
    ensures OnSchedule(Run(s, ops), id, t, schedule, Collected(s, ops, id, t))
    ensures !Lookup(Run(s, ops).side.paymentsMade, id, [])[i] && Run(s, ops).swaps[id].status == Pending
    decreases |ops|
  {
    ScheduleConserves(s, ops, id, t, schedule);
    if ops == [] {
    } else {
      var before := Run(s, ops[..|ops| - 1]);
      var op := ops[|ops| - 1];
      NegativePaymentBlocks(s, ops[..|ops| - 1], id, t, schedule, i);
      if Pays(op, id) {
        AfterScheduled(before, id, op.act.index);
        if Do(before, id, ScheduledPaymentPlan(before, id, op.act.index)).Ok? {
          ScheduledPaymentDone(before, id, op.act.index);
          ScheduledEntries(before, id, op.act.index);
        }
      }
    }
  }

  /** The last payment of a schedule never makes more due than has been paid, as long as the price is the total. */
  lemma LastPaymentCovers(s: State, id: SwapId, t: Token, schedule: seq<Payment>, collected: int, index: nat)
    requires OnSchedule(s, id, t, schedule, collected) && Do(s, id, ScheduledPaymentPlan(s, id, index)).Ok?
    requires s.swaps[id].price == Total(schedule) && s.swaps[id].paid >= 0
    ensures CoversPrice(s, id, index)
  {
    ScheduledPaymentDone(s, id, index);
    ScheduledEntries(s, id, index);
    if LastPayment(s, id, index) {
      FlagAdds(schedule, s.side.paymentsMade[id], index);
      AllFlagged(schedule, s.side.paymentsMade[id][index := true]);
    }
  }

  // ── When acceptance means that the total has been collected ──────────────

  /** A part of a schedule that adds up to nothing and takes in every negative payment. */
  ghost predicate Blocking(schedule: seq<Payment>, part: seq<bool>) {
    ZeroPart(schedule, part) && forall i :: 0 <= i < |part| && schedule[i].amount < 0 ==> part[i]
  }

  /** When no part of the schedule is of this kind and the total does not saturate, acceptance comes exactly when
      the price has been collected. */
  lemma AcceptedWhenTotalCollected(s: State, ops: seq<Op>, id: SwapId, t: Token, schedule: seq<Payment>)
    requires OnSchedule(s, id, t, schedule, 0) && Unpaid(s, id) && OnlyScheduled(s, ops, id)
    requires (forall part: seq<bool> :: !Blocking(schedule, part)) && ScheduleTotal(schedule) == Total(schedule)
    ensures id in Run(s, ops).swaps
    ensures Run(s, ops).swaps[id].status == Accepted <==> Collected(s, ops, id, t) == ScheduleTotal(schedule)
  {
    ScheduleConserves(s, ops, id, t, schedule);
    var made := Lookup(Run(s, ops).side.paymentsMade, id, []);
    OthersFlagged(schedule, made);
    if AllPaid(made) {
      AllFlagged(schedule, made);
    } else {
      var i :| 0 <= i < |made| && !made[i];
      assert Others(made)[i] && !Blocking(schedule, Others(made));
      forall j | 0 <= j < |made| && schedule[j].amount < 0 ensures Others(made)[j] {
        NegativePaymentBlocks(s, ops, id, t, schedule, j);
      }
    }
  }

  /** The payments before `n` that are outside `part`. */
  function Outside(part: seq<bool>, n: nat): seq<bool> {
    seq(|part|, i requires 0 <= i < |part| => i < n && !part[i])
  }

  /** The swap is on its schedule, an account is to pay, and exactly these payments have been made. */
  ghost predicate Stands(s: State, id: SwapId, t: Token, schedule: seq<Payment>, made: seq<bool>) {
    && OnSchedule(s, id, t, schedule, Flagged(schedule, made)) && s.swaps[id].buyer.Account?
    && Lookup(s.side.paymentsMade, id, []) == made
  }

  /** Time passes until payment `i` is due, and the buyer comes to have the money. */
  function Ready(s: State, id: SwapId, t: Token, payment: Payment): Op
    requires id in s.swaps && payment.amount >= 0
  {
    Surround(if s.now < payment.due then payment.due else s.now, s.bank[(t, s.swaps[id].buyer) := payment.amount],
             s.world, s.side.claimable)
  }

  lemma ReadyPays(s: State, id: SwapId, t: Token, schedule: seq<Payment>, made: seq<bool>, i: nat)
    requires Stands(s, id, t, schedule, made) && |made| == |schedule|
    requires i < |schedule| && !made[i] && schedule[i].amount >= 0
    ensures SameEntries(s, After(s, Ready(s, id, t, schedule[i])), id)
    ensures var r := Do(After(s, Ready(s, id, t, schedule[i])), id,
                        ScheduledPaymentPlan(After(s, Ready(s, id, t, schedule[i])), id, i));
            r.Ok? && id in r.value.swaps && r.value.swaps[id].buyer == s.swaps[id].buyer
  {
    var ready := After(s, Ready(s, id, t, schedule[i]));
    assert ready.swaps == s.swaps && ready.side.schedules == s.side.schedules;
    ScheduledPaymentMoves(ready, id, i);
    var next := Transfer(ready.bank, t, s.swaps[id].buyer, Contract, schedule[i].amount).value;
    assert Settle(next, t, Gate(true, Done)) == Ok(next);
  }

  /** So any payment that is not negative can be made next. */
  lemma PayNext(
      s: State, ops: seq<Op>, id: SwapId, t: Token, schedule: seq<Payment>, made: seq<bool>, i: nat)
    returns (more: seq<Op>)
    requires OnlyScheduled(s, ops, id) && Stands(Run(s, ops), id, t, schedule, made) && |made| == |schedule|
    requires i < |schedule| && !made[i] && schedule[i].amount >= 0
    ensures OnlyScheduled(s, more, id) && Stands(Run(s, more), id, t, schedule, made[i := true])
  {
    var r := Run(s, ops);
    var wait := Ready(r, id, t, schedule[i]);
    var waited := ops + [wait];
    ReadyPays(r, id, t, schedule, made, i);
    assert waited[..|waited| - 1] == ops;
    more := waited + [On(id, MakeScheduledPayment(i))];
    assert more[..|more| - 1] == waited;
    AfterScheduled(Run(s, waited), id, i);
    ScheduledEntries(Run(s, waited), id, i);
    FlagAdds(schedule, made, i);
  }

  /** All payments outside a part can be made, if none of them is negative. */
  lemma {:induction false} PayOutside(
      s: State, id: SwapId, t: Token, schedule: seq<Payment>, part: seq<bool>, n: nat) returns (ops: seq<Op>)
    requires Stands(s, id, t, schedule, Outside(part, 0)) && |part| == |schedule| && n <= |part|
    requires forall i :: 0 <= i < |part| && schedule[i].amount < 0 ==> part[i]
    ensures OnlyScheduled(s, ops, id) && Stands(Run(s, ops), id, t, schedule, Outside(part, n))
  {
    if n == 0 {
      ops := [];
    } else {
      ops := PayOutside(s, id, t, schedule, part, n - 1);
      if part[n - 1] {
        assert Outside(part, n) == Outside(part, n - 1);
      } else {
        assert Outside(part, n) == Outside(part, n - 1)[n - 1 := true];
        ops := PayNext(s, ops, id, t, schedule, Outside(part, n - 1), n - 1);
      }
    }
  }

  /** If there is such a part, everything else can be paid; then the total has been collected and the swap is still
      Pending. */
  lemma CollectedTooEarly(s: State, id: SwapId, t: Token, schedule: seq<Payment>, part: seq<bool>)
    returns (ops: seq<Op>)
    requires OnSchedule(s, id, t, schedule, 0) && Unpaid(s, id) && s.swaps[id].buyer.Account?
    requires Blocking(schedule, part)
    ensures OnlyScheduled(s, ops, id) && id in Run(s, ops).swaps
    ensures Collected(s, ops, id, t) == Total(schedule) && Run(s, ops).swaps[id].status == Pending
  {
    assert Lookup(s.side.paymentsMade, id, []) == Outside(part, 0);
    ops := PayOutside(s, id, t, schedule, part, |part|);
    ScheduleConserves(s, ops, id, t, schedule);
    OthersFlagged(schedule, part);
    assert Outside(part, |part|) == Others(part);
    var i :| 0 <= i < |part| && part[i];
    assert !Others(part)[i];
  }

  /** So this is the exact condition: along all runs in which only scheduled payments change the swap, acceptance
      means that the total has been collected, and the other way around, if and only if every part of the schedule
      that adds up to nothing leaves out a negative payment. */
  lemma AcceptanceMeansTotal(s: State, id: SwapId, t: Token, schedule: seq<Payment>)
    requires OnSchedule(s, id, t, schedule, 0) && Unpaid(s, id) && s.swaps[id].buyer.Account?
    requires ScheduleTotal(schedule) == Total(schedule)
    ensures (forall ops: seq<Op> :: OnlyScheduled(s, ops, id) ==>
               && id in Run(s, ops).swaps
               && (Run(s, ops).swaps[id].status == Accepted <==> Collected(s, ops, id, t) == ScheduleTotal(schedule)))
      <==> (forall part: seq<bool> :: !Blocking(schedule, part))
  {
    if forall part: seq<bool> :: !Blocking(schedule, part) {
      forall ops: seq<Op> | OnlyScheduled(s, ops, id)
        ensures id in Run(s, ops).swaps
        ensures Run(s, ops).swaps[id].status == Accepted <==> Collected(s, ops, id, t) == ScheduleTotal(schedule)
      {
        AcceptedWhenTotalCollected(s, ops, id, t, schedule);
      }
    } else {
      var part :| Blocking(schedule, part);
      var ops := CollectedTooEarly(s, id, t, schedule, part);
    }
  }
}

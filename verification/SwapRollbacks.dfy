/** Rolling back a batch of swaps: what is left of the swaps, their locks and the contract's money. */
module SwapRollbacks {
  import opened Common
  import opened SwapState
  import opened SwapSpec
  import opened SwapClaims
  import opened SwapSafety
  import opened SwapActs
  import opened SwapBatches

  // ── Swaps and locks ──────────────────────────────────────────────────────

  predicate Frees(s: State, ids: seq<SwapId>, ip: IpId) {
    exists id :: id in ids && id in s.swaps && s.swaps[id].ip == ip
  }

  /** Every swap of the batch is Cancelled, and its IP is free, whoever held it. */
  ghost predicate RolledBackAll(s: State, s': State, ids: seq<SwapId>) {
    && s'.now == s.now && s'.nextId == s.nextId && s'.house == s.house && s'.swaps.Keys == s.swaps.Keys
    && (forall j :: j in s.swaps ==> s'.swaps[j] == if j in ids then s.swaps[j].(status := Cancelled) else s.swaps[j])
    && (forall ip :: ip in s'.active <==> ip in s.active && !Frees(s, ids, ip))
    && (forall ip :: ip in s'.active ==> s'.active[ip] == s.active[ip])
  }

  lemma RollBackInv(s: State, id: SwapId)
    requires Inv(s) && id in s.swaps && Apply(s, id, RollBack(s, id, s.swaps[id])).Ok?
    ensures Inv(Apply(s, id, RollBack(s, id, s.swaps[id])).value)
  {
    LocalFromInv(s, id);
    RollBackExactly(s, id);
    TidyKeepsInv(s, id, RollBack(s, id, s.swaps[id]));
  }

  lemma FreesFirst(s: State, next: State, ids: seq<SwapId>, ip: IpId)
    requires ids != [] && ids[0] in s.swaps && next.swaps == s.swaps[ids[0] := s.swaps[ids[0]].(status := Cancelled)]
    ensures Frees(s, ids, ip) <==> s.swaps[ids[0]].ip == ip || Frees(next, ids[1..], ip)
  {
    if id :| id in ids && id in s.swaps && s.swaps[id].ip == ip && id != ids[0] {
      assert id in ids[1..] && next.swaps[id].ip == ip;
    }
    if id :| id in ids[1..] && id in next.swaps && next.swaps[id].ip == ip {
      assert id in ids && s.swaps[id].ip == ip;
    }
  }

  lemma RollBackFirst(s: State, next: State, end: State, ids: seq<SwapId>)
    requires ids != [] && ids[0] in s.swaps && RolledBackAll(next, end, ids[1..])
    requires Apply(s, ids[0], RollBack(s, ids[0], s.swaps[ids[0]])) == Ok(next)
    ensures RolledBackAll(s, end, ids)
  {
    forall ip ensures Frees(s, ids, ip) <==> s.swaps[ids[0]].ip == ip || Frees(next, ids[1..], ip) {
      FreesFirst(s, next, ids, ip);
    }
  }

  lemma {:induction false} RollBackAllEffect(s: State, ids: seq<SwapId>)
    requires Inv(s) && RollBackAll(s, ids).Ok?
    ensures RolledBackAll(s, RollBackAll(s, ids).value, ids) && Inv(RollBackAll(s, ids).value)
    decreases |ids|
  {
    if ids == [] {
    } else {
      var next := Apply(s, ids[0], RollBack(s, ids[0], s.swaps[ids[0]])).value;
      RollBackInv(s, ids[0]);
      RollBackAllEffect(next, ids[1..]);
      RollBackFirst(s, next, RollBackAll(s, ids).value, ids);
    }
  }

  /** Every swap of the batch is live or Cancelled already. */
  predicate NoneEnded(s: State, ids: seq<SwapId>) {
    forall id :: id in ids && id in s.swaps ==> s.swaps[id].status.Live() || s.swaps[id].status == Cancelled
  }

  /** Every swap of the batch is live, or nobody outside the batch holds its IP. */
  predicate LocksWithin(s: State, ids: seq<SwapId>) {
    forall id :: id in ids && id in s.swaps ==>
      s.swaps[id].status.Live() || (s.swaps[id].ip in s.active ==> s.active[s.swaps[id].ip] in ids)
  }

  lemma RolledBackOrderExactly(s: State, s': State, ids: seq<SwapId>)
    requires RolledBackAll(s, s', ids)
    ensures Later(s, s') <==> NoneEnded(s, ids)
  {
    if NoneEnded(s, ids) {
      forall j | j in s.swaps ensures Persists(s, s', j) {
      }
    } else {
      var id :| id in ids && id in s.swaps && !s.swaps[id].status.Live() && s.swaps[id].status != Cancelled;
      assert !Persists(s, s', id);
    }
  }

  /** Such a batch does not take the IP of a live swap outside it. */
  lemma OthersKeepIps(s: State, ids: seq<SwapId>, j: SwapId)
    requires Inv(s) && Locked(s) && LocksWithin(s, ids)
    requires j in s.swaps && s.swaps[j].status.Live() && j !in ids
    ensures !Frees(s, ids, s.swaps[j].ip)
  {
    assert Holding(s, j);
    forall id | id in ids && id in s.swaps ensures s.swaps[id].ip != s.swaps[j].ip {
      assert Holding(s, id);
    }
  }

  lemma RolledBackKeepsLocks(s: State, s': State, ids: seq<SwapId>)
    requires Inv(s) && Locked(s) && RolledBackAll(s, s', ids) && LocksWithin(s, ids)
    ensures Locked(s')
  {
    forall j | j in s'.swaps ensures Holding(s', j) {
      assert Holding(s, j);
      if s'.swaps[j].status.Live() {
        OthersKeepIps(s, ids, j);
      }
    }
  }

  /** Conversely, if another swap held the IP of one that is rolled back, it is left without. */
  lemma RolledBackLocksExactly(s: State, s': State, ids: seq<SwapId>)
    requires Inv(s) && Locked(s) && RolledBackAll(s, s', ids)
    ensures Locked(s') <==> LocksWithin(s, ids)
  {
    if LocksWithin(s, ids) {
      RolledBackKeepsLocks(s, s', ids);
    } else {
      var id :| id in ids && id in s.swaps && s.swaps[id].ip in s.active && s.active[s.swaps[id].ip] !in ids;
      var ip := s.swaps[id].ip;
      assert LockOk(s, ip) && Frees(s, ids, ip);
      assert !Holding(s', s.active[ip]);
    }
  }

  /** A batch of rollbacks that goes through keeps the order of statuses exactly when none of its swaps has ended
      in another way, */
  lemma BatchRollbackOrderExactly(s: State, ids: seq<SwapId>, caller: Address)
    requires Inv(s) && BatchRollback(s, ids, caller).Ok?
    ensures Later(s, BatchRollback(s, ids, caller).value) <==> NoneEnded(s, ids)
  {
    RollBackAllEffect(s, ids);
    RolledBackOrderExactly(s, RollBackAll(s, ids).value, ids);
  }

  /** and locks and live swaps matched exactly when it takes no IP from a swap outside the batch. */
  lemma BatchRollbackLocksExactly(s: State, ids: seq<SwapId>, caller: Address)
    requires Inv(s) && Locked(s) && BatchRollback(s, ids, caller).Ok?
    ensures Locked(BatchRollback(s, ids, caller).value) <==> LocksWithin(s, ids)
  {
    RollBackAllEffect(s, ids);
    RolledBackLocksExactly(s, RollBackAll(s, ids).value, ids);
  }

  // ── Money ────────────────────────────────────────────────────────────────

  /** What rolling one swap back leaves without an owner: the instalments of a Pending swap are not
      returned; the premium of a paid one is, although the insurance pool goes on counting it. */
  function Margin(s: State, id: SwapId, t: Token): int {
    if id !in s.swaps || s.swaps[id].token != t then 0
    else if s.swaps[id].status == Pending then Due(s.swaps[id], s.side, id)
    else if Paid(s.swaps[id]) then -s.swaps[id].premium
    else 0
  }

  /** The same for a batch, in which a repeated swap counts once. */
  function Margins(s: State, ids: seq<SwapId>, t: Token): int {
    if ids == [] then 0
    else Margins(s, ids[1..], t) + (if ids[0] in ids[1..] then 0 else Margin(s, ids[0], t))
  }

  /** Token by token, the instalments that the batch leaves behind pay for the premiums that it returns. */
  ghost predicate PremiumsCovered(s: State, ids: seq<SwapId>) {
    forall t: Token :: Margins(s, ids, t) >= 0
  }

  lemma RollBackMoney(s: State, id: SwapId)
    requires Inv(s) && id in s.swaps
    ensures Framed(s, id, RollBack(s, id, s.swaps[id]))
    ensures Profit(s, id, RollBack(s, id, s.swaps[id])) >= Margin(s, id, s.swaps[id].token)
    ensures PaysOthers(s.swaps[id]) ==> Profit(s, id, RollBack(s, id, s.swaps[id])) == Margin(s, id, s.swaps[id].token)
  {
    assert EntryOk(s, id);
  }

  lemma RollBackSlack(s: State, id: SwapId, t: Token)
    requires Inv(s) && id in s.swaps && Apply(s, id, RollBack(s, id, s.swaps[id])).Ok?
    ensures var s' := Apply(s, id, RollBack(s, id, s.swaps[id])).value;
            && Slack(s', t) >= Slack(s, t) + Margin(s, id, t)
            && (PaysOthers(s.swaps[id]) ==> Slack(s', t) == Slack(s, t) + Margin(s, id, t))
  {
    RollBackMoney(s, id);
    ChangeMovesSlack(s, id, RollBack(s, id, s.swaps[id]), t);
  }

  /** A swap that has been rolled back counts no more. */
  lemma {:induction false} MarginsAfter(s: State, next: State, id: SwapId, ids: seq<SwapId>, t: Token)
    requires id in s.swaps && next.swaps == s.swaps[id := s.swaps[id].(status := Cancelled)] && next.side == s.side
    ensures Margins(next, ids, t) == Margins(s, ids, t) - (if id in ids then Margin(s, id, t) else 0)
  {
    if ids == [] {
    } else {
      MarginsAfter(s, next, id, ids[1..], t);
    }
  }

  lemma OthersStillPaid(s: State, next: State, ids: seq<SwapId>)
    requires ids != [] && ids[0] in s.swaps && next.swaps == s.swaps[ids[0] := s.swaps[ids[0]].(status := Cancelled)]
    ensures AllPayOthers(s, ids) ==> PaysOthers(s.swaps[ids[0]]) && AllPayOthers(next, ids[1..])
  {
  }

  /** What one rollback takes from the slack, it takes from the margins that remain. */
  lemma FirstSlack(s: State, ids: seq<SwapId>, t: Token)
    requires Inv(s) && ids != [] && ids[0] in s.swaps && Apply(s, ids[0], RollBack(s, ids[0], s.swaps[ids[0]])).Ok?
    ensures var next := Apply(s, ids[0], RollBack(s, ids[0], s.swaps[ids[0]])).value;
            && Slack(next, t) + Margins(next, ids[1..], t) >= Slack(s, t) + Margins(s, ids, t)
            && (PaysOthers(s.swaps[ids[0]]) ==>
                Slack(next, t) + Margins(next, ids[1..], t) == Slack(s, t) + Margins(s, ids, t))
  {
    var next := Apply(s, ids[0], RollBack(s, ids[0], s.swaps[ids[0]])).value;
    RollBackSlack(s, ids[0], t);
    MarginsAfter(s, next, ids[0], ids[1..], t);
  }

  lemma {:induction false} RollBackAllSlack(s: State, ids: seq<SwapId>, t: Token)
    requires Inv(s) && RollBackAll(s, ids).Ok?
    ensures Slack(RollBackAll(s, ids).value, t) >= Slack(s, t) + Margins(s, ids, t)
    ensures AllPayOthers(s, ids) ==> Slack(RollBackAll(s, ids).value, t) == Slack(s, t) + Margins(s, ids, t)
    decreases |ids|
  {
    if ids == [] {
    } else {
      var next := Apply(s, ids[0], RollBack(s, ids[0], s.swaps[ids[0]])).value;
      RollBackInv(s, ids[0]);
      FirstSlack(s, ids, t);
      RollBackAllSlack(next, ids[1..], t);
      OthersStillPaid(s, next, ids);
    }
  }

  /** A batch of rollbacks that goes through keeps every slack exactly when its premiums are covered. */
  lemma BatchRollbackBackedExactly(s: State, ids: seq<SwapId>, caller: Address)
    requires Inv(s) && AllPayOthers(s, ids) && BatchRollback(s, ids, caller).Ok?
    ensures SlackKept(s, BatchRollback(s, ids, caller).value) <==> PremiumsCovered(s, ids)
  {
    var s' := RollBackAll(s, ids).value;
    forall t: Token ensures Slack(s', t) == Slack(s, t) + Margins(s, ids, t) {
      RollBackAllSlack(s, ids, t);
    }
    if SlackKept(s, s') {
      forall t: Token ensures Margins(s, ids, t) >= 0 {
        assert Slack(s', t) >= Slack(s, t);
      }
    }
  }

  // ── Funds ────────────────────────────────────────────────────────────────

  /** The swap is rolled back on the books, and nothing is paid yet. */
  function Unpaid(s: State, id: SwapId): Change
    requires id in s.swaps
  {
    RollBack(s, id, s.swaps[id]).(moves := Done)
  }

  lemma UnpaidTidy(s: State, id: SwapId)
    requires Local(s, id) && id in s.swaps
    ensures Tidy(s, id, Unpaid(s, id)) && Framed(s, id, Unpaid(s, id))
    ensures Profit(s, id, Unpaid(s, id)) >= Outgo(RollBack(s, id, s.swaps[id]).moves) + Margin(s, id, s.swaps[id].token)
  {
  }

  /** What the books release is enough for what has to be paid, and for what is left over. */
  lemma UnpaidBooks(s: State, id: SwapId, t: Token)
    requires Inv(s) && id in s.swaps
    ensures Apply(s, id, Unpaid(s, id)).Ok? && Inv(Apply(s, id, Unpaid(s, id)).value)
    ensures Owed(Apply(s, id, Unpaid(s, id)).value, t)
      <= Owed(s, t) - Margin(s, id, t) - Share(t == s.swaps[id].token, Outgo(RollBack(s, id, s.swaps[id]).moves))
  {
    LocalFromInv(s, id);
    UnpaidTidy(s, id);
    TidyKeepsInv(s, id, Unpaid(s, id));
    ChangeMovesSlack(s, id, Unpaid(s, id), t);
  }

  /** The instalments a batch could leave behind are among what is owed. */
  lemma {:induction false} MarginsWithinOwed(s: State, ids: seq<SwapId>, t: Token)
    requires Inv(s)
    ensures Margins(s, ids, t) <= Owed(s, t)
    decreases |ids|
  {
    if ids == [] {
      SwapClaimWithin(s, 0, s.nextId, t);
      AuctionClaimWithin(s, 0, s.house.next, t);
      assert Pool(s.vault, t) >= 0;
    } else if ids[0] in s.swaps {
      var next := Apply(s, ids[0], Unpaid(s, ids[0])).value;
      UnpaidBooks(s, ids[0], t);
      MarginsWithinOwed(next, ids[1..], t);
      MarginsAfter(s, next, ids[0], ids[1..], t);
    } else {
      MarginsWithinOwed(s, ids[1..], t);
    }
  }

  /** A contract whose slack and leftovers together cover a batch holds what its first rollback pays, */
  lemma FirstRollbackWithin(s: State, ids: seq<SwapId>, t: Token)
    requires Inv(s) && ids != [] && ids[0] in s.swaps && t == s.swaps[ids[0]].token
    requires Slack(s, t) + Margins(s, ids, t) >= 0
    ensures Outgo(RollBack(s, ids[0], s.swaps[ids[0]]).moves) <= Held(s, t)
  {
    var booked := Apply(s, ids[0], Unpaid(s, ids[0])).value;
    UnpaidBooks(s, ids[0], t);
    MarginsWithinOwed(booked, ids[1..], t);
    MarginsAfter(s, booked, ids[0], ids[1..], t);
  }

  /** and can pay it. */
  lemma FirstRollbackFunded(s: State, ids: seq<SwapId>)
    requires Inv(s) && ids != [] && ids[0] in s.swaps
    requires forall t: Token :: Slack(s, t) + Margins(s, ids, t) >= 0
    ensures Apply(s, ids[0], RollBack(s, ids[0], s.swaps[ids[0]])) != Err(InsufficientBalance(Contract))
  {
    var c := RollBack(s, ids[0], s.swaps[ids[0]]);
    assert Slack(s, c.swap.token) + Margins(s, ids, c.swap.token) >= 0;
    FirstRollbackWithin(s, ids, c.swap.token);
    SettleFunded(s.bank, c.swap.token, c.moves);
  }

  /** So it never runs short in the middle, in whatever order the swaps are listed. */
  lemma {:induction false} RollBackAllFunded(s: State, ids: seq<SwapId>)
    requires Inv(s) && (forall t: Token :: Slack(s, t) + Margins(s, ids, t) >= 0)
    ensures RollBackAll(s, ids) != Err(InsufficientBalance(Contract))
    decreases |ids|
  {
    if ids == [] {
    } else if ids[0] in s.swaps {
      var first := Apply(s, ids[0], RollBack(s, ids[0], s.swaps[ids[0]]));
      FirstRollbackFunded(s, ids);
      if first.Ok? {
        RollBackInv(s, ids[0]);
        forall t: Token ensures Slack(first.value, t) + Margins(first.value, ids[1..], t) >= 0 {
          assert Slack(s, t) + Margins(s, ids, t) >= 0;
          FirstSlack(s, ids, t);
        }
        RollBackAllFunded(first.value, ids[1..]);
      }
    }
  }

  lemma BatchRollbackBacked(s: State, ids: seq<SwapId>, caller: Address)
    requires Inv(s) && PremiumsCovered(s, ids)
    ensures BatchRollback(s, ids, caller).Ok? ==> SlackKept(s, BatchRollback(s, ids, caller).value)
    ensures Solvent(s) ==> BatchRollback(s, ids, caller) != Err(InsufficientBalance(Contract))
  {
    if BatchRollback(s, ids, caller).Ok? {
      forall t: Token ensures Slack(RollBackAll(s, ids).value, t) >= Slack(s, t) {
        RollBackAllSlack(s, ids, t);
        assert Margins(s, ids, t) >= 0;
      }
    }
    if Solvent(s) {
      forall t: Token ensures Slack(s, t) + Margins(s, ids, t) >= 0 {
        assert Slack(s, t) >= 0 && Margins(s, ids, t) >= 0;
      }
      RollBackAllFunded(s, ids);
    }
  }
}

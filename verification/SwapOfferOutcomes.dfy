/** Every call that opens a swap or runs an auction goes through exactly when the rules say that it may, leaves exactly
    what they say, and is refused for a reason that is true, in every store that is in order: in every reachable one. */
module SwapOfferOutcomes {
  import opened Common
  import opened SwapState
  import opened SwapSpec
  import opened SwapClaims
  import opened SwapRuns
  import opened SwapMoney
  import opened SwapBook
  import opened SwapAuctions
  import opened Installments
  import opened BatchOpening
  import opened SwapTheorems
  import opened SwapRules
  import opened SwapOfferRules

  // ── One new record ───────────────────────────────────────────────────────

  lemma EnrollBooks(s: State, rec: SwapRecord, lock: bool, byIp: bool)
    requires Numbered(s)
    ensures Booked(s, Enroll(s, rec, lock, byIp), [rec]) && OnlyBook(s, Enroll(s, rec, lock, byIp))
    ensures Numbered(Enroll(s, rec, lock, byIp))
  {
  }

  lemma OneIp(rec: SwapRecord, ip: IpId)
    ensures NotAmong([rec], ip) <==> ip != rec.ip
  {
    assert [rec][0] == rec;
  }

  lemma EnrollLocks(s: State, rec: SwapRecord, byIp: bool)
    ensures LocksTaken(s.active, Enroll(s, rec, true, byIp).active, s.nextId, [rec])
    ensures Enroll(s, rec, false, byIp).active == s.active
  {
    forall ip | NotAmong([rec], ip) ensures ip != rec.ip {
      OneIp(rec, ip);
    }
  }

  lemma EnrollLists(s: State, rec: SwapRecord, lock: bool, byIp: bool)
    ensures PartiesListed(s, Enroll(s, rec, lock, byIp), rec.seller, rec.buyer, 1)
    ensures !byIp ==> Enroll(s, rec, lock, byIp).index.byIp == s.index.byIp
  {
    assert Upward(s.nextId, 1) == [s.nextId];
  }

  lemma EnrollListsIp(s: State, rec: SwapRecord, lock: bool)
    ensures IpsListed(s.index.byIp, Enroll(s, rec, lock, true).index.byIp, s.nextId, [rec])
  {
    forall ip | NotAmong([rec], ip)
      ensures Entries(Enroll(s, rec, lock, true).index.byIp, ip) == Entries(s.index.byIp, ip)
    {
      OneIp(rec, ip);
    }
  }

  lemma OpenOpens(s: State, rec: SwapRecord)
    requires Numbered(s)
    ensures JustOpened(s, Open(s, rec), [rec], rec.seller, rec.buyer) && Numbered(Open(s, rec))
  {
    EnrollBooks(s, rec, true, true);
    EnrollLocks(s, rec, true);
    EnrollLists(s, rec, true, true);
    EnrollListsIp(s, rec, true);
  }

  // ── Many new records ─────────────────────────────────────────────────────

  lemma NothingOpened(s: State, seller: Address, buyer: Address)
    ensures JustOpened(s, s, [], seller, buyer)
  {
    assert Upward(s.nextId, 0) == [];
  }

  lemma HistoriesStartedThen(
      before: map<SwapId, seq<HistoryEntry>>, next: map<SwapId, seq<HistoryEntry>>,
      end: map<SwapId, seq<HistoryEntry>>, first: SwapId, rec: SwapRecord, records: seq<SwapRecord>, now: nat)
    requires HistoriesStarted(before, next, first, [rec], now) && HistoriesStarted(next, end, first + 1, records, now)
    ensures HistoriesStarted(before, end, first, [rec] + records, now)
  {
    forall id: SwapId ensures HistoryStarted(before, end, first, [rec] + records, now, id) {
      assert HistoryStarted(before, next, first, [rec], now, id);
      assert HistoryStarted(next, end, first + 1, records, now, id);
    }
  }

  lemma RecordsStoredThen(
      before: map<SwapId, SwapRecord>, next: map<SwapId, SwapRecord>, end: map<SwapId, SwapRecord>, first: SwapId,
      rec: SwapRecord, records: seq<SwapRecord>)
    requires RecordsStored(before, next, first, [rec]) && RecordsStored(next, end, first + 1, records)
    ensures RecordsStored(before, end, first, [rec] + records)
  {
    var all := [rec] + records;
    assert next[first + 0] == [rec][0];
    forall i | 0 <= i < |all| ensures end[first + i] == all[i] {
      if i > 0 {
        assert end[first + 1 + (i - 1)] == records[i - 1];
      }
    }
  }

  lemma BookedRecords(s: State, next: State, end: State, rec: SwapRecord, records: seq<SwapRecord>)
    requires Booked(s, next, [rec]) && Booked(next, end, records)
    ensures RecordsStored(s.swaps, end.swaps, s.nextId, [rec] + records)
  {
    RecordsStoredThen(s.swaps, next.swaps, end.swaps, s.nextId, rec, records);
  }

  lemma BookedHistories(s: State, next: State, end: State, rec: SwapRecord, records: seq<SwapRecord>)
    requires Booked(s, next, [rec]) && Booked(next, end, records) && next.now == s.now
    ensures HistoriesStarted(s.history, end.history, s.nextId, [rec] + records, s.now)
  {
    HistoriesStartedThen(s.history, next.history, end.history, s.nextId, rec, records, s.now);
  }

  lemma BookedThen(s: State, next: State, end: State, rec: SwapRecord, records: seq<SwapRecord>)
    requires Booked(s, next, [rec]) && Booked(next, end, records) && next.now == s.now
    ensures Booked(s, end, [rec] + records)
  {
    BookedRecords(s, next, end, rec, records);
    BookedHistories(s, next, end, rec, records);
  }

  lemma NeitherAmong(rec: SwapRecord, records: seq<SwapRecord>, ip: IpId)
    ensures NotAmong([rec] + records, ip) <==> NotAmong([rec], ip) && NotAmong(records, ip)
  {
    var all := [rec] + records;
    if NotAmong(all, ip) {
      assert all[0].ip != ip && forall i :: 0 <= i < |records| ==> records[i] == all[i + 1];
    }
  }

  lemma LocksTakenThen(
      before: map<IpId, SwapId>, next: map<IpId, SwapId>, end: map<IpId, SwapId>, first: SwapId, rec: SwapRecord,
      records: seq<SwapRecord>)
    requires LocksTaken(before, next, first, [rec]) && LocksTaken(next, end, first + 1, records)
    requires NotAmong(records, rec.ip)
    ensures LocksTaken(before, end, first, [rec] + records)
  {
    var all := [rec] + records;
    assert [rec][0].ip in next && next[[rec][0].ip] == first + 0;
    forall i | 0 <= i < |all| ensures all[i].ip in end && end[all[i].ip] == first + i {
      if i > 0 {
        assert end[records[i - 1].ip] == first + 1 + (i - 1);
      }
    }
    forall ip | NotAmong(all, ip) ensures (ip in end <==> ip in before) && (ip in before ==> end[ip] == before[ip]) {
      NeitherAmong(rec, records, ip);
    }
  }

  lemma PartyListedThen(
      before: map<Address, seq<SwapId>>, next: map<Address, seq<SwapId>>, end: map<Address, seq<SwapId>>,
      party: Address, first: SwapId, n: nat)
    requires PartyListed(before, next, party, first, 1) && PartyListed(next, end, party, first + 1, n)
    ensures PartyListed(before, end, party, first, n + 1)
  {
    var all := n + 1;
    forall a ensures AddedFor(before, end, party, first, all, a) {
      assert AddedFor(before, next, party, first, 1, a) && AddedFor(next, end, party, first + 1, n, a);
      UpwardSplits(Entries(before, a), first, n);
    }
  }

  lemma IpsListedThen(
      before: map<IpId, seq<SwapId>>, next: map<IpId, seq<SwapId>>, end: map<IpId, seq<SwapId>>, first: SwapId,
      rec: SwapRecord, records: seq<SwapRecord>)
    requires IpsListed(before, next, first, [rec]) && IpsListed(next, end, first + 1, records)
    requires NotAmong(records, rec.ip)
    ensures IpsListed(before, end, first, [rec] + records)
  {
    var all := [rec] + records;
    assert Entries(next, [rec][0].ip) == Entries(before, [rec][0].ip) + [first + 0];
    forall i | 0 <= i < |all| ensures Entries(end, all[i].ip) == Entries(before, all[i].ip) + [first + i] {
      if i > 0 {
        assert Entries(end, records[i - 1].ip) == Entries(next, records[i - 1].ip) + [first + 1 + (i - 1)];
        OneIp(rec, records[i - 1].ip);
      }
    }
    forall ip | NotAmong(all, ip) ensures Entries(end, ip) == Entries(before, ip) {
      NeitherAmong(rec, records, ip);
    }
  }

  lemma PartiesListedThen(s: State, next: State, end: State, seller: Address, buyer: Address, n: nat)
    requires PartiesListed(s, next, seller, buyer, 1) && PartiesListed(next, end, seller, buyer, n)
    requires next.nextId == s.nextId + 1
    ensures PartiesListed(s, end, seller, buyer, n + 1)
  {
    PartyListedThen(s.index.bySeller, next.index.bySeller, end.index.bySeller, seller, s.nextId, n);
    PartyListedThen(s.index.byBuyer, next.index.byBuyer, end.index.byBuyer, buyer, s.nextId, n);
  }

  /** What the parts of an opening say of its locks and lists. */
  lemma FindableThen(
      s: State, next: State, end: State, rec: SwapRecord, records: seq<SwapRecord>, seller: Address, buyer: Address)
    requires LocksTaken(s.active, next.active, s.nextId, [rec])
    requires LocksTaken(next.active, end.active, s.nextId + 1, records)
    requires IpsListed(s.index.byIp, next.index.byIp, s.nextId, [rec])
    requires IpsListed(next.index.byIp, end.index.byIp, s.nextId + 1, records)
    requires NotAmong(records, rec.ip)
    ensures LocksTaken(s.active, end.active, s.nextId, [rec] + records)
    ensures IpsListed(s.index.byIp, end.index.byIp, s.nextId, [rec] + records)
  {
    LocksTakenThen(s.active, next.active, end.active, s.nextId, rec, records);
    IpsListedThen(s.index.byIp, next.index.byIp, end.index.byIp, s.nextId, rec, records);
  }

  /** One opening, and then more, are one list of openings. */
  lemma OpenedBooks(
      s: State, next: State, end: State, rec: SwapRecord, records: seq<SwapRecord>, seller: Address, buyer: Address)
    requires Opened(s, next, [rec], seller, buyer) && Opened(next, end, records, seller, buyer) && next.now == s.now
    ensures Booked(s, end, [rec] + records)
  {
    BookedThen(s, next, end, rec, records);
  }

  lemma OpenedLists(
      s: State, next: State, end: State, rec: SwapRecord, records: seq<SwapRecord>, seller: Address, buyer: Address)
    requires Opened(s, next, [rec], seller, buyer) && Opened(next, end, records, seller, buyer)
    ensures PartiesListed(s, end, seller, buyer, |records| + 1)
  {
    PartiesListedThen(s, next, end, seller, buyer, |records|);
  }

  lemma OpenedLocks(
      s: State, next: State, end: State, rec: SwapRecord, records: seq<SwapRecord>, seller: Address, buyer: Address)
    requires Opened(s, next, [rec], seller, buyer) && Opened(next, end, records, seller, buyer)
    requires NotAmong(records, rec.ip)
    ensures LocksTaken(s.active, end.active, s.nextId, [rec] + records)
    ensures IpsListed(s.index.byIp, end.index.byIp, s.nextId, [rec] + records)
  {
    FindableThen(s, next, end, rec, records, seller, buyer);
  }

  /** One opening, and then more, are one list of openings. */
  lemma OpenedThen(
      s: State, next: State, end: State, rec: SwapRecord, records: seq<SwapRecord>, seller: Address, buyer: Address)
    requires Opened(s, next, [rec], seller, buyer) && Opened(next, end, records, seller, buyer) && next.now == s.now
    requires NotAmong(records, rec.ip)
    ensures Opened(s, end, [rec] + records, seller, buyer)
  {
    OpenedBooks(s, next, end, rec, records, seller, buyer);
    OpenedLists(s, next, end, rec, records, seller, buyer);
    OpenedLocks(s, next, end, rec, records, seller, buyer);
  }

  // ── Records ──────────────────────────────────────────────────────────────

  lemma PremiumIs(price: int, insured: bool)
    requires price > 0
    ensures Premium(price, insured).Ok? <==> PremiumFits(price, insured)
    ensures Premium(price, insured).Ok? ==> Premium(price, insured).value == if insured then price / 50 else 0
    ensures Premium(price, insured).Err? ==> Premium(price, insured).error == Trap
  {
  }

  lemma RecordIsOffer(s: State, t: Terms)
    requires t.price > 0 && Premium(t.price, t.insured).Ok?
    ensures RecordOf(s, t, Premium(t.price, t.insured).value) == OfferOn(s, t)
  {
    PremiumIs(t.price, t.insured);
  }

  lemma {:induction false} AddedUpSnoc(sum: int, schedule: seq<Payment>, last: Payment)
    ensures AddedUp(sum, schedule + [last]) == SatAdd(AddedUp(sum, schedule), last.amount)
    decreases |schedule|
  {
    if schedule == [] {
      assert AddedUp(SatAdd(sum, last.amount), ([last])[1..]) == SatAdd(sum, last.amount);
      assert schedule + [last] == [last];
    } else {
      assert (schedule + [last])[1..] == schedule[1..] + [last];
      AddedUpSnoc(SatAdd(sum, schedule[0].amount), schedule[1..], last);
    }
  }

  lemma {:induction false} TotalIsAddedUp(schedule: seq<Payment>)
    ensures ScheduleTotal(schedule) == AddedUp(0, schedule)
  {
    if schedule == [] {
    } else {
      var init, last := schedule[..|schedule| - 1], schedule[|schedule| - 1];
      TotalIsAddedUp(init);
      AddedUpSnoc(0, init, last);
      assert schedule == init + [last];
    }
  }

  /** A schedule without negative payments adds up to its sum, or to the greatest number there is. */
  lemma {:induction false} AddedUpIsSum(sum: int, schedule: seq<Payment>)
    requires 0 <= sum <= I128_MAX && forall i :: 0 <= i < |schedule| ==> schedule[i].amount >= 0
    ensures Total(schedule) >= 0
    ensures AddedUp(sum, schedule) == if sum + Total(schedule) > I128_MAX then I128_MAX else sum + Total(schedule)
    decreases |schedule|
  {
    if schedule == [] {
    } else {
      AddedUpIsSum(SatAdd(sum, schedule[0].amount), schedule[1..]);
    }
  }

  // ── Checks ───────────────────────────────────────────────────────────────

  lemma OfferChecked(s: State, ip: IpId, seller: Address, price: int)
    ensures RequireOffer(s, ip, seller, price).Pass? <==> price > 0 && Sells(s, ip, seller) && ip !in s.active
    ensures RequireOffer(s, ip, seller, price).Fail? ==>
      ItemSays(s, ip, seller, price, RequireOffer(s, ip, seller, price).error)
  {
  }

  /** What one opening means for the items after it. */
  predicate TakesOneLock(s: State, next: State, ip: IpId) {
    next.world == s.world && next.active.Keys == s.active.Keys + {ip}
  }

  lemma ForSaleAfter(s: State, next: State, seller: Address, ips: seq<IpId>, prices: seq<I128>)
    requires ips != [] && prices != [] && TakesOneLock(s, next, ips[0])
    requires prices[0] > 0 && Sells(s, ips[0], seller) && ips[0] !in s.active
    ensures AllForSale(s, seller, ips, prices) <==> AllForSale(next, seller, ips[1..], prices[1..])
  {
    DistinctSplits(ips);
    if AllForSale(s, seller, ips, prices) {
      forall i | 0 <= i < |ips[1..]|
        ensures prices[1..][i] > 0 && Sells(next, ips[1..][i], seller) && ips[1..][i] !in next.active
      {
        assert ips[i + 1] != ips[0] && Sells(s, ips[i + 1], seller);
      }
    }
    if AllForSale(next, seller, ips[1..], prices[1..]) {
      forall i | 0 <= i < |ips| ensures prices[i] > 0 && Sells(s, ips[i], seller) && ips[i] !in s.active {
        assert i > 0 ==> ips[i] == ips[1..][i - 1] && prices[i] == prices[1..][i - 1];
      }
      assert forall ip :: ip in ips[1..] ==> ip !in next.active;
    }
  }

  lemma ItemSaysBefore(s: State, next: State, seller: Address, first: IpId, ip: IpId, price: int, e: Error)
    requires TakesOneLock(s, next, first) && ItemSays(next, ip, seller, price, e)
    ensures ItemSays(s, ip, seller, price, e) || (e == SwapExists && ip == first)
  {
  }

  lemma ItemsSayAfter(s: State, next: State, seller: Address, ips: seq<IpId>, prices: seq<I128>, e: Error)
    requires ips != [] && prices != [] && TakesOneLock(s, next, ips[0])
    requires ItemsSay(next, seller, ips[1..], prices[1..], e)
    ensures ItemsSay(s, seller, ips, prices, e)
  {
    DistinctSplits(ips);
    if !(e == SwapExists && !Distinct(ips)) {
      var i :| 0 <= i < |ips[1..]| && i < |prices[1..]| && ItemSays(next, ips[1..][i], seller, prices[1..][i], e);
      ItemSaysBefore(s, next, seller, ips[0], ips[i + 1], prices[i + 1], e);
    }
  }

  lemma FirstItemSays(s: State, seller: Address, ips: seq<IpId>, prices: seq<I128>, e: Error)
    requires ips != [] && prices != [] && ItemSays(s, ips[0], seller, prices[0], e)
    ensures ItemsSay(s, seller, ips, prices, e)
  {
  }

  // ── Batches ──────────────────────────────────────────────────────────────

  lemma FirstNotForSale(s: State, seller: Address, ips: seq<IpId>, prices: seq<I128>)
    requires ips != [] && prices != [] && !(prices[0] > 0 && Sells(s, ips[0], seller) && ips[0] !in s.active)
    ensures !AllForSale(s, seller, ips, prices)
  {
  }

  lemma InsurableSplits(ips: seq<IpId>, prices: seq<I128>, insured: bool)
    requires ips != [] && prices != []
    ensures AllInsurable(ips, prices, insured)
      <==> PremiumFits(prices[0], insured) && AllInsurable(ips[1..], prices[1..], insured)
  {
    if PremiumFits(prices[0], insured) && AllInsurable(ips[1..], prices[1..], insured) {
      forall i | 0 <= i < |ips| && i < |prices| ensures PremiumFits(prices[i], insured) {
        assert i > 0 ==> prices[i] == prices[1..][i - 1];
      }
    }
  }

  lemma {:induction false} CheckingAdmits(
      s: State, b: BatchTerms, ips: seq<IpId>, prices: seq<I128>, insured: bool)
    ensures OpenChecking(s, b, ips, prices, insured).Ok?
      <==> AllForSale(s, b.seller, ips, prices) && AllInsurable(ips, prices, insured)
    decreases |ips|
  {
    if ips == [] || prices == [] {
    } else {
      OfferChecked(s, ips[0], b.seller, prices[0]);
      InsurableSplits(ips, prices, insured);
      if RequireOffer(s, ips[0], b.seller, prices[0]).Fail? {
        FirstNotForSale(s, b.seller, ips, prices);
      } else {
        PremiumIs(prices[0], insured);
        if Premium(prices[0], insured).Ok? {
          var rec := RecordOf(s, ItemTerms(b, ips[0], prices[0], insured), Premium(prices[0], insured).value);
          assert TakesOneLock(s, Open(s, rec), ips[0]);
          CheckingAdmits(Open(s, rec), b, ips[1..], prices[1..], insured);
          ForSaleAfter(s, Open(s, rec), b.seller, ips, prices);
        }
      }
    }
  }

  lemma CheckingSaysAfter(
      s: State, next: State, seller: Address, ips: seq<IpId>, prices: seq<I128>, insured: bool, e: Error)
    requires ips != [] && prices != [] && TakesOneLock(s, next, ips[0])
    requires CheckingSays(next, seller, ips[1..], prices[1..], insured, e)
    ensures CheckingSays(s, seller, ips, prices, insured, e)
  {
    InsurableSplits(ips, prices, insured);
    if e != Trap {
      ItemsSayAfter(s, next, seller, ips, prices, e);
    }
  }

  lemma {:induction false} CheckingRefused(
      s: State, b: BatchTerms, ips: seq<IpId>, prices: seq<I128>, insured: bool)
    requires OpenChecking(s, b, ips, prices, insured).Err?
    ensures CheckingSays(s, b.seller, ips, prices, insured, OpenChecking(s, b, ips, prices, insured).error)
    decreases |ips|
  {
    if prices == [] {
    } else {
      OfferChecked(s, ips[0], b.seller, prices[0]);
      InsurableSplits(ips, prices, insured);
      if RequireOffer(s, ips[0], b.seller, prices[0]).Fail? {
        FirstItemSays(s, b.seller, ips, prices, RequireOffer(s, ips[0], b.seller, prices[0]).error);
      } else {
        PremiumIs(prices[0], insured);
        if Premium(prices[0], insured).Ok? {
          var next := Open(s, RecordOf(s, ItemTerms(b, ips[0], prices[0], insured), Premium(prices[0], insured).value));
          assert TakesOneLock(s, next, ips[0]);
          CheckingRefused(next, b, ips[1..], prices[1..], insured);
          CheckingSaysAfter(s, next, b.seller, ips, prices, insured,
                            OpenChecking(next, b, ips[1..], prices[1..], insured).error);
        }
      }
    }
  }

  lemma OffersSplit(s: State, next: State, b: BatchTerms, ips: seq<IpId>, prices: seq<I128>, insured: bool)
    requires 0 < |ips| <= |prices| && next.now == s.now
    ensures Offers(s, b, ips, prices, insured)
      == [OfferOn(s, ItemTerms(b, ips[0], prices[0], insured))] + Offers(next, b, ips[1..], prices[1..], insured)
    ensures ips[0] !in ips[1..] ==> NotAmong(Offers(next, b, ips[1..], prices[1..], insured), ips[0])
  {
    var tail := Offers(next, b, ips[1..], prices[1..], insured);
    assert forall i :: 0 <= i < |tail| ==> tail[i].ip == ips[1..][i];
  }

  lemma {:induction false} CheckingOpens(s: State, b: BatchTerms, ips: seq<IpId>, prices: seq<I128>, insured: bool)
    requires Numbered(s) && OpenChecking(s, b, ips, prices, insured).Ok?
    ensures AllForSale(s, b.seller, ips, prices)
    ensures JustOpened(s, OpenChecking(s, b, ips, prices, insured).value, Offers(s, b, ips, prices, insured),
                       b.seller, b.buyer)
    decreases |ips|
  {
    CheckingAdmits(s, b, ips, prices, insured);
    if ips == [] {
      NothingOpened(s, b.seller, b.buyer);
    } else {
      var t := ItemTerms(b, ips[0], prices[0], insured);
      OfferChecked(s, ips[0], b.seller, prices[0]);
      RecordIsOffer(s, t);
      var rec := OfferOn(s, t);
      OpenOpens(s, rec);
      CheckingOpens(Open(s, rec), b, ips[1..], prices[1..], insured);
      DistinctSplits(ips);
      OffersSplit(s, Open(s, rec), b, ips, prices, insured);
      OpenedThen(s, Open(s, rec), OpenChecking(s, b, ips, prices, insured).value, rec,
                 Offers(Open(s, rec), b, ips[1..], prices[1..], insured), b.seller, b.buyer);
    }
  }

  lemma LaterItemSays(s: State, seller: Address, ips: seq<IpId>, prices: seq<I128>, e: Error)
    requires ips != [] && prices != [] && ItemsSay(s, seller, ips[1..], prices[1..], e)
    ensures ItemsSay(s, seller, ips, prices, e)
  {
    DistinctSplits(ips);
    if !(e == SwapExists && !Distinct(ips)) {
      var i :| 0 <= i < |ips[1..]| && i < |prices[1..]| && ItemSays(s, ips[1..][i], seller, prices[1..][i], e);
      assert ips[i + 1] == ips[1..][i] && prices[i + 1] == prices[1..][i];
    }
  }

  /** The first pass of the other batch refuses for the same reasons, all about the store before it. */
  lemma {:induction false} ValidationRefused(s: State, seller: Address, ips: seq<IpId>, prices: seq<I128>)
    requires |ips| == |prices| && ValidateOffers(s, seller, ips, prices).Fail?
    ensures ItemsSay(s, seller, ips, prices, ValidateOffers(s, seller, ips, prices).error)
  {
    OfferChecked(s, ips[0], seller, prices[0]);
    DistinctSplits(ips);
    if RequireOffer(s, ips[0], seller, prices[0]).Fail? {
      FirstItemSays(s, seller, ips, prices, RequireOffer(s, ips[0], seller, prices[0]).error);
    } else if ips[0] !in ips[1..] {
      ValidationRefused(s, seller, ips[1..], prices[1..]);
      LaterItemSays(s, seller, ips, prices, ValidateOffers(s, seller, ips[1..], prices[1..]).error);
    }
  }

  // ── Escrows ──────────────────────────────────────────────────────────────

  lemma EscrowEnrolls(s: State, record: SwapRecord, byIp: bool)
    requires Numbered(s)
    ensures var s' := Enroll(s, record, true, byIp);
            && Numbered(s') && TakesOneLock(s, s', record.ip)
            && (byIp ==> JustOpened(s, s', [record], record.seller, record.buyer))
            && (!byIp ==> OpenedEscrow(s, s'.(side := s.side.(escrowMode := s.side.escrowMode + {s.nextId})), record))
  {
    EnrollBooks(s, record, true, byIp);
    EnrollLocks(s, record, byIp);
    EnrollLists(s, record, true, byIp);
    EnrollListsIp(s, record, true);
  }

  lemma EscrowOpens(
      s: State, token: Token, ip: IpId, seller: Address, price: int, buyer: Address, timeout: nat, byIp: bool)
    requires Numbered(s)
    ensures var s' := OpenEscrow(s, token, ip, seller, price, buyer, timeout, byIp);
            var record := Offer(s, token, ip, seller, price, buyer).(expiry := timeout);
            && Numbered(s') && TakesOneLock(s, s', ip)
            && (if byIp then OpenedEscrows(s, s', [record], seller, buyer) else OpenedEscrow(s, s', record))
  {
    EscrowEnrolls(s, Offer(s, token, ip, seller, price, buyer).(expiry := timeout), byIp);
  }

  lemma {:induction false} EscrowsAdmit(
      s: State, token: Token, seller: Address, buyer: Address, ips: seq<IpId>, prices: seq<I128>, timeouts: seq<nat>)
    requires Numbered(s) && |ips| == |prices| == |timeouts|
    ensures OpenEscrows(s, token, seller, buyer, ips, prices, timeouts).Ok? <==> AllForSale(s, seller, ips, prices)
    ensures OpenEscrows(s, token, seller, buyer, ips, prices, timeouts).Err? ==>
      ItemsSay(s, seller, ips, prices, OpenEscrows(s, token, seller, buyer, ips, prices, timeouts).error)
    decreases |ips|
  {
    if ips == [] {
    } else {
      OfferChecked(s, ips[0], seller, prices[0]);
      if RequireOffer(s, ips[0], seller, prices[0]).Fail? {
        FirstNotForSale(s, seller, ips, prices);
        FirstItemSays(s, seller, ips, prices, RequireOffer(s, ips[0], seller, prices[0]).error);
      } else {
        var next := OpenEscrow(s, token, ips[0], seller, prices[0], buyer, timeouts[0], true);
        var rest := OpenEscrows(next, token, seller, buyer, ips[1..], prices[1..], timeouts[1..]);
        EscrowOpens(s, token, ips[0], seller, prices[0], buyer, timeouts[0], true);
        EscrowsAdmit(next, token, seller, buyer, ips[1..], prices[1..], timeouts[1..]);
        ForSaleAfter(s, next, seller, ips, prices);
        if rest.Err? {
          ItemsSayAfter(s, next, seller, ips, prices, rest.error);
        }
      }
    }
  }

  lemma EscrowsSplit(
      s: State, next: State, token: Token, seller: Address, buyer: Address, ips: seq<IpId>, prices: seq<I128>,
      timeouts: seq<nat>)
    requires 0 < |ips| == |prices| == |timeouts| && next.now == s.now
    ensures Escrows(s, token, seller, buyer, ips, prices, timeouts)
      == [Offer(s, token, ips[0], seller, prices[0], buyer).(expiry := timeouts[0])]
         + Escrows(next, token, seller, buyer, ips[1..], prices[1..], timeouts[1..])
    ensures ips[0] !in ips[1..] ==>
      NotAmong(Escrows(next, token, seller, buyer, ips[1..], prices[1..], timeouts[1..]), ips[0])
  {
    var tail := Escrows(next, token, seller, buyer, ips[1..], prices[1..], timeouts[1..]);
    assert forall i :: 0 <= i < |tail| ==> tail[i].ip == ips[1..][i];
  }

  lemma OpenedEscrowsThen(
      s: State, next: State, end: State, rec: SwapRecord, records: seq<SwapRecord>, seller: Address, buyer: Address)
    requires OpenedEscrows(s, next, [rec], seller, buyer) && OpenedEscrows(next, end, records, seller, buyer)
    requires NotAmong(records, rec.ip)
    ensures OpenedEscrows(s, end, [rec] + records, seller, buyer)
  {
    OpenedThen(s, next, end, rec, records, seller, buyer);
  }

  lemma {:induction false} EscrowsOpen(
      s: State, token: Token, seller: Address, buyer: Address, ips: seq<IpId>, prices: seq<I128>, timeouts: seq<nat>)
    requires Numbered(s) && |ips| == |prices| == |timeouts|
    requires OpenEscrows(s, token, seller, buyer, ips, prices, timeouts).Ok?
    ensures OpenedEscrows(s, OpenEscrows(s, token, seller, buyer, ips, prices, timeouts).value,
                          Escrows(s, token, seller, buyer, ips, prices, timeouts), seller, buyer)
    decreases |ips|
  {
    if ips == [] {
      NothingOpened(s, seller, buyer);
    } else {
      var record := Offer(s, token, ips[0], seller, prices[0], buyer).(expiry := timeouts[0]);
      var next := OpenEscrow(s, token, ips[0], seller, prices[0], buyer, timeouts[0], true);
      EscrowsAdmit(s, token, seller, buyer, ips, prices, timeouts);
      DistinctSplits(ips);
      EscrowOpens(s, token, ips[0], seller, prices[0], buyer, timeouts[0], true);
      EscrowsOpen(next, token, seller, buyer, ips[1..], prices[1..], timeouts[1..]);
      EscrowsSplit(s, next, token, seller, buyer, ips, prices, timeouts);
      OpenedEscrowsThen(s, next, OpenEscrows(next, token, seller, buyer, ips[1..], prices[1..], timeouts[1..]).value,
                        record, Escrows(next, token, seller, buyer, ips[1..], prices[1..], timeouts[1..]),
                        seller, buyer);
    }
  }

  // ── Call by call ─────────────────────────────────────────────────────────

  lemma InitiateAdmits(s: State, t: Terms)
    ensures var r := InitiateSwap(s, t);
            && (r.Ok? <==> MayOffer(s, t.ip, t.seller, t.price) && PremiumFits(t.price, t.insured))
            && (r.Ok? ==> r.value == Open(s, OfferOn(s, t))) && (r.Err? ==> InitiateSays(s, t, r.error))
  {
    OfferChecked(s, t.ip, t.seller, t.price);
    if RequireOffer(s, t.ip, t.seller, t.price).Pass? {
      PremiumIs(t.price, t.insured);
      if Premium(t.price, t.insured).Ok? {
        RecordIsOffer(s, t);
      }
    }
  }

  lemma ScheduleAdmits(s: State, token: Token, ip: IpId, seller: Address, schedule: seq<Payment>, buyer: Address)
    ensures var r := SwapSpec.InitiateWithSchedule(s, token, ip, seller, schedule, buyer);
            && (r.Ok? <==> schedule != [] && MayOffer(s, ip, seller, AddedUp(0, schedule)))
            && (r.Err? ==> ScheduleSays(s, ip, seller, schedule, r.error))
  {
    TotalIsAddedUp(schedule);
    OfferChecked(s, ip, seller, AddedUp(0, schedule));
  }

  lemma ScheduleOpens(s: State, token: Token, ip: IpId, seller: Address, schedule: seq<Payment>, buyer: Address)
    requires Numbered(s) && SwapSpec.InitiateWithSchedule(s, token, ip, seller, schedule, buyer).Ok?
    ensures OpenedWithSchedule(s, SwapSpec.InitiateWithSchedule(s, token, ip, seller, schedule, buyer).value,
                               token, ip, seller, schedule, buyer)
  {
    TotalIsAddedUp(schedule);
    OpenOpens(s, Offer(s, token, ip, seller, AddedUp(0, schedule), buyer).(installment := true));
  }

  lemma SignersAdmit(
      s: State, token: Token, ip: IpId, seller: Address, price: I128, buyer: Address, required: seq<Address>)
    ensures var r := SwapSpec.InitiateWithSigners(s, token, ip, seller, price, buyer, required);
            && (r.Ok? <==> required != [] && MayOffer(s, ip, seller, price))
            && (r.Err? ==> SignersSay(s, ip, seller, price, required, r.error))
  {
    OfferChecked(s, ip, seller, price);
  }

  lemma SignersOpen(
      s: State, token: Token, ip: IpId, seller: Address, price: I128, buyer: Address, required: seq<Address>)
    requires Numbered(s) && SwapSpec.InitiateWithSigners(s, token, ip, seller, price, buyer, required).Ok?
    ensures OpenedWithSigners(s, SwapSpec.InitiateWithSigners(s, token, ip, seller, price, buyer, required).value,
                              token, ip, seller, price, buyer, required)
  {
    OpenOpens(s, Offer(s, token, ip, seller, price, buyer));
  }

  lemma EscrowAdmits(s: State, token: Token, ip: IpId, seller: Address, price: I128, buyer: Address, timeout: nat)
    ensures var r := SwapSpec.InitiateEscrow(s, token, ip, seller, price, buyer, timeout);
            && (r.Ok? <==> MayOffer(s, ip, seller, price)) && (r.Err? ==> OfferSays(s, ip, seller, price, r.error))
            && (r.Ok? ==> r.value == OpenEscrow(s, token, ip, seller, price, buyer, timeout, false))
  {
    OfferChecked(s, ip, seller, price);
  }

  lemma InsurableAlways(ips: seq<IpId>, prices: seq<I128>)
    ensures AllInsurable(ips, prices, false)
  {
  }

  lemma TwoPassesAdmit(s: State, b: BatchTerms, ips: seq<IpId>, prices: seq<I128>)
    requires |ips| == |prices|
    ensures ValidateOffers(s, b.seller, ips, prices).Pass? <==> AllForSale(s, b.seller, ips, prices)
    ensures ValidateOffers(s, b.seller, ips, prices).Pass? ==>
      OpenChecking(s, b, ips, prices, false) == Ok(OpenAll(s, b, ips, prices))
    ensures ValidateOffers(s, b.seller, ips, prices).Fail? ==>
      ItemsSay(s, b.seller, ips, prices, ValidateOffers(s, b.seller, ips, prices).error)
  {
    TwoPassesAreOne(s, b, ips, prices);
    CheckingAdmits(s, b, ips, prices, false);
    InsurableAlways(ips, prices);
    if ValidateOffers(s, b.seller, ips, prices).Fail? {
      ValidationRefused(s, b.seller, ips, prices);
    }
  }

  lemma BatchAdmits(s: State, b: BatchTerms, ips: seq<IpId>, prices: seq<I128>)
    ensures var r := SwapSpec.BatchInitiate(s, b, ips, prices);
            && (r.Ok? <==> MayBatch(s, b.seller, ips, prices))
            && (r.Ok? ==> r == OpenChecking(s, b, ips, prices, false))
  {
    if |ips| == |prices| {
      TwoPassesAdmit(s, b, ips, prices);
    }
  }

  lemma BatchRefused(s: State, b: BatchTerms, ips: seq<IpId>, prices: seq<I128>)
    requires SwapSpec.BatchInitiate(s, b, ips, prices).Err?
    ensures BatchSays(s, b.seller, ips, prices, SwapSpec.BatchInitiate(s, b, ips, prices).error)
  {
    if |ips| == |prices| && ValidateOffers(s, b.seller, ips, prices).Fail? {
      ValidationRefused(s, b.seller, ips, prices);
    }
  }

  lemma InsuredAdmits(s: State, b: BatchTerms, ips: seq<IpId>, prices: seq<I128>, insured: bool)
    ensures var r := SwapSpec.BatchInitiateWithInsurance(s, b, ips, prices, insured);
            && (r.Ok? <==> MayBatchInsured(s, b.seller, ips, prices, insured))
            && (r.Ok? ==> r == OpenChecking(s, b, ips, prices, insured))
  {
    CheckingAdmits(s, b, ips, prices, insured);
  }

  lemma InsuredRefused(s: State, b: BatchTerms, ips: seq<IpId>, prices: seq<I128>, insured: bool)
    requires SwapSpec.BatchInitiateWithInsurance(s, b, ips, prices, insured).Err?
    ensures InsuredSays(s, b.seller, ips, prices, insured,
                        SwapSpec.BatchInitiateWithInsurance(s, b, ips, prices, insured).error)
  {
    if OpenChecking(s, b, ips, prices, insured).Err? {
      CheckingRefused(s, b, ips, prices, insured);
    }
  }

  lemma EscrowBatchAdmits(
      s: State, token: Token, ips: seq<IpId>, seller: Address, prices: seq<I128>, buyer: Address, timeouts: seq<nat>)
    requires Numbered(s)
    ensures var r := SwapSpec.BatchInitiateEscrow(s, token, ips, seller, prices, buyer, timeouts);
            && (r.Ok? <==> MayBatchEscrow(s, seller, ips, prices, timeouts))
            && (r.Ok? ==> r == OpenEscrows(s, token, seller, buyer, ips, prices, timeouts))
  {
    if |ips| == |prices| == |timeouts| {
      EscrowsAdmit(s, token, seller, buyer, ips, prices, timeouts);
    }
  }

  lemma EscrowBatchRefused(
      s: State, token: Token, ips: seq<IpId>, seller: Address, prices: seq<I128>, buyer: Address, timeouts: seq<nat>)
    requires Numbered(s) && SwapSpec.BatchInitiateEscrow(s, token, ips, seller, prices, buyer, timeouts).Err?
    ensures EscrowsSay(s, seller, ips, prices, timeouts,
                       SwapSpec.BatchInitiateEscrow(s, token, ips, seller, prices, buyer, timeouts).error)
  {
    if |ips| == |prices| == |timeouts| {
      EscrowsAdmit(s, token, seller, buyer, ips, prices, timeouts);
    }
  }

  lemma StartObeys(s: State, token: Token, ip: IpId, seller: Address, minBid: I128, duration: nat)
    ensures var r := SwapSpec.StartAuction(s, token, ip, seller, minBid, duration);
            && (r.Ok? <==> MayAuction(s, ip, seller, minBid, duration))
            && (r.Ok? ==> AuctionStarted(s, r.value, token, ip, seller, minBid, duration))
            && (r.Err? ==> AuctionSays(s, ip, seller, minBid, duration, r.error))
  {
  }

  /** Whether a bid can be paid: the leader by the contract, and the bid by the bidder, who may be the leader. */
  lemma BidSettles(b: Bank, auction: Auction, bidder: Address, amount: I128)
    requires bidder.Account? && amount > 0 && LeaderOk(auction)
    ensures var r := Settle(b, auction.token, BidMoves(auction, bidder, amount));
            var has := Bal(b, auction.token, bidder) + Share(auction.highestBidder == Some(bidder), auction.highestBid);
            if auction.highestBidder.Some? && Bal(b, auction.token, Contract) < auction.highestBid
            then r == Err(InsufficientBalance(Contract))
            else if has < amount then r == Err(InsufficientBalance(bidder)) else r.Ok?
  {
    var t, take := auction.token, Take(bidder, amount, Done);
    match auction.highestBidder
    case None =>
      if amount <= Bal(b, t, bidder) {
        assert Settle(b, t, take) == Settle(Transfer(b, t, bidder, Contract, amount).value, t, Done);
      }
    case Some(leader) =>
      if auction.highestBid <= Bal(b, t, Contract) {
        var next := Transfer(b, t, Contract, leader, auction.highestBid).value;
        TransferBalances(b, t, Contract, leader, auction.highestBid, t, bidder);
        assert Settle(b, t, BidMoves(auction, bidder, amount)) == Settle(next, t, take);
        if amount <= Bal(next, t, bidder) {
          assert Settle(next, t, take) == Settle(Transfer(next, t, bidder, Contract, amount).value, t, Done);
        }
      }
  }

  lemma BidAdmits(s: State, id: AuctionId, bidder: Address, amount: I128)
    requires id in s.house.auctions ==> s.house.auctions[id].minBid > 0 && LeaderOk(s.house.auctions[id])
    ensures var r := SwapSpec.PlaceBid(s, id, bidder, amount);
            && (r.Ok? <==> MayBid(s, id, bidder, amount) && r != Err(InsufficientBalance(Contract)))
            && (r.Err? ==> BidSays(s, id, bidder, amount, r.error))
  {
    if id in s.house.auctions && bidder.Account? && amount > 0 {
      BidSettles(s.bank, s.house.auctions[id], bidder, amount);
    }
  }

  lemma BidLeaves(s: State, id: AuctionId, bidder: Address, amount: I128)
    requires HouseOk(s.house) && SwapSpec.PlaceBid(s, id, bidder, amount).Ok?
    ensures BidTaken(s, SwapSpec.PlaceBid(s, id, bidder, amount).value, id, bidder, amount)
  {
    var auction := s.house.auctions[id];
    forall t: Token, a: Address | a.Account?
      ensures Funds(SwapSpec.PlaceBid(s, id, bidder, amount).value, t, a)
        == Funds(s, t, a) + Share(t == auction.token && auction.highestBidder == Some(a), auction.highestBid)
           - Share(t == auction.token && a == bidder, amount)
    {
      BidFlow(s, id, bidder, amount, t, a);
    }
  }

  lemma FinalizeAdmits(s: State, id: AuctionId)
    ensures var r := SwapSpec.FinalizeAuction(s, id);
            (r.Ok? <==> MayFinalize(s, id)) && (r.Err? ==> FinalizeSays(s, id, r.error))
  {
  }

  lemma FinalizeLeaves(s: State, id: AuctionId)
    requires Numbered(s) && SwapSpec.FinalizeAuction(s, id).Ok?
    ensures AuctionClosed(s, SwapSpec.FinalizeAuction(s, id).value, id)
  {
    var auction := s.house.auctions[id];
    if auction.highestBidder.Some? {
      var closed := CloseAuction(s, id, auction);
      var record := WonSwap(s, auction, auction.highestBidder.value);
      EnrollBooks(closed, record, false, true);
      EnrollLocks(closed, record, true);
      EnrollLists(closed, record, false, true);
      EnrollListsIp(closed, record, false);
    }
  }

  // ── All openings and auctions ────────────────────────────────────────────

  predicate AboutOffers(op: Op) {
    OpensOne(op) || OpensMany(op) || AboutAuctions(op)
  }

  /** The call goes through exactly when it may, unless the contract lacks the funds; it leaves exactly what the rules
      say, and is refused only with an error that is one of its own, and true. */
  ghost predicate Obeys(s: State, op: Op) {
    && (Step(s, op).Ok? <==> MayOpen(s, op) && Step(s, op) != Err(InsufficientBalance(Contract)))
    && (Step(s, op).Ok? ==> Opens(s, Step(s, op).value, op))
    && (Step(s, op).Err? ==> OpeningSays(s, op, Step(s, op).error))
  }

  lemma OneOpeningObeys(s: State, op: Op)
    requires Numbered(s) && OpensOne(op)
    ensures Obeys(s, op)
  {
    if op.Initiate? {
      InitiateAdmits(s, op.terms);
      OpenOpens(s, OfferOn(s, op.terms));
    } else if op.InitiateWithSchedule? {
      ScheduleAdmits(s, op.token, op.ip, op.seller, op.schedule, op.buyer);
      if Step(s, op).Ok? {
        ScheduleOpens(s, op.token, op.ip, op.seller, op.schedule, op.buyer);
      }
    } else if op.InitiateWithSigners? {
      SignersAdmit(s, op.token, op.ip, op.seller, op.price, op.buyer, op.required);
      if Step(s, op).Ok? {
        SignersOpen(s, op.token, op.ip, op.seller, op.price, op.buyer, op.required);
      }
    } else {
      EscrowAdmits(s, op.token, op.ip, op.seller, op.price, op.buyer, op.timeout);
      EscrowOpens(s, op.token, op.ip, op.seller, op.price, op.buyer, op.timeout, false);
    }
  }

  lemma ManyOpeningsObey(s: State, op: Op)
    requires Numbered(s) && OpensMany(op)
    ensures Obeys(s, op)
  {
    if op.BatchInitiate? {
      BatchAdmits(s, op.batch, op.ips, op.prices);
      if Step(s, op).Ok? {
        CheckingOpens(s, op.batch, op.ips, op.prices, false);
      } else {
        BatchRefused(s, op.batch, op.ips, op.prices);
      }
    } else if op.BatchInitiateWithInsurance? {
      InsuredAdmits(s, op.batch, op.ips, op.prices, op.insured);
      if Step(s, op).Ok? {
        CheckingOpens(s, op.batch, op.ips, op.prices, op.insured);
      } else {
        InsuredRefused(s, op.batch, op.ips, op.prices, op.insured);
      }
    } else {
      EscrowBatchAdmits(s, op.token, op.ips, op.seller, op.prices, op.buyer, op.timeouts);
      if Step(s, op).Ok? {
        EscrowsOpen(s, op.token, op.seller, op.buyer, op.ips, op.prices, op.timeouts);
      } else {
        EscrowBatchRefused(s, op.token, op.ips, op.seller, op.prices, op.buyer, op.timeouts);
      }
    }
  }

  lemma AuctionObeys(s: State, op: Op)
    requires Numbered(s) && HouseOk(s.house) && AboutAuctions(op)
    ensures Obeys(s, op)
  {
    if op.StartAuction? {
      StartObeys(s, op.token, op.ip, op.seller, op.minBid, op.duration);
    } else if op.PlaceBid? {
      BidAdmits(s, op.auction, op.bidder, op.amount);
      if Step(s, op).Ok? {
        BidLeaves(s, op.auction, op.bidder, op.amount);
      }
    } else {
      FinalizeAdmits(s, op.auction);
      if Step(s, op).Ok? {
        FinalizeLeaves(s, op.auction);
      }
    }
  }

  /** Along every run from a new contract the next such call obeys the rules, */
  lemma RunObeys(s: State, ops: seq<Op>, op: Op)
    requires Genesis(s) && AboutOffers(op)
    ensures Obeys(Run(s, ops), op)
  {
    GenesisOk(s);
    RunInv(s, ops);
    AuctionConserves(s, ops, 0, 0, TREASURY);
    if OpensOne(op) {
      OneOpeningObeys(Run(s, ops), op);
    } else if OpensMany(op) {
      ManyOpeningsObey(Run(s, ops), op);
    } else {
      AuctionObeys(Run(s, ops), op);
    }
  }

  /** and if the calls before were backed, it goes through exactly when it may. */
  lemma RunOpensExactly(s: State, ops: seq<Op>, op: Op)
    requires Genesis(s) && BackedRun(s, ops) && AboutOffers(op)
    ensures Step(Run(s, ops), op).Ok? <==> MayOpen(Run(s, ops), op)
  {
    RunObeys(s, ops, op);
    NeverShort(s, ops, op);
  }
}

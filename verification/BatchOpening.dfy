/** The two ways of opening swaps in a batch: checking everything first, or each item in turn. */
module BatchOpening {
  import opened Common
  import opened SwapState
  import opened SwapSpec

  /** After one item is opened, the checks of the others pass as before, except on the IP just locked. */
  lemma {:induction false} OpeningLocksOneIp(
      s: State, rec: SwapRecord, seller: Address, ips: seq<IpId>, prices: seq<I128>)
    requires |ips| == |prices|
    ensures ValidateOffers(Open(s, rec), seller, ips, prices).Pass?
      <==> ValidateOffers(s, seller, ips, prices).Pass? && rec.ip !in ips
  {
    if ips == [] {
    } else {
      assert RequireOffer(Open(s, rec), ips[0], seller, prices[0]).Pass?
        <==> RequireOffer(s, ips[0], seller, prices[0]).Pass? && rec.ip != ips[0];
      OpeningLocksOneIp(s, rec, seller, ips[1..], prices[1..]);
      assert rec.ip in ips <==> rec.ip == ips[0] || rec.ip in ips[1..];
    }
  }

  /** Checking all items and then writing them is checking and writing them in turn. */
  lemma {:induction false} TwoPassesAreOne(s: State, b: BatchTerms, ips: seq<IpId>, prices: seq<I128>)
    requires |ips| == |prices|
    ensures ValidateOffers(s, b.seller, ips, prices).Pass? <==> OpenChecking(s, b, ips, prices, false).Ok?
    ensures OpenChecking(s, b, ips, prices, false).Ok? ==>
      OpenChecking(s, b, ips, prices, false).value == OpenAll(s, b, ips, prices)
    decreases |ips|
  {
    if ips != [] && RequireOffer(s, ips[0], b.seller, prices[0]).Pass? {
      var rec := RecordOf(s, ItemTerms(b, ips[0], prices[0], false), 0);
      OpeningLocksOneIp(s, rec, b.seller, ips[1..], prices[1..]);
      TwoPassesAreOne(Open(s, rec), b, ips[1..], prices[1..]);
    }
  }

  /** On equally long lists of 1 to 50 items the two entry points accept the same inputs and
      leave the same state. */
  lemma BatchInitiateAgrees(s: State, b: BatchTerms, ips: seq<IpId>, prices: seq<I128>)
    requires 1 <= |ips| == |prices| <= MAX_BATCH_SIZE
    ensures BatchInitiate(s, b, ips, prices).Ok? <==> BatchInitiateWithInsurance(s, b, ips, prices, false).Ok?
    ensures BatchInitiate(s, b, ips, prices).Ok? ==>
      BatchInitiate(s, b, ips, prices) == BatchInitiateWithInsurance(s, b, ips, prices, false)
  {
    TwoPassesAreOne(s, b, ips, prices);
  }

  /** The record of one item. */
  function ItemRecord(s: State, b: BatchTerms, ip: IpId, price: I128): SwapRecord {
    RecordOf(s, ItemTerms(b, ip, price, false), 0)
  }

  /** A stored swap that holds the lock of its IP. */
  predicate OpenedAs(s: State, id: SwapId, rec: SwapRecord) {
    id in s.swaps && s.swaps[id] == rec && rec.ip in s.active && s.active[rec.ip] == id
  }

  /** A batch disturbs no earlier swap, and no lock but those of its own IPs. */
  lemma {:induction false} BatchKeepsOthers(
      s: State, b: BatchTerms, ips: seq<IpId>, prices: seq<I128>, id: SwapId, rec: SwapRecord)
    requires |ips| == |prices|
    requires OpenedAs(s, id, rec) && id < s.nextId && rec.ip !in ips
    ensures OpenedAs(OpenAll(s, b, ips, prices), id, rec)
    decreases |ips|
  {
    if ips == [] {
    } else {
      var next := Open(s, ItemRecord(s, b, ips[0], prices[0]));
      assert OpenedAs(next, id, rec);
      BatchKeepsOthers(next, b, ips[1..], prices[1..], id, rec);
    }
  }

  /** Item `i` of a batch becomes the swap with the `i`-th new id, holding the lock of its own IP. */
  lemma {:induction false} BatchOpensInOrder(s: State, b: BatchTerms, ips: seq<IpId>, prices: seq<I128>, i: nat)
    requires |ips| == |prices| && Distinct(ips) && i < |ips|
    ensures OpenedAs(OpenAll(s, b, ips, prices), s.nextId + i, ItemRecord(s, b, ips[i], prices[i]))
    decreases |ips|
  {
    var rec := ItemRecord(s, b, ips[0], prices[0]);
    var next := Open(s, rec);
    if i == 0 {
      assert OpenedAs(next, s.nextId, rec);
      BatchKeepsOthers(next, b, ips[1..], prices[1..], s.nextId, rec);
    } else {
      BatchOpensInOrder(next, b, ips[1..], prices[1..], i - 1);
      assert ItemRecord(next, b, ips[i], prices[i]) == ItemRecord(s, b, ips[i], prices[i]);
    }
  }

  /** The ids given out, in order. */
  function Ids(first: SwapId, n: nat): seq<SwapId>
    decreases n
  {
    if n == 0 then [] else [first] + Ids(first + 1, n - 1)
  }

  /** A list that has gained the `n` ids from `first` on. */
  predicate Gained(before: seq<SwapId>, after: seq<SwapId>, first: SwapId, n: nat) {
    after == before + Ids(first, n)
  }

  lemma GainedNothing(list: seq<SwapId>, first: SwapId)
    ensures Gained(list, list, first, 0)
  {
  }

  lemma GainedOneMore(before: seq<SwapId>, after: seq<SwapId>, first: SwapId, n: nat)
    requires Gained(before + [first], after, first + 1, n)
    ensures Gained(before, after, first, n + 1)
  {
    assert Ids(first, n + 1) == [first] + Ids(first + 1, n);
  }

  function ListOf(lists: map<Address, seq<SwapId>>, a: Address): seq<SwapId> {
    Lookup(lists, a, [])
  }

  lemma OpeningLists(s: State, rec: SwapRecord)
    ensures Open(s, rec).nextId == s.nextId + 1
    ensures ListOf(Open(s, rec).index.bySeller, rec.seller) == ListOf(s.index.bySeller, rec.seller) + [s.nextId]
    ensures ListOf(Open(s, rec).index.byBuyer, rec.buyer) == ListOf(s.index.byBuyer, rec.buyer) + [s.nextId]
  {
  }

  lemma OpenAllStep(s: State, b: BatchTerms, ips: seq<IpId>, prices: seq<I128>) returns (next: State)
    requires |ips| == |prices| && ips != []
    ensures OpenAll(s, b, ips, prices) == OpenAll(next, b, ips[1..], prices[1..])
    ensures next.nextId == s.nextId + 1
    ensures ListOf(next.index.bySeller, b.seller) == ListOf(s.index.bySeller, b.seller) + [s.nextId]
    ensures ListOf(next.index.byBuyer, b.buyer) == ListOf(s.index.byBuyer, b.buyer) + [s.nextId]
  {
    var rec := ItemRecord(s, b, ips[0], prices[0]);
    next := Open(s, rec);
    OpeningLists(s, rec);
  }

  /** What a batch does to the next id and to the lists of both parties. */
  predicate ListsGained(s: State, end: State, b: BatchTerms, n: nat) {
    && end.nextId == s.nextId + n
    && Gained(ListOf(s.index.bySeller, b.seller), ListOf(end.index.bySeller, b.seller), s.nextId, n)
    && Gained(ListOf(s.index.byBuyer, b.buyer), ListOf(end.index.byBuyer, b.buyer), s.nextId, n)
  }

  lemma ListsGainedOneMore(s: State, next: State, end: State, b: BatchTerms, n: nat)
    requires next.nextId == s.nextId + 1
    requires ListOf(next.index.bySeller, b.seller) == ListOf(s.index.bySeller, b.seller) + [s.nextId]
    requires ListOf(next.index.byBuyer, b.buyer) == ListOf(s.index.byBuyer, b.buyer) + [s.nextId]
    requires ListsGained(next, end, b, n)
    ensures ListsGained(s, end, b, n + 1)
  {
    GainedOneMore(ListOf(s.index.bySeller, b.seller), ListOf(end.index.bySeller, b.seller), s.nextId, n);
    GainedOneMore(ListOf(s.index.byBuyer, b.buyer), ListOf(end.index.byBuyer, b.buyer), s.nextId, n);
  }

  lemma {:induction false} BatchGains(s: State, b: BatchTerms, ips: seq<IpId>, prices: seq<I128>, end: State)
    requires |ips| == |prices| && end == OpenAll(s, b, ips, prices)
    ensures ListsGained(s, end, b, |ips|)
    decreases |ips|
  {
    if ips == [] {
      GainedNothing(ListOf(s.index.bySeller, b.seller), s.nextId);
      GainedNothing(ListOf(s.index.byBuyer, b.buyer), s.nextId);
    } else {
      var next := OpenAllStep(s, b, ips, prices);
      BatchGains(next, b, ips[1..], prices[1..], end);
      ListsGainedOneMore(s, next, end, b, |ips| - 1);
    }
  }

  /** A batch hands out the next ids, and both parties' lists grow by exactly these, in order. */
  lemma BatchListsBothParties(s: State, b: BatchTerms, ips: seq<IpId>, prices: seq<I128>)
    requires |ips| == |prices|
    ensures OpenAll(s, b, ips, prices).nextId == s.nextId + |ips|
    ensures ListOf(OpenAll(s, b, ips, prices).index.bySeller, b.seller)
      == ListOf(s.index.bySeller, b.seller) + Ids(s.nextId, |ips|)
    ensures ListOf(OpenAll(s, b, ips, prices).index.byBuyer, b.buyer)
      == ListOf(s.index.byBuyer, b.buyer) + Ids(s.nextId, |ips|)
  {
    BatchGains(s, b, ips, prices, OpenAll(s, b, ips, prices));
  }
}

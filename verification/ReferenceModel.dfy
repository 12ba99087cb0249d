/** The plain reference implementation of both contracts, as the differential tests use it. Exceptions are errors;
    there is no clock, no money and no authorization. */
module ReferenceModel {
  import opened Common
  import R = RegistryState
  import S = SwapState

  datatype IpRecord = IpRecord(owner: Address, hash: R.Hash, timestamp: nat, revoked: bool)

  datatype IpRegistry = IpRegistry(
    records: map<nat, IpRecord>, ownerIndex: map<Address, seq<nat>>, commitmentIndex: map<R.Hash, Address>, nextId: nat)

  datatype SwapRecord = SwapRecord(ip: nat, seller: Address, buyer: Address, price: int, status: S.Status)

  datatype Swaps = Swaps(swaps: map<nat, SwapRecord>, active: map<nat, nat>, nextId: nat)

  datatype World = World(registry: IpRegistry, book: Swaps)

  // ── The registry ─────────────────────────────────────────────────────────

  function CommitIp(r: IpRegistry, owner: Address, hash: R.Hash, timestamp: nat): Result<IpRegistry> {
    if hash == R.ZERO_HASH then Err(ZeroCommitmentHash)
    else if hash in r.commitmentIndex then Err(CommitmentAlreadyRegistered)
    else Ok(IpRegistry(r.records[r.nextId := IpRecord(owner, hash, timestamp, false)],
                       Push(r.ownerIndex, owner, r.nextId), r.commitmentIndex[hash := owner], r.nextId + 1))
  }

  function RevokeIp(r: IpRegistry, id: nat): Result<IpRegistry> {
    if id !in r.records then Err(IpNotFound)
    else if r.records[id].revoked then Err(IpAlreadyRevoked)
    else Ok(r.(records := r.records[id := r.records[id].(revoked := true)]))
  }

  /** `presented` is the hash of the secret and blinding factor. */
  function VerifyCommitment(r: IpRegistry, id: nat, presented: R.Hash): Result<bool> {
    if id !in r.records then Err(IpNotFound) else Ok(presented == r.records[id].hash)
  }

  // ── The swaps ────────────────────────────────────────────────────────────

  function InitiateSwap(w: World, ip: nat, seller: Address, price: int, buyer: Address): Result<Swaps> {
    if price <= 0 then Err(PriceTooSmall)
    else if ip !in w.registry.records then Err(IpNotFound)
    else if w.registry.records[ip].owner != seller then Err(NotIPOwner)
    else if w.registry.records[ip].revoked then Err(IpRevoked)
    else if ip in w.book.active then Err(SwapExists)
    else Ok(Swaps(w.book.swaps[w.book.nextId := SwapRecord(ip, seller, buyer, price, S.Pending)],
                  w.book.active[ip := w.book.nextId], w.book.nextId + 1))
  }

  function SetStatus(b: Swaps, id: nat, status: S.Status): Swaps
    requires id in b.swaps
  {
    b.(swaps := b.swaps[id := b.swaps[id].(status := status)])
  }

  function AcceptSwap(w: World, id: nat): Result<Swaps> {
    if id !in w.book.swaps then Err(SwapNotFound)
    else if w.book.swaps[id].status != S.Pending then Err(NotPending)
    else Ok(SetStatus(w.book, id, S.Accepted))
  }

  /** Deleting a lock that is not there is an error too. */
  function RevealKey(w: World, id: nat, caller: Address, presented: R.Hash): Result<Swaps> {
    if id !in w.book.swaps then Err(SwapNotFound) else
    var swap := w.book.swaps[id];
    if swap.status != S.Accepted then Err(NotAccepted) else
    if caller != swap.seller then Err(OnlySellerReveal) else
    var valid :- VerifyCommitment(w.registry, swap.ip, presented);
    if !valid then Err(InvalidKey) else
    if swap.ip !in w.book.active then Err(Trap) else
    Ok(SetStatus(w.book, id, S.Completed).(active := w.book.active - {swap.ip}))
  }

  function CancelSwap(w: World, id: nat, caller: Address): Result<Swaps> {
    if id !in w.book.swaps then Err(SwapNotFound) else
    var swap := w.book.swaps[id];
    if caller != swap.seller && caller != swap.buyer then Err(OnlySellerBuyer) else
    if swap.status != S.Pending && swap.status != S.Accepted then Err(OnlyPending) else
    Ok(SetStatus(w.book, id, S.Cancelled).(active := w.book.active - {swap.ip}))
  }

  // ── The classes ──────────────────────────────────────────────────────────

  class Registry {
    var records: map<nat, IpRecord>
    var ownerIndex: map<Address, seq<nat>>
    var commitmentIndex: map<R.Hash, Address>
    var nextId: nat

    function View(): IpRegistry
      reads this
    {
      IpRegistry(records, ownerIndex, commitmentIndex, nextId)
    }

    constructor ()
      ensures View() == IpRegistry(map[], map[], map[], 1)
    {
      records, ownerIndex, commitmentIndex, nextId := map[], map[], map[], 1;
    }

    method Commit(owner: Address, hash: R.Hash, timestamp: nat) returns (r: Result<nat>)
      modifies this
      ensures match CommitIp(old(View()), owner, hash, timestamp)
              case Ok(next) => r == Ok(old(nextId)) && View() == next
              case Err(error) => r == Err(error) && View() == old(View())
    {
      if hash == R.ZERO_HASH {
        return Err(ZeroCommitmentHash);
      }
      if hash in commitmentIndex {
        return Err(CommitmentAlreadyRegistered);
      }
      var id := nextId;
      nextId := nextId + 1;
      records := records[id := IpRecord(owner, hash, timestamp, false)];
      commitmentIndex := commitmentIndex[hash := owner];
      var ids := Lookup(ownerIndex, owner, []);
      ownerIndex := ownerIndex[owner := ids + [id]];
      return Ok(id);
    }

    method Revoke(id: nat) returns (r: Result<()>)
      modifies this
      ensures match RevokeIp(old(View()), id)
              case Ok(next) => r.Ok? && View() == next
              case Err(error) => r == Err(error) && View() == old(View())
    {
      if id !in records {
        return Err(IpNotFound);
      }
      var record := records[id];
      if record.revoked {
        return Err(IpAlreadyRevoked);
      }
      records := records[id := record.(revoked := true)];
      return Ok(());
    }
  }

  class AtomicSwap {
    const registry: Registry
    var swaps: map<nat, SwapRecord>
    var active: map<nat, nat>
    var nextId: nat

    function View(): World
      reads this, registry
    {
      World(registry.View(), Swaps(swaps, active, nextId))
    }

    constructor (r: Registry)
      ensures registry == r && View() == World(r.View(), Swaps(map[], map[], 0))
    {
      registry, swaps, active, nextId := r, map[], map[], 0;
    }

    method Initiate(ip: nat, seller: Address, price: int, buyer: Address) returns (r: Result<nat>)
      modifies this
      ensures match InitiateSwap(old(View()), ip, seller, price, buyer)
              case Ok(next) => r == Ok(old(nextId)) && View() == old(View()).(book := next)
              case Err(error) => r == Err(error) && View() == old(View())
    {
      if price <= 0 {
        return Err(PriceTooSmall);
      }
      if ip !in registry.records {
        return Err(IpNotFound);
      }
      var record := registry.records[ip];
      if record.owner != seller {
        return Err(NotIPOwner);
      }
      if record.revoked {
        return Err(IpRevoked);
      }
      if ip in active {
        return Err(SwapExists);
      }
      var id := nextId;
      nextId := nextId + 1;
      swaps := swaps[id := SwapRecord(ip, seller, buyer, price, S.Pending)];
      active := active[ip := id];
      return Ok(id);
    }

    method Accept(id: nat) returns (r: Result<()>)
      modifies this
      ensures match AcceptSwap(old(View()), id)
              case Ok(next) => r.Ok? && View() == old(View()).(book := next)
              case Err(error) => r == Err(error) && View() == old(View())
    {
      if id !in swaps {
        return Err(SwapNotFound);
      }
      if swaps[id].status != S.Pending {
        return Err(NotPending);
      }
      swaps := swaps[id := swaps[id].(status := S.Accepted)];
      return Ok(());
    }

    /** The status is written before the lock is deleted, so a missing lock leaves the status behind. */
    method Reveal(id: nat, caller: Address, presented: R.Hash) returns (r: Result<()>)
      modifies this
      ensures match RevealKey(old(View()), id, caller, presented)
              case Ok(next) => r.Ok? && View() == old(View()).(book := next)
              case Err(error) => r == Err(error) && (error != Trap ==> View() == old(View()))
    {
      if id !in swaps {
        return Err(SwapNotFound);
      }
      var swap := swaps[id];
      if swap.status != S.Accepted {
        return Err(NotAccepted);
      }
      if caller != swap.seller {
        return Err(OnlySellerReveal);
      }
      if swap.ip !in registry.records {
        return Err(IpNotFound);
      }
      if presented != registry.records[swap.ip].hash {
        return Err(InvalidKey);
      }
      swaps := swaps[id := swap.(status := S.Completed)];
      if swap.ip !in active {
        return Err(Trap);
      }
      active := active - {swap.ip};
      return Ok(());
    }

    method Cancel(id: nat, caller: Address) returns (r: Result<()>)
      modifies this
      ensures match CancelSwap(old(View()), id, caller)
              case Ok(next) => r.Ok? && View() == old(View()).(book := next)
              case Err(error) => r == Err(error) && View() == old(View())
    {
      if id !in swaps {
        return Err(SwapNotFound);
      }
      var swap := swaps[id];
      if caller != swap.seller && caller != swap.buyer {
        return Err(OnlySellerBuyer);
      }
      if swap.status != S.Pending && swap.status != S.Accepted {
        return Err(OnlyPending);
      }
      swaps := swaps[id := swap.(status := S.Cancelled)];
      active := active - {swap.ip};
      return Ok(());
    }
  }
}

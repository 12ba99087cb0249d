/** The two contracts together are simulated by the reference implementation. */
module ReferenceSimulation {
  import opened Common
  import R = RegistryState
  import Registry = RegistrySpec
  import S = SwapState
  import Swap = SwapSpec
  import Claims = SwapClaims
  import Acts = SwapActs
  import Batches = SwapBatches
  import Openings = SwapOpenings
  import Theorems = SwapTheorems
  import RegistryRuns
  import Reference = ReferenceModel

  /** Both contracts. The swap contract sees the registry's records; `code` is how it sees a hash. */
  datatype System = System(registry: R.State, swap: S.State)

  datatype Op =
    | Wait(now: nat, bank: S.Bank)
    | Commit(owner: Address, hash: R.Hash)
    | Revoke(ip: nat)
    | Initiate(terms: Swap.Terms)
    | Accept(id: nat)
    | Reveal(id: nat, caller: Address, presented: R.Hash)
    | Cancel(id: nat, caller: Address)
    | CancelExpired(id: nat, caller: Address)
    | CancelPending(id: nat, caller: Address)

  function Seen(code: R.Hash -> S.Digest, records: map<nat, R.IpRecord>): map<nat, S.IpView> {
    map ip | ip in records :: S.IpView(records[ip].owner, records[ip].revoked, code(records[ip].hash))
  }

  function SwapStep(code: R.Hash -> S.Digest, s: S.State, op: Op): Result<S.State> {
    match op
    case Wait(now, bank) => Ok(s.(now := now, bank := bank))
    case Initiate(terms) => Swap.InitiateSwap(s, terms)
    case Accept(id) => Swap.Do(s, id, Swap.AcceptPlan(s, id))
    case Reveal(id, caller, presented) => Swap.Do(s, id, Swap.RevealPlan(s, id, caller, code(presented)))
    case Cancel(id, caller) => Swap.Do(s, id, Swap.CancelPlan(s, id, caller))
    case CancelExpired(id, caller) => Swap.Do(s, id, Swap.CancelExpiredPlan(s, id, caller))
    case CancelPending(id, caller) => Swap.Do(s, id, Swap.CancelPendingPlan(s, id, caller))
    case _ => Ok(s)
  }

  function RegistryStep(r: R.State, op: Op): Result<R.State> {
    match op
    case Wait(now, _) => Ok(r.(now := now))
    case Commit(owner, hash) => Registry.CommitIp(r, owner, hash, 0)
    case Revoke(ip) => Registry.RevokeIp(r, ip)
    case _ => Ok(r)
  }

  /** One call on either contract. The swap contract sees at once what changes in the registry. */
  function Step(code: R.Hash -> S.Digest, y: System, op: Op): Result<System> {
    var registry :- RegistryStep(y.registry, op);
    var swap :- SwapStep(code, y.swap, op);
    Ok(System(registry, swap.(world := swap.world.(ips := Seen(code, registry.records)))))
  }

  // ── The reference's view ─────────────────────────────────────────────────

  function RefRecord(r: R.IpRecord): Reference.IpRecord {
    Reference.IpRecord(r.owner, r.hash, r.timestamp, r.revoked)
  }

  function RefRegistry(r: R.State): Reference.IpRegistry {
    Reference.IpRegistry(map ip | ip in r.records :: RefRecord(r.records[ip]), r.ownerIps, r.commitmentOwner, r.nextId)
  }

  function RefSwap(s: S.SwapRecord): Reference.SwapRecord {
    Reference.SwapRecord(s.ip, s.seller, s.buyer, s.price, s.status)
  }

  function RefBook(s: S.State): Reference.Swaps {
    Reference.Swaps(map id | id in s.swaps :: RefSwap(s.swaps[id]), s.active, s.nextId)
  }

  function Ref(y: System): Reference.World {
    Reference.World(RefRegistry(y.registry), RefBook(y.swap))
  }

  /** The reference's answer to the same operation. Cancelling is one operation for it. */
  function RefStep(w: Reference.World, now: nat, op: Op): Result<Reference.World> {
    match op
    case Wait(_, _) => Ok(w)
    case Commit(owner, hash) => var r :- Reference.CommitIp(w.registry, owner, hash, now); Ok(w.(registry := r))
    case Revoke(ip) => var r :- Reference.RevokeIp(w.registry, ip); Ok(w.(registry := r))
    case Initiate(t) => var b :- Reference.InitiateSwap(w, t.ip, t.seller, t.price, t.buyer); Ok(w.(book := b))
    case Accept(id) => var b :- Reference.AcceptSwap(w, id); Ok(w.(book := b))
    case Reveal(id, caller, presented) => var b :- Reference.RevealKey(w, id, caller, presented); Ok(w.(book := b))
    case Cancel(id, caller) => var b :- Reference.CancelSwap(w, id, caller); Ok(w.(book := b))
    case CancelExpired(id, caller) => var b :- Reference.CancelSwap(w, id, caller); Ok(w.(book := b))
    case CancelPending(id, caller) => var b :- Reference.CancelSwap(w, id, caller); Ok(w.(book := b))
  }

  // ── The registry's steps ─────────────────────────────────────────────────

  lemma CommitSimulated(r: R.State, owner: Address, hash: R.Hash)
    requires Registry.CommitIp(r, owner, hash, 0).Ok?
    ensures Reference.CommitIp(RefRegistry(r), owner, hash, r.now)
      == Ok(RefRegistry(Registry.CommitIp(r, owner, hash, 0).value))
  {
    var r' := Registry.CommitIp(r, owner, hash, 0).value;
    assert RefRegistry(r').records == RefRegistry(r).records[r.nextId := RefRecord(r'.records[r.nextId])];
  }

  lemma RevokeSimulated(r: R.State, ip: nat)
    requires Registry.RevokeIp(r, ip).Ok?
    ensures Reference.RevokeIp(RefRegistry(r), ip) == Ok(RefRegistry(Registry.RevokeIp(r, ip).value))
  {
    var r' := Registry.RevokeIp(r, ip).value;
    assert RefRegistry(r').records == RefRegistry(r).records[ip := RefRecord(r'.records[ip])];
  }

  // ── The swap contract's steps ────────────────────────────────────────────

  /** A change of one swap, in the reference's eyes. */
  lemma RefApply(s: S.State, id: nat, c: Swap.Change)
    requires Swap.Apply(s, id, c).Ok?
    ensures RefBook(Swap.Apply(s, id, c).value)
      == Reference.Swaps(RefBook(s).swaps[id := RefSwap(c.swap)],
                         if c.unlock then s.active - {c.swap.ip} else s.active, s.nextId)
  {
  }

  ghost predicate Linked(code: R.Hash -> S.Digest, y: System) {
    && y.swap.world.ips == Seen(code, y.registry.records) && y.swap.now == y.registry.now
    && Claims.Inv(y.swap) && Claims.Locked(y.swap)
  }

  ghost predicate Injective(code: R.Hash -> S.Digest) {
    forall a, b :: code(a) == code(b) ==> a == b
  }

  lemma InitiateSimulated(code: R.Hash -> S.Digest, y: System, t: Swap.Terms)
    requires y.swap.world.ips == Seen(code, y.registry.records) && Swap.InitiateSwap(y.swap, t).Ok?
    ensures Reference.InitiateSwap(Ref(y), t.ip, t.seller, t.price, t.buyer)
      == Ok(RefBook(Swap.InitiateSwap(y.swap, t).value))
  {
    var s' := Swap.InitiateSwap(y.swap, t).value;
    assert RefBook(s').swaps == RefBook(y.swap).swaps[y.swap.nextId := RefSwap(s'.swaps[y.swap.nextId])];
  }

  lemma AcceptSimulated(y: System, id: nat)
    requires Swap.Do(y.swap, id, Swap.AcceptPlan(y.swap, id)).Ok?
    ensures Reference.AcceptSwap(Ref(y), id) == Ok(RefBook(Swap.Do(y.swap, id, Swap.AcceptPlan(y.swap, id)).value))
  {
    RefApply(y.swap, id, Swap.AcceptPlan(y.swap, id).value);
  }

  lemma RevealSimulated(code: R.Hash -> S.Digest, y: System, id: nat, caller: Address, presented: R.Hash)
    requires Linked(code, y) && Injective(code)
    requires Swap.Do(y.swap, id, Swap.RevealPlan(y.swap, id, caller, code(presented))).Ok?
    ensures Reference.RevealKey(Ref(y), id, caller, presented)
      == Ok(RefBook(Swap.Do(y.swap, id, Swap.RevealPlan(y.swap, id, caller, code(presented))).value))
  {
    RefApply(y.swap, id, Swap.RevealPlan(y.swap, id, caller, code(presented)).value);
    assert Claims.Holding(y.swap, id);
  }

  lemma CancelsSimulated(y: System, id: nat, caller: Address)
    ensures Swap.Do(y.swap, id, Swap.CancelPlan(y.swap, id, caller)).Ok? ==>
      Reference.CancelSwap(Ref(y), id, caller)
        == Ok(RefBook(Swap.Do(y.swap, id, Swap.CancelPlan(y.swap, id, caller)).value))
    ensures Swap.Do(y.swap, id, Swap.CancelPendingPlan(y.swap, id, caller)).Ok? ==>
      Reference.CancelSwap(Ref(y), id, caller)
        == Ok(RefBook(Swap.Do(y.swap, id, Swap.CancelPendingPlan(y.swap, id, caller)).value))
  {
    if Swap.Do(y.swap, id, Swap.CancelPlan(y.swap, id, caller)).Ok? {
      RefApply(y.swap, id, Swap.CancelPlan(y.swap, id, caller).value);
    }
    if Swap.Do(y.swap, id, Swap.CancelPendingPlan(y.swap, id, caller)).Ok? {
      RefApply(y.swap, id, Swap.CancelPendingPlan(y.swap, id, caller).value);
    }
  }

  lemma CancelExpiredSimulated(y: System, id: nat, caller: Address)
    requires Swap.Do(y.swap, id, Swap.CancelExpiredPlan(y.swap, id, caller)).Ok?
    ensures Reference.CancelSwap(Ref(y), id, caller)
      == Ok(RefBook(Swap.Do(y.swap, id, Swap.CancelExpiredPlan(y.swap, id, caller)).value))
  {
    RefApply(y.swap, id, Swap.CancelExpiredPlan(y.swap, id, caller).value);
  }

  /** A change of one swap that keeps the books leaves time and the view of the registry alone. */
  lemma DoKept(s: S.State, id: nat, plan: Result<Swap.Change>)
    requires Claims.Inv(s) && Claims.Locked(s) && Acts.Sound(s, id, plan) && Swap.Do(s, id, plan).Ok?
    ensures Claims.Inv(Swap.Do(s, id, plan).value) && Claims.Locked(Swap.Do(s, id, plan).value)
    ensures Swap.Do(s, id, plan).value.world == s.world && Swap.Do(s, id, plan).value.now == s.now
  {
    Batches.DoSafe(s, id, plan);
  }

  lemma SwapStepKept(code: R.Hash -> S.Digest, s: S.State, op: Op)
    requires Claims.Inv(s) && Claims.Locked(s) && SwapStep(code, s, op).Ok? && (op.Wait? ==> s.now <= op.now)
    ensures Claims.Inv(SwapStep(code, s, op).value) && Claims.Locked(SwapStep(code, s, op).value)
    ensures SwapStep(code, s, op).value.now == if op.Wait? then op.now else s.now
  {
    match op
    case Wait(_, _) => Openings.SameBookKept(s, SwapStep(code, s, op).value);
    case Initiate(terms) => Openings.InitiateSafe(s, terms);
    case Accept(id) =>
      Batches.LocalFromInv(s, id);
      Acts.AcceptSound(s, id);
      DoKept(s, id, Swap.AcceptPlan(s, id));
    case Reveal(id, caller, presented) =>
      Batches.LocalFromInv(s, id);
      Acts.RevealSound(s, id, caller, code(presented));
      DoKept(s, id, Swap.RevealPlan(s, id, caller, code(presented)));
    case Cancel(id, caller) =>
      Batches.LocalFromInv(s, id);
      Acts.CancelSound(s, id, caller);
      DoKept(s, id, Swap.CancelPlan(s, id, caller));
    case CancelExpired(id, caller) =>
      Batches.LocalFromInv(s, id);
      Acts.CancelExpiredSound(s, id, caller);
      DoKept(s, id, Swap.CancelExpiredPlan(s, id, caller));
    case CancelPending(id, caller) =>
      Batches.LocalFromInv(s, id);
      Acts.CancelSound(s, id, caller);
      DoKept(s, id, Swap.CancelPendingPlan(s, id, caller));
    case _ =>
  }

  // ── One operation ────────────────────────────────────────────────────────

  /** The reference's book does not depend on what the contract sees of the registry. */
  lemma SameBook(code: R.Hash -> S.Digest, y: System, op: Op)
    requires Step(code, y, op).Ok?
    ensures RefBook(Step(code, y, op).value.swap) == RefBook(SwapStep(code, y.swap, op).value)
    ensures RefRegistry(Step(code, y, op).value.registry) == RefRegistry(RegistryStep(y.registry, op).value)
  {
  }

  lemma RegistryStepSimulated(y: System, op: Op)
    requires RegistryStep(y.registry, op).Ok? && (op.Wait? || op.Commit? || op.Revoke?)
    ensures RefStep(Ref(y), y.registry.now, op)
      == Ok(Ref(y).(registry := RefRegistry(RegistryStep(y.registry, op).value)))
  {
    match op
    case Wait(_, _) =>
    case Commit(owner, hash) => CommitSimulated(y.registry, owner, hash);
    case Revoke(ip) => RevokeSimulated(y.registry, ip);
  }

  lemma SwapStepSimulated(code: R.Hash -> S.Digest, y: System, op: Op)
    requires Linked(code, y) && Injective(code) && SwapStep(code, y.swap, op).Ok?
      && !op.Wait? && !op.Commit? && !op.Revoke?
    ensures RefStep(Ref(y), y.registry.now, op) == Ok(Ref(y).(book := RefBook(SwapStep(code, y.swap, op).value)))
  {
    match op
    case Initiate(terms) => InitiateSimulated(code, y, terms);
    case Accept(id) => AcceptSimulated(y, id);
    case Reveal(id, caller, presented) => RevealSimulated(code, y, id, caller, presented);
    case Cancel(id, caller) => CancelsSimulated(y, id, caller);
    case CancelExpired(id, caller) => CancelExpiredSimulated(y, id, caller);
    case CancelPending(id, caller) => CancelsSimulated(y, id, caller);
  }

  /** Whatever the contracts accept the reference accepts, with the same outcome: the same ids, records, locks and
      statuses. The contracts may refuse more. */
  lemma StepSimulated(code: R.Hash -> S.Digest, y: System, op: Op)
    requires Linked(code, y) && Injective(code) && Step(code, y, op).Ok?
    ensures RefStep(Ref(y), y.registry.now, op) == Ok(Ref(Step(code, y, op).value))
  {
    SameBook(code, y, op);
    if op.Wait? || op.Commit? || op.Revoke? {
      RegistryStepSimulated(y, op);
    } else {
      SwapStepSimulated(code, y, op);
    }
  }

  lemma StepLinked(code: R.Hash -> S.Digest, y: System, op: Op)
    requires Linked(code, y) && Step(code, y, op).Ok? && (op.Wait? ==> y.swap.now <= op.now)
    ensures Linked(code, Step(code, y, op).value)
  {
    SwapStepKept(code, y.swap, op);
    Openings.SameBookKept(SwapStep(code, y.swap, op).value, Step(code, y, op).value.swap);
  }

  // ── Runs ─────────────────────────────────────────────────────────────────

  /** A run in which every call goes through, and the clock does not go back. */
  function Run(code: R.Hash -> S.Digest, y: System, ops: seq<Op>): Result<System>
    decreases |ops|
  {
    if ops == [] then Ok(y) else
    var before :- Run(code, y, ops[..|ops| - 1]);
    if ops[|ops| - 1].Wait? && ops[|ops| - 1].now < before.swap.now then Err(Trap) else
    Step(code, before, ops[|ops| - 1])
  }

  /** The reference under the same operations, told the time at which each is made. */
  function RefRun(code: R.Hash -> S.Digest, y: System, ops: seq<Op>): Result<Reference.World>
    requires Run(code, y, ops).Ok?
    decreases |ops|
  {
    if ops == [] then Ok(Ref(y)) else
    var w :- RefRun(code, y, ops[..|ops| - 1]);
    RefStep(w, Run(code, y, ops[..|ops| - 1]).value.registry.now, ops[|ops| - 1])
  }

  /** Every run of commits, revocations, initiations, acceptances, reveals and cancellations on the contracts is a run
      of the reference, and ends in the same ids, records, locks and statuses. */
  lemma {:induction false} RunSimulated(code: R.Hash -> S.Digest, y: System, ops: seq<Op>)
    requires Linked(code, y) && Injective(code) && Run(code, y, ops).Ok?
    ensures RefRun(code, y, ops) == Ok(Ref(Run(code, y, ops).value))
    ensures Linked(code, Run(code, y, ops).value)
    decreases |ops|
  {
    if ops == [] {
    } else {
      RunSimulated(code, y, ops[..|ops| - 1]);
      StepSimulated(code, Run(code, y, ops[..|ops| - 1]).value, ops[|ops| - 1]);
      StepLinked(code, Run(code, y, ops[..|ops| - 1]).value, ops[|ops| - 1]);
    }
  }

  /** Two contracts that have not been called yet look to the reference like its own initial state. */
  lemma StartsAlike(code: R.Hash -> S.Digest, y: System)
    requires Theorems.Genesis(y.swap) && RegistryRuns.Genesis(y.registry)
    requires y.swap.now == y.registry.now && y.swap.world.ips == map[]
    ensures Linked(code, y)
    ensures Ref(y) == Reference.World(Reference.IpRegistry(map[], map[], map[], 1), Reference.Swaps(map[], map[], 0))
  {
    Theorems.GenesisOk(y.swap);
  }
}

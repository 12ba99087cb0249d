/** What every modelled entry point of the IP registry does to its storage, as a function of the state before. */
module RegistrySpec {
  import opened Common
  import opened RegistryState
  import ProofOfWork
  import Merkle

  // ── Commitments ──────────────────────────────────────────────────────────

  /** The checks every new hash has to pass. */
  function CheckHash(s: State, hash: Hash): Check {
    if hash == ZERO_HASH then Fail(ZeroCommitmentHash)
    else Need(hash !in s.commitmentOwner, CommitmentAlreadyRegistered)
  }

  /** Store a new record under the next id, and under its owner if asked to. */
  function Register(s: State, owner: Address, hash: Hash, parent: Option<IpId>, listed: bool): State {
    s.(records := s.records[s.nextId := IpRecord(owner, hash, s.now, false, [], parent)],
       ownerIps := if listed then Push(s.ownerIps, owner, s.nextId) else s.ownerIps,
       commitmentOwner := s.commitmentOwner[hash := owner],
       nextId := s.nextId + 1)
  }

  function CommitIp(s: State, owner: Address, hash: Hash, difficulty: nat): Result<State> {
    if owner.Contract? then Err(NotAuthorized) else
    :- CheckHash(s, hash);
    if !ProofOfWork.HasLeadingZeros(hash.bytes, difficulty) then Err(InsufficientPoW) else
    Ok(Register(s, owner, hash, None, true))
  }

  function CommitAll(s: State, owner: Address, hashes: seq<Hash>): (r: Result<State>)
    ensures r.Ok? ==> r.value.delegation == s.delegation && r.value.thresholds == s.thresholds
    decreases |hashes|
  {
    if hashes == [] then Ok(s) else
    :- CheckHash(s, hashes[0]);
    CommitAll(Register(s, owner, hashes[0], None, true), owner, hashes[1..])
  }

  function BatchCommit(s: State, owner: Address, hashes: seq<Hash>): Result<State> {
    if owner.Contract? then Err(NotAuthorized) else CommitAll(s, owner, hashes)
  }

  /** An anonymous record belongs to the contract, and is listed under nobody. */
  function RegisterAnonymous(s: State, blinded: Hash, hash: Hash): State {
    Register(s, Contract, hash, None, false).(anonymous := s.anonymous[hash := blinded])
  }

  function CommitAllAnonymous(s: State, blinded: Hash, hashes: seq<Hash>): (r: Result<State>)
    ensures r.Ok? ==> r.value.delegation == s.delegation && r.value.thresholds == s.thresholds
    decreases |hashes|
  {
    if hashes == [] then Ok(s) else
    :- CheckHash(s, hashes[0]);
    CommitAllAnonymous(RegisterAnonymous(s, blinded, hashes[0]), blinded, hashes[1..])
  }

  function BatchCommitAnonymous(s: State, blinded: Hash, hashes: seq<Hash>): Result<State> {
    if hashes == [] then Err(ZeroCommitmentHash) else CommitAllAnonymous(s, blinded, hashes)
  }

  function DelegatesOf(d: Delegations, a: Address): seq<DelegationRecord> {
    Lookup(d.delegates, a, [])
  }

  /** The owner's delegates are not asked: the owner has to sign, and to have delegated to somebody. */
  function CommitDelegated(s: State, owner: Address, hash: Hash, difficulty: nat): Result<State> {
    if owner.Contract? then Err(NotAuthorized) else
    if DelegatesOf(s.delegation, owner) == [] then Err(Unauthorized) else
    :- CheckHash(s, hash);
    if !ProofOfWork.HasLeadingZeros(hash.bytes, difficulty) then Err(InsufficientPoW) else
    Ok(Register(s, owner, hash, None, true))
  }

  // ── Changes to a record ──────────────────────────────────────────────────

  function TransferIp(s: State, id: IpId, newOwner: Address): Result<State> {
    if id !in s.records then Err(IpNotFound) else
    var record := s.records[id];
    if record.owner.Contract? then Err(NotAuthorized) else
    var removed := s.ownerIps[record.owner := Without(Listed(s, record.owner), id)];
    Ok(s.(ownerIps := Push(removed, newOwner, id),
          commitmentOwner := s.commitmentOwner[record.hash := newOwner],
          records := s.records[id := record.(owner := newOwner)]))
  }

  function RevokeIp(s: State, id: IpId): Result<State> {
    if id !in s.records then Err(IpNotFound) else
    var record := s.records[id];
    if record.owner.Contract? then Err(NotAuthorized) else
    if record.revoked then Err(IpAlreadyRevoked) else
    Ok(s.(records := s.records[id := record.(revoked := true)]))
  }

  /** `presented` is the hash of the secret and blinding factor that the caller presents. */
  function RotateKey(s: State, id: IpId, newHash: Hash, presented: Hash): Result<State> {
    if id !in s.records then Err(IpNotFound) else
    var record := s.records[id];
    if record.owner.Contract? then Err(NotAuthorized) else
    if record.revoked then Err(IpAlreadyRevoked) else
    if presented != record.hash then Err(Unauthorized) else
    :- CheckHash(s, newHash);
    Ok(s.(rotations := Push(s.rotations, id, record.hash),
          commitmentOwner := (s.commitmentOwner - {record.hash})[newHash := record.owner],
          records := s.records[id := record.(hash := newHash)]))
  }

  /** Make the duplicate's owner a co-owner of the primary, and revoke the duplicate. */
  function MergeDuplicate(s: State, primary: IpId, duplicate: IpId): Result<State> {
    if primary !in s.records then Err(IpNotFound) else
    var kept := s.records[primary];
    if kept.owner.Contract? then Err(NotAuthorized) else
    if duplicate !in s.records then Err(IpNotFound) else
    var gone := s.records[duplicate];
    if kept.hash != gone.hash then Err(CommitmentAlreadyRegistered) else
    var joins := gone.owner !in kept.coOwners && gone.owner != kept.owner;
    var records := if joins then s.records[primary := kept.(coOwners := kept.coOwners + [gone.owner])] else s.records;
    Ok(s.(records := records[duplicate := gone.(revoked := true)]))
  }

  // ── Versions ─────────────────────────────────────────────────────────────

  /** The end of the walk from parent to parent. */
  function RootOf(records: map<IpId, IpRecord>, id: IpId): IpId
    decreases id
  {
    if id in records && records[id].parent.Some? && records[id].parent.value < id
    then RootOf(records, records[id].parent.value)
    else id
  }

  function CreateVersion(s: State, parent: IpId, hash: Hash): Result<State> {
    if parent !in s.records then Err(IpNotFound) else
    var owner := s.records[parent].owner;
    if owner.Contract? then Err(NotAuthorized) else
    :- CheckHash(s, hash);
    var root := RootOf(s.records, parent);
    Ok(Register(s, owner, hash, Some(parent), true)
       .(forest := Forest(Push(s.forest.versions, parent, s.nextId),
                          s.forest.chains[root := Lookup(s.forest.chains, root, [root]) + [s.nextId]])))
  }

  function CommitVersion(s: State, owner: Address, hash: Hash, parent: IpId): Result<State> {
    if owner.Contract? then Err(NotAuthorized) else CreateVersion(s, parent, hash)
  }

  function VersionChain(s: State, id: IpId): seq<IpId> {
    var root := RootOf(s.records, id);
    Lookup(s.forest.chains, root, [root])
  }

  function Lineage(s: State, id: IpId): seq<IpId> {
    var root := RootOf(s.records, id);
    [root] + Lookup(s.forest.versions, root, [])
  }

  // ── Searches ─────────────────────────────────────────────────────────────

  /** The first id of a list whose record has this hash. */
  function FirstWith(records: map<IpId, IpRecord>, ids: seq<IpId>, hash: Hash): Option<IpId> {
    if ids == [] then None
    else if ids[0] in records && records[ids[0]].hash == hash then Some(ids[0])
    else FirstWith(records, ids[1..], hash)
  }

  function FindDuplicate(s: State, hash: Hash): Option<IpId> {
    if hash in s.commitmentOwner then FirstWith(s.records, Listed(s, s.commitmentOwner[hash]), hash) else None
  }

  /** The hashes of the listed ids that have a record. */
  function HashesOf(records: map<IpId, IpRecord>, ids: seq<IpId>): seq<Hash> {
    if ids == [] then []
    else
      var last := ids[|ids| - 1];
      HashesOf(records, ids[..|ids| - 1]) + (if last in records then [records[last].hash] else [])
  }

  /** The last place of a hash in a list, or 0. */
  function LastPlace(hashes: seq<Hash>, hash: Hash): nat {
    if hashes == [] then 0
    else if hashes[|hashes| - 1] == hash then |hashes| - 1
    else LastPlace(hashes[..|hashes| - 1], hash)
  }

  function LeavesFor(s: State, id: IpId): seq<Hash>
    requires id in s.records
  {
    HashesOf(s.records, Listed(s, s.records[id].owner))
  }

  function GenerateProof(h: (Hash, Hash) -> Hash, s: State, id: IpId): Result<seq<Hash>> {
    if id !in s.records then Err(IpNotFound) else
    var leaves := LeavesFor(s, id);
    var place := LastPlace(leaves, s.records[id].hash);
    Ok(if |leaves| <= 1 || place >= |leaves| then [] else Merkle.Proof(h, leaves, place))
  }

  function VerifyProof(h: (Hash, Hash) -> Hash, s: State, id: IpId, proof: seq<Hash>): Result<bool> {
    if id !in s.records then Err(IpNotFound) else
    Ok(Merkle.Accepts(h, ZERO_HASH, s.records[id].hash, proof, LeavesFor(s, id)))
  }

  // ── Threshold signatures ─────────────────────────────────────────────────

  function RequireThreshold(s: State, id: IpId, threshold: nat, signers: seq<Address>): Result<State> {
    if id !in s.records then Err(IpNotFound) else
    if threshold == 0 || threshold > |signers| then Err(ThresholdNotMet) else
    Ok(s.(thresholds := Thresholds(s.thresholds.configs[id := ThresholdConfig(threshold, signers)],
                                   s.thresholds.signatures[id := []])))
  }

  function Signatures(s: State, id: IpId): seq<ThresholdSignature> {
    Lookup(s.thresholds.signatures, id, [])
  }

  function SignersOf(signatures: seq<ThresholdSignature>): seq<Address> {
    seq(|signatures|, i requires 0 <= i < |signatures| => signatures[i].signer)
  }

  function AddSignature(s: State, id: IpId, signer: Address, signature: Hash): Result<State> {
    if id !in s.records then Err(IpNotFound) else
    if id !in s.thresholds.configs then Err(SignerNotAuthorized) else
    if signer !in s.thresholds.configs[id].signers then Err(SignerNotAuthorized) else
    if signer in SignersOf(Signatures(s, id)) then Err(AlreadySigned) else
    Ok(s.(thresholds := s.thresholds.(signatures :=
            s.thresholds.signatures[id := Signatures(s, id) + [ThresholdSignature(signer, signature, s.now)]])))
  }

  function VerifySignatures(s: State, id: IpId): Result<bool> {
    if id !in s.records then Err(IpNotFound) else
    Ok(id in s.thresholds.configs && |Signatures(s, id)| >= s.thresholds.configs[id].threshold)
  }

  // ── Delegation ───────────────────────────────────────────────────────────

  predicate Delegated(list: seq<DelegationRecord>, a: Address) {
    exists i :: 0 <= i < |list| && list[i].delegate == a
  }

  /** A root owner delegates at depth 0; anybody else one below the depth stored for him. */
  function Delegate(s: State, root: Address, delegator: Address, delegate: Address): Result<State> {
    if delegator.Contract? then Err(NotAuthorized) else
    if delegator != root && delegator !in s.delegation.depth then Err(Unauthorized) else
    var depth := if delegator == root then 0 else s.delegation.depth[delegator] + 1;
    if depth >= MAX_DELEGATION_DEPTH then Err(Unauthorized) else
    var list := DelegatesOf(s.delegation, root);
    if Delegated(list, delegate) then Ok(s) else
    Ok(s.(delegation := Delegations(s.delegation.delegates[root := list + [DelegationRecord(delegate, depth)]],
                                    s.delegation.depth[delegate := depth])))
  }

  function WithoutDelegate(list: seq<DelegationRecord>, a: Address): seq<DelegationRecord> {
    if list == [] then []
    else
      var last := list[|list| - 1];
      WithoutDelegate(list[..|list| - 1], a) + (if last.delegate != a then [last] else [])
  }

  function RevokeDelegation(s: State, owner: Address, delegate: Address): Result<State> {
    if owner.Contract? then Err(NotAuthorized) else
    var rest := WithoutDelegate(DelegatesOf(s.delegation, owner), delegate);
    Ok(s.(delegation := Delegations(s.delegation.delegates[owner := rest],
                                    s.delegation.depth - {delegate})))
  }

  /** The search from `root` for `candidate`, depth first, no deeper than the limit. */
  predicate InChain(d: Delegations, root: Address, candidate: Address, depth: nat)
    decreases MAX_DELEGATION_DEPTH - depth, 0, 0
  {
    depth < MAX_DELEGATION_DEPTH && AnyInChain(d, DelegatesOf(d, root), candidate, depth)
  }

  predicate AnyInChain(d: Delegations, list: seq<DelegationRecord>, candidate: Address, depth: nat)
    requires depth < MAX_DELEGATION_DEPTH
    decreases MAX_DELEGATION_DEPTH - depth - 1, 1, |list|
  {
    list != [] &&
    (list[0].delegate == candidate
     || InChain(d, list[0].delegate, candidate, depth + 1)
     || AnyInChain(d, list[1..], candidate, depth))
  }

  predicate IsDelegate(s: State, owner: Address, candidate: Address) {
    InChain(s.delegation, owner, candidate, 0)
  }
}

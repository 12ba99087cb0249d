/** Calls on the IP registry as data, and runs of them. */
module RegistryRuns {
  import opened Common
  import opened RegistryState
  import opened RegistrySpec

  datatype Op =
    | Wait(now: nat)
    | Commit(owner: Address, hash: Hash, difficulty: nat)
    | BatchCommit(owner: Address, hashes: seq<Hash>)
    | BatchCommitAnonymous(blinded: Hash, hashes: seq<Hash>)
    | CommitDelegated(owner: Address, hash: Hash, difficulty: nat)
    | Transfer(id: IpId, newOwner: Address)
    | Revoke(id: IpId)
    | Rotate(id: IpId, newHash: Hash, presented: Hash)
    | Merge(primary: IpId, duplicate: IpId)
    | CreateVersion(parent: IpId, hash: Hash)
    | CommitVersion(owner: Address, hash: Hash, parent: IpId)
    | RequireThreshold(id: IpId, threshold: nat, signers: seq<Address>)
    | AddSignature(id: IpId, signer: Address, signature: Hash)
    | Delegate(root: Address, delegator: Address, delegate: Address)
    | RevokeDelegation(owner: Address, delegate: Address)

  function Step(s: State, op: Op): Result<State> {
    match op
    case Wait(now) => Ok(s.(now := now))
    case Commit(owner, hash, difficulty) => CommitIp(s, owner, hash, difficulty)
    case BatchCommit(owner, hashes) => RegistrySpec.BatchCommit(s, owner, hashes)
    case BatchCommitAnonymous(blinded, hashes) => RegistrySpec.BatchCommitAnonymous(s, blinded, hashes)
    case CommitDelegated(owner, hash, difficulty) => RegistrySpec.CommitDelegated(s, owner, hash, difficulty)
    case Transfer(id, newOwner) => TransferIp(s, id, newOwner)
    case Revoke(id) => RevokeIp(s, id)
    case Rotate(id, newHash, presented) => RotateKey(s, id, newHash, presented)
    case Merge(primary, duplicate) => MergeDuplicate(s, primary, duplicate)
    case CreateVersion(parent, hash) => RegistrySpec.CreateVersion(s, parent, hash)
    case CommitVersion(owner, hash, parent) => RegistrySpec.CommitVersion(s, owner, hash, parent)
    case RequireThreshold(id, threshold, signers) => RegistrySpec.RequireThreshold(s, id, threshold, signers)
    case AddSignature(id, signer, signature) => RegistrySpec.AddSignature(s, id, signer, signature)
    case Delegate(root, delegator, delegate) => RegistrySpec.Delegate(s, root, delegator, delegate)
    case RevokeDelegation(owner, delegate) => RegistrySpec.RevokeDelegation(s, owner, delegate)
  }

  /** A refused call leaves the registry as it was. */
  function After(s: State, op: Op): State {
    match Step(s, op)
    case Ok(next) => next
    case Err(_) => s
  }

  function Run(s: State, ops: seq<Op>): State {
    if ops == [] then s else After(Run(s, ops[..|ops| - 1]), ops[|ops| - 1])
  }

  /** A registry that has not been called yet. */
  predicate Genesis(s: State) {
    && s.nextId == 1 && s.records == map[] && s.ownerIps == map[] && s.commitmentOwner == map[] && s.anonymous == map[]
    && s.forest == Forest(map[], map[]) && s.delegation == Delegations(map[], map[])
    && s.thresholds == Thresholds(map[], map[])
  }
}

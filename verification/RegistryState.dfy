/** The storage of the IP registry contract. */
module RegistryState {
  import opened Common

  type IpId = nat

  /** A 32-byte hash, first byte first. */
  datatype Hash = Hash(bytes: seq<bv8>)

  const ZERO_HASH := Hash([0, 0, 0, 0, 0, 0, 0, 0, 0, 0, 0, 0, 0, 0, 0, 0,
                           0, 0, 0, 0, 0, 0, 0, 0, 0, 0, 0, 0, 0, 0, 0, 0])
  const MAX_DELEGATION_DEPTH := 5

  datatype IpRecord = IpRecord(
    owner: Address, hash: Hash, timestamp: nat, revoked: bool, coOwners: seq<Address>, parent: Option<IpId>)

  /** Direct children of each IP, and the version chain of each root. */
  datatype Forest = Forest(versions: map<IpId, seq<IpId>>, chains: map<IpId, seq<IpId>>)

  datatype DelegationRecord = DelegationRecord(delegate: Address, depth: nat)

  datatype Delegations = Delegations(delegates: map<Address, seq<DelegationRecord>>, depth: map<Address, nat>)

  datatype ThresholdConfig = ThresholdConfig(threshold: nat, signers: seq<Address>)

  datatype ThresholdSignature = ThresholdSignature(signer: Address, signature: Hash, timestamp: nat)

  datatype Thresholds = Thresholds(configs: map<IpId, ThresholdConfig>, signatures: map<IpId, seq<ThresholdSignature>>)

  datatype State = State(
    now: nat, nextId: nat, records: map<IpId, IpRecord>, ownerIps: map<Address, seq<IpId>>,
    commitmentOwner: map<Hash, Address>, anonymous: map<Hash, Hash>, forest: Forest, rotations: map<IpId, seq<Hash>>,
    delegation: Delegations, thresholds: Thresholds)

  function Listed(s: State, a: Address): seq<IpId> {
    Lookup(s.ownerIps, a, [])
  }

  /** A list without the first occurrence of an entry. */
  function Without(list: seq<IpId>, id: IpId): seq<IpId> {
    if list == [] then [] else if list[0] == id then list[1..] else [list[0]] + Without(list[1..], id)
  }
}

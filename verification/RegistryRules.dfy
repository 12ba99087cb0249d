/** The rules of the registry's calls, as an owner would state them: who may call when, what the call leaves behind, and
    what each refusal means. They are stated on records, lists and hashes alone. */
module RegistryRules {
  import opened Common
  import opened RegistryState
  import opened RegistryRuns
  import ProofOfWork

  // ── Vocabulary ───────────────────────────────────────────────────────────

  /** No record has this hash. */
  ghost predicate Unused(s: State, hash: Hash) {
    forall id :: id in s.records ==> s.records[id].hash != hash
  }

  /** A hash that may be registered, and a list of hashes that may be, one after another. */
  ghost predicate Fresh(s: State, hash: Hash) {
    hash != ZERO_HASH && Unused(s, hash)
  }

  ghost predicate AllFresh(s: State, hashes: seq<Hash>) {
    Distinct(hashes) && forall hash :: hash in hashes ==> Fresh(s, hash)
  }

  /** The number that the hash spells is small: its first `difficulty` bits are zero. */
  predicate Small(hash: Hash, difficulty: nat) {
    if difficulty <= 8 * |hash.bytes|
    then ProofOfWork.Value(hash.bytes) < ProofOfWork.Power(8 * |hash.bytes| - difficulty)
    else ProofOfWork.Value(hash.bytes) == 0
  }

  predicate OwnerSigns(s: State, id: IpId) {
    id in s.records && s.records[id].owner.Account?
  }

  /** Whom an account has delegated to, the ids listed under it, and the earlier hashes of a record. */
  function Delegates(s: State, a: Address): seq<DelegationRecord> {
    if a in s.delegation.delegates then s.delegation.delegates[a] else []
  }

  function Listing(s: State, a: Address): seq<IpId> {
    if a in s.ownerIps then s.ownerIps[a] else []
  }

  function Rotations(s: State, id: IpId): seq<Hash> {
    if id in s.rotations then s.rotations[id] else []
  }

  function Versions(s: State, id: IpId): seq<IpId> {
    if id in s.forest.versions then s.forest.versions[id] else []
  }

  function Signed(s: State, id: IpId): seq<ThresholdSignature> {
    if id in s.thresholds.signatures then s.thresholds.signatures[id] else []
  }

  predicate HasSigned(s: State, id: IpId, signer: Address) {
    exists i :: 0 <= i < |Signed(s, id)| && Signed(s, id)[i].signer == signer
  }

  predicate IsDelegate(s: State, root: Address, a: Address) {
    exists i :: 0 <= i < |Delegates(s, root)| && Delegates(s, root)[i].delegate == a
  }

  /** The account that the index names for a hash. */
  function Holder(s: State, hash: Hash): Option<Address> {
    if hash in s.commitmentOwner then Some(s.commitmentOwner[hash]) else None
  }

  // ── Who may call, and when ───────────────────────────────────────────────

  ghost predicate MayCommit(s: State, owner: Address, hash: Hash, difficulty: nat) {
    owner.Account? && Fresh(s, hash) && Small(hash, difficulty)
  }

  /** The secret that is presented has to be the one behind the hash. */
  ghost predicate MayRotate(s: State, id: IpId, newHash: Hash, presented: Hash) {
    OwnerSigns(s, id) && !s.records[id].revoked && presented == s.records[id].hash && Fresh(s, newHash)
  }

  predicate MaySign(s: State, id: IpId, signer: Address) {
    && id in s.records && id in s.thresholds.configs
    && signer in s.thresholds.configs[id].signers && !HasSigned(s, id, signer)
  }

  /** The owner himself, or somebody at most three delegations away from him. */
  predicate MayDelegate(s: State, root: Address, delegator: Address) {
    && delegator.Account?
    && (delegator == root || (delegator in s.delegation.depth && s.delegation.depth[delegator] <= 3))
  }

  ghost predicate MayBatch(s: State, owner: Address, hashes: seq<Hash>) {
    owner.Account? && AllFresh(s, hashes)
  }

  ghost predicate MayBatchAnonymously(s: State, hashes: seq<Hash>) {
    hashes != [] && AllFresh(s, hashes)
  }

  ghost predicate MayCommitDelegated(s: State, owner: Address, hash: Hash, difficulty: nat) {
    MayCommit(s, owner, hash, difficulty) && Delegates(s, owner) != []
  }

  predicate MayRevoke(s: State, id: IpId) {
    OwnerSigns(s, id) && !s.records[id].revoked
  }

  ghost predicate MayVersion(s: State, parent: IpId, hash: Hash) {
    OwnerSigns(s, parent) && Fresh(s, hash)
  }

  ghost predicate May(s: State, op: Op) {
    match op
    case Wait(_) => true
    case Commit(owner, hash, difficulty) => MayCommit(s, owner, hash, difficulty)
    case BatchCommit(owner, hashes) => MayBatch(s, owner, hashes)
    case BatchCommitAnonymous(_, hashes) => MayBatchAnonymously(s, hashes)
    case CommitDelegated(owner, hash, difficulty) => MayCommitDelegated(s, owner, hash, difficulty)
    case Transfer(id, _) => OwnerSigns(s, id)
    case Revoke(id) => MayRevoke(s, id)
    case Rotate(id, newHash, presented) => MayRotate(s, id, newHash, presented)
    case Merge(primary, duplicate) => OwnerSigns(s, primary) && duplicate == primary
    case CreateVersion(parent, hash) => MayVersion(s, parent, hash)
    case CommitVersion(owner, hash, parent) => owner.Account? && MayVersion(s, parent, hash)
    case RequireThreshold(id, threshold, signers) => id in s.records && 1 <= threshold <= |signers|
    case AddSignature(id, signer, _) => MaySign(s, id, signer)
    case Delegate(root, delegator, _) => MayDelegate(s, root, delegator)
    case RevokeDelegation(owner, _) => owner.Account?
  }

  // ── What is left behind ──────────────────────────────────────────────────

  /** The hashes have become records, in order, under the next ids; nothing else has become of the records. */
  ghost predicate Recorded(s: State, s': State, owner: Address, hashes: seq<Hash>, parent: Option<IpId>) {
    && s'.nextId == s.nextId + |hashes|
    && (forall id :: id in s'.records <==> id in s.records || s.nextId <= id < s'.nextId)
    && (forall id :: id in s.records ==> s'.records[id] == s.records[id])
    && (forall i :: 0 <= i < |hashes| ==>
          s'.records[s.nextId + i] == IpRecord(owner, hashes[i], s.now, false, [], parent))
    && (forall hash :: Holder(s', hash) == if hash in hashes then Some(owner) else Holder(s, hash))
  }

  /** They are listed under their owner. */
  ghost predicate ListedUnder(s: State, s': State, owner: Address, n: nat) {
    forall a :: Listing(s', a) == Listing(s, a) + if a == owner then Upward(s.nextId, n) else []
  }

  /** Everything but the books of records and lists is as before. */
  ghost predicate OnlyBooks(s: State, s': State) {
    s' == s.(records := s'.records, nextId := s'.nextId, ownerIps := s'.ownerIps, commitmentOwner := s'.commitmentOwner)
  }

  ghost predicate Committed(s: State, s': State, owner: Address, hashes: seq<Hash>) {
    Recorded(s, s', owner, hashes, None) && ListedUnder(s, s', owner, |hashes|) && OnlyBooks(s, s')
  }

  /** Anonymous records belong to the registry and are listed under nobody; who committed them is noted, blinded. */
  ghost predicate CommittedAnonymously(s: State, s': State, blinded: Hash, hashes: seq<Hash>) {
    && Recorded(s, s', Contract, hashes, None) && (forall a :: Listing(s', a) == Listing(s, a))
    && (forall hash :: hash in s'.anonymous <==> hash in s.anonymous || hash in hashes)
    && (forall hash :: hash in s'.anonymous ==>
          s'.anonymous[hash] == if hash in hashes then blinded else s.anonymous[hash])
    && OnlyBooks(s, s'.(anonymous := s.anonymous))
  }

  /** A version is a record that names its parent, which lists it among its direct children. */
  ghost predicate Versioned(s: State, s': State, parent: IpId, hash: Hash)
    requires parent in s.records
  {
    && Recorded(s, s', s.records[parent].owner, [hash], Some(parent))
    && ListedUnder(s, s', s.records[parent].owner, 1)
    && (forall id :: Versions(s', id) == Versions(s, id) + if id == parent then [s.nextId] else [])
    && OnlyBooks(s, s'.(forest := s.forest))
  }

  /** A list without an id. */
  function Except(list: seq<IpId>, id: IpId): seq<IpId> {
    if list == [] then [] else (if list[0] == id then [] else [list[0]]) + Except(list[1..], id)
  }

  /** The record has another owner, who is named by the index, too, and has it at the end of his list. */
  ghost predicate Transferred(s: State, s': State, id: IpId, newOwner: Address)
    requires id in s.records
  {
    && s'.records == s.records[id := s.records[id].(owner := newOwner)] && s'.nextId == s.nextId
    && (forall hash :: Holder(s', hash) == if hash == s.records[id].hash then Some(newOwner) else Holder(s, hash))
    && (forall a :: Listing(s', a) == Except(Listing(s, a), id) + if a == newOwner then [id] else [])
    && OnlyBooks(s, s')
  }

  ghost predicate Revoked(s: State, s': State, id: IpId)
    requires id in s.records
  {
    s' == s.(records := s.records[id := s.records[id].(revoked := true)])
  }

  /** The record carries the new hash, the old one is the last of its rotations, and the old one is free again. */
  ghost predicate Rotated(s: State, s': State, id: IpId, newHash: Hash)
    requires id in s.records
  {
    var record := s.records[id];
    && s'.records == s.records[id := record.(hash := newHash)]
    && (forall j :: Rotations(s', j) == Rotations(s, j) + if j == id then [record.hash] else [])
    && (forall hash ::
          Holder(s', hash)
          == if hash == newHash then Some(record.owner) else if hash == record.hash then None else Holder(s, hash))
    && s' == s.(records := s'.records, rotations := s'.rotations, commitmentOwner := s'.commitmentOwner)
  }

  ghost predicate Configured(s: State, s': State, id: IpId, threshold: nat, signers: seq<Address>) {
    && s'.thresholds.configs == s.thresholds.configs[id := ThresholdConfig(threshold, signers)]
    && (forall j :: Signed(s', j) == if j == id then [] else Signed(s, j))
    && s' == s.(thresholds := s'.thresholds)
  }

  ghost predicate SignedBy(s: State, s': State, id: IpId, signer: Address, signature: Hash) {
    && s'.thresholds.configs == s.thresholds.configs
    && (forall j ::
          Signed(s', j) == Signed(s, j) + if j == id then [ThresholdSignature(signer, signature, s.now)] else [])
    && s' == s.(thresholds := s'.thresholds)
  }

  /** Delegating twice to the same account changes nothing. The depth is that of the delegator, and one more. */
  ghost predicate DelegatedTo(s: State, s': State, root: Address, delegator: Address, delegate: Address) {
    if IsDelegate(s, root, delegate) then s' == s
    else
      var depth :=
        if delegator == root || delegator !in s.delegation.depth then 0 else s.delegation.depth[delegator] + 1;
      && (forall a ::
            Delegates(s', a) == Delegates(s, a) + if a == root then [DelegationRecord(delegate, depth)] else [])
      && s'.delegation.depth == s.delegation.depth[delegate := depth]
      && s' == s.(delegation := s'.delegation)
  }

  function Others(list: seq<DelegationRecord>, a: Address): seq<DelegationRecord> {
    if list == [] then [] else (if list[0].delegate == a then [] else [list[0]]) + Others(list[1..], a)
  }

  ghost predicate DelegationRevoked(s: State, s': State, owner: Address, delegate: Address) {
    && (forall a :: Delegates(s', a) == if a == owner then Others(Delegates(s, a), delegate) else Delegates(s, a))
    && s'.delegation.depth == s.delegation.depth - {delegate}
    && s' == s.(delegation := s'.delegation)
  }

  ghost predicate Leaves(s: State, s': State, op: Op)
    requires May(s, op)
  {
    match op
    case Wait(now) => s' == s.(now := now)
    case Commit(owner, hash, _) => Committed(s, s', owner, [hash])
    case BatchCommit(owner, hashes) => Committed(s, s', owner, hashes)
    case BatchCommitAnonymous(blinded, hashes) => CommittedAnonymously(s, s', blinded, hashes)
    case CommitDelegated(owner, hash, _) => Committed(s, s', owner, [hash])
    case Transfer(id, newOwner) => Transferred(s, s', id, newOwner)
    case Revoke(id) => Revoked(s, s', id)
    case Rotate(id, newHash, _) => Rotated(s, s', id, newHash)
    case Merge(primary, _) => Revoked(s, s', primary)
    case CreateVersion(parent, hash) => Versioned(s, s', parent, hash)
    case CommitVersion(_, hash, parent) => Versioned(s, s', parent, hash)
    case RequireThreshold(id, threshold, signers) => Configured(s, s', id, threshold, signers)
    case AddSignature(id, signer, signature) => SignedBy(s, s', id, signer, signature)
    case Delegate(root, delegator, delegate) => DelegatedTo(s, s', root, delegator, delegate)
    case RevokeDelegation(owner, delegate) => DelegationRevoked(s, s', owner, delegate)
  }

  // ── What a refusal says ──────────────────────────────────────────────────

  /** One of the hashes cannot be registered. */
  ghost predicate HashesSay(s: State, hashes: seq<Hash>, e: Error) {
    || (e == ZeroCommitmentHash && ZERO_HASH in hashes)
    || (e == CommitmentAlreadyRegistered && (!Distinct(hashes) || exists hash :: hash in hashes && !Unused(s, hash)))
  }

  ghost predicate CommitSays(s: State, owner: Address, hash: Hash, difficulty: nat, e: Error) {
    || (e == NotAuthorized && owner == Contract)
    || (e == InsufficientPoW && !Small(hash, difficulty))
    || HashesSay(s, [hash], e)
  }

  ghost predicate CommitDelegatedSays(s: State, owner: Address, hash: Hash, difficulty: nat, e: Error) {
    if e == Unauthorized then Delegates(s, owner) == [] else CommitSays(s, owner, hash, difficulty, e)
  }

  ghost predicate BatchSays(s: State, owner: Address, hashes: seq<Hash>, e: Error) {
    if e == NotAuthorized then owner == Contract else HashesSay(s, hashes, e)
  }

  ghost predicate AnonymousSays(s: State, hashes: seq<Hash>, e: Error) {
    HashesSay(s, hashes, e) || (e == ZeroCommitmentHash && hashes == [])
  }

  /** There is no such record, or nobody can sign for its owner. */
  predicate OwnerSays(s: State, id: IpId, e: Error) {
    || (e == IpNotFound && id !in s.records)
    || (e == NotAuthorized && id in s.records && s.records[id].owner == Contract)
  }

  predicate RevokeSays(s: State, id: IpId, e: Error) {
    if e == IpAlreadyRevoked then id in s.records && s.records[id].revoked else OwnerSays(s, id, e)
  }

  ghost predicate RotateSays(s: State, id: IpId, newHash: Hash, presented: Hash, e: Error) {
    if e == Unauthorized then id in s.records && presented != s.records[id].hash
    else RevokeSays(s, id, e) || HashesSay(s, [newHash], e)
  }

  predicate MergeSays(s: State, primary: IpId, duplicate: IpId, e: Error) {
    if e == CommitmentAlreadyRegistered
    then primary in s.records && duplicate in s.records && duplicate != primary
    else OwnerSays(s, primary, e) || (e == IpNotFound && duplicate !in s.records)
  }

  ghost predicate CreateVersionSays(s: State, parent: IpId, hash: Hash, e: Error) {
    OwnerSays(s, parent, e) || HashesSay(s, [hash], e)
  }

  ghost predicate CommitVersionSays(s: State, owner: Address, hash: Hash, parent: IpId, e: Error) {
    (e == NotAuthorized && owner == Contract) || CreateVersionSays(s, parent, hash, e)
  }

  predicate RequireThresholdSays(s: State, id: IpId, threshold: nat, signers: seq<Address>, e: Error) {
    || (e == IpNotFound && id !in s.records)
    || (e == ThresholdNotMet && (threshold == 0 || threshold > |signers|))
  }

  predicate AddSignatureSays(s: State, id: IpId, signer: Address, e: Error) {
    || (e == IpNotFound && id !in s.records)
    || (e == SignerNotAuthorized && (id in s.thresholds.configs ==> signer !in s.thresholds.configs[id].signers))
    || (e == AlreadySigned && HasSigned(s, id, signer))
  }

  predicate DelegateSays(s: State, root: Address, delegator: Address, e: Error) {
    || (e == NotAuthorized && delegator == Contract)
    || (e == Unauthorized && delegator != root
        && (delegator in s.delegation.depth ==> s.delegation.depth[delegator] >= 4))
  }

  ghost predicate Says(s: State, op: Op, e: Error) {
    match op
    case Wait(_) => false
    case Commit(owner, hash, difficulty) => CommitSays(s, owner, hash, difficulty, e)
    case BatchCommit(owner, hashes) => BatchSays(s, owner, hashes, e)
    case BatchCommitAnonymous(_, hashes) => AnonymousSays(s, hashes, e)
    case CommitDelegated(owner, hash, difficulty) => CommitDelegatedSays(s, owner, hash, difficulty, e)
    case Transfer(id, _) => OwnerSays(s, id, e)
    case Revoke(id) => RevokeSays(s, id, e)
    case Rotate(id, newHash, presented) => RotateSays(s, id, newHash, presented, e)
    case Merge(primary, duplicate) => MergeSays(s, primary, duplicate, e)
    case CreateVersion(parent, hash) => CreateVersionSays(s, parent, hash, e)
    case CommitVersion(owner, hash, parent) => CommitVersionSays(s, owner, hash, parent, e)
    case RequireThreshold(id, threshold, signers) => RequireThresholdSays(s, id, threshold, signers, e)
    case AddSignature(id, signer, _) => AddSignatureSays(s, id, signer, e)
    case Delegate(root, delegator, _) => DelegateSays(s, root, delegator, e)
    case RevokeDelegation(owner, _) => e == NotAuthorized && owner == Contract
  }
}

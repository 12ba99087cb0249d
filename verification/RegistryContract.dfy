/** The entry points of the IP registry. As in the swap contract, a call works on its own copy of the store, and
    a call that panics leaves nothing behind. */
module RegistryContract {
  import opened Common
  import opened RegistryState
  import opened RegistrySpec
  import opened RegistryRuns
  import opened VersionForest
  import DelegationSearch
  import Merkle
  import ProofOfWork

  // ── Routines ─────────────────────────────────────────────────────────────

  lemma {:induction false} WithoutAt(list: seq<IpId>, id: IpId, i: nat)
    requires i < |list| && list[i] == id && id !in list[..i]
    ensures Without(list, id) == list[..i] + list[i + 1..]
  {
    if i == 0 {
    } else {
      assert list[1..][..i - 1] == list[..i][1..];
      assert list[0] != id by {
        assert list[..i][0] == list[0];
      }
      WithoutAt(list[1..], id, i - 1);
      assert list[..i] == [list[0]] + list[1..][..i - 1];
    }
  }

  lemma {:induction false} WithoutAbsent(list: seq<IpId>, id: IpId)
    requires id !in list
    ensures Without(list, id) == list
  {
    if list == [] {
    } else {
      WithoutAbsent(list[1..], id);
    }
  }

  /** Find an id, and take it out of the list. */
  method RemoveFirst(list: seq<IpId>, id: IpId) returns (rest: seq<IpId>)
    ensures rest == Without(list, id)
  {
    for i := 0 to |list|
      invariant id !in list[..i]
    {
      if list[i] == id {
        WithoutAt(list, id, i);
        return list[..i] + list[i + 1..];
      }
    }
    WithoutAbsent(list, id);
    return list;
  }

  /** Store a new record step by step. */
  method StoreRecord(s: State, owner: Address, hash: Hash, parent: Option<IpId>, listed: bool) returns (at: State)
    ensures at == Register(s, owner, hash, parent, listed)
  {
    var id := s.nextId;
    at := s.(records := s.records[id := IpRecord(owner, hash, s.now, false, [], parent)]);
    if listed {
      var ids := Lookup(at.ownerIps, owner, []);
      ids := ids + [id];
      at := at.(ownerIps := at.ownerIps[owner := ids]);
    }
    at := at.(commitmentOwner := at.commitmentOwner[hash := owner]);
    at := at.(nextId := id + 1);
  }

  /** Walk from parent to parent. */
  method FindRoot(records: Records, id: IpId) returns (root: IpId)
    requires ParentsOk(records)
    ensures root == RootOf(records, id)
  {
    root := id;
    while root in records && records[root].parent.Some?
      invariant RootOf(records, root) == RootOf(records, id)
      decreases root
    {
      assert ParentOk(records, root);
      root := records[root].parent.value;
    }
  }

  /** Walk from parent to parent, looking for a record met before. There never is one: ids fall on the way. */
  method WalkUp(records: Records, id: IpId) returns (visited: seq<IpId>)
    requires ParentsOk(records)
    ensures visited != [] && visited[0] == id && visited[|visited| - 1] == RootOf(records, id)
    ensures forall i, j :: 0 <= i < j < |visited| ==> visited[i] > visited[j]
  {
    visited := [];
    var current := id;
    while true
      invariant visited == [] ==> current == id
      invariant visited != [] ==> visited[0] == id
      invariant forall i :: 0 <= i < |visited| ==> visited[i] > current
      invariant forall i, j :: 0 <= i < j < |visited| ==> visited[i] > visited[j]
      invariant RootOf(records, current) == RootOf(records, id)
      decreases current
    {
      for i := 0 to |visited| {
        if visited[i] == current {
          assert false;
        }
      }
      visited := visited + [current];
      if current !in records || records[current].parent.None? {
        break;
      }
      assert ParentOk(records, current);
      current := records[current].parent.value;
    }
  }

  method CollectHashes(records: Records, ids: seq<IpId>) returns (hashes: seq<Hash>)
    ensures hashes == HashesOf(records, ids)
  {
    hashes := [];
    for i := 0 to |ids|
      invariant hashes == HashesOf(records, ids[..i])
    {
      assert ids[..i + 1][..i] == ids[..i];
      if ids[i] in records {
        hashes := hashes + [records[ids[i]].hash];
      }
    }
    assert ids[..|ids|] == ids;
  }

  class Registry {
    var store: State

    constructor (ledger: State)
      ensures store == ledger
    {
      store := ledger;
    }

    // ── Commitments ────────────────────────────────────────────────────────

    method CommitIp(owner: Address, hash: Hash, difficulty: nat) returns (r: Result<IpId>)
      modifies this
      ensures Commits(r, old(store), store, RegistrySpec.CommitIp(old(store), owner, hash, difficulty))
      ensures r.Ok? ==> r.value == old(store).nextId
    {
      if owner.Contract? {
        return Err(NotAuthorized);
      }
      :- CheckHash(store, hash);
      var worked := ProofOfWork.RequirePow(hash.bytes, difficulty);
      if !worked {
        return Err(InsufficientPoW);
      }
      var id := store.nextId;
      store := StoreRecord(store, owner, hash, None, true);
      return Ok(id);
    }

    method BatchCommitIp(owner: Address, hashes: seq<Hash>) returns (r: Result<seq<IpId>>)
      modifies this
      ensures Commits(r, old(store), store, RegistrySpec.BatchCommit(old(store), owner, hashes))
      ensures r.Ok? ==> |r.value| == |hashes| && forall k :: 0 <= k < |hashes| ==> r.value[k] == old(store).nextId + k
    {
      if owner.Contract? {
        return Err(NotAuthorized);
      }
      var at, ids := store, [];
      for i := 0 to |hashes|
        invariant store == old(store) && CommitAll(store, owner, hashes) == CommitAll(at, owner, hashes[i..])
        invariant at.nextId == store.nextId + i && |ids| == i
        invariant forall k :: 0 <= k < i ==> ids[k] == store.nextId + k
      {
        assert hashes[i..][1..] == hashes[i + 1..];
        :- CheckHash(at, hashes[i]);
        ids := ids + [at.nextId];
        at := StoreRecord(at, owner, hashes[i], None, true);
      }
      store := at;
      return Ok(ids);
    }

    method BatchCommitIpAnonymous(blinded: Hash, hashes: seq<Hash>) returns (r: Result<seq<IpId>>)
      modifies this
      ensures Commits(r, old(store), store, RegistrySpec.BatchCommitAnonymous(old(store), blinded, hashes))
      ensures r.Ok? ==> |r.value| == |hashes| && forall k :: 0 <= k < |hashes| ==> r.value[k] == old(store).nextId + k
    {
      if hashes == [] {
        return Err(ZeroCommitmentHash);
      }
      var at, ids := store, [];
      for i := 0 to |hashes|
        invariant store == old(store)
          && CommitAllAnonymous(store, blinded, hashes) == CommitAllAnonymous(at, blinded, hashes[i..])
        invariant at.nextId == store.nextId + i && |ids| == i
        invariant forall k :: 0 <= k < i ==> ids[k] == store.nextId + k
      {
        assert hashes[i..][1..] == hashes[i + 1..];
        :- CheckHash(at, hashes[i]);
        ids := ids + [at.nextId];
        at := StoreRecord(at, Contract, hashes[i], None, false);
        at := at.(anonymous := at.anonymous[hashes[i] := blinded]);
      }
      store := at;
      return Ok(ids);
    }

    method CommitIpDelegated(owner: Address, hash: Hash, difficulty: nat) returns (r: Result<IpId>)
      modifies this
      ensures Commits(r, old(store), store, RegistrySpec.CommitDelegated(old(store), owner, hash, difficulty))
      ensures r.Ok? ==> r.value == old(store).nextId
    {
      if owner.Contract? {
        return Err(NotAuthorized);
      }
      var delegates := Lookup(store.delegation.delegates, owner, []);
      if |delegates| == 0 {
        return Err(Unauthorized);
      }
      :- CheckHash(store, hash);
      var worked := ProofOfWork.RequirePow(hash.bytes, difficulty);
      if !worked {
        return Err(InsufficientPoW);
      }
      var id := store.nextId;
      store := StoreRecord(store, owner, hash, None, true);
      return Ok(id);
    }

    // ── Changes to a record ────────────────────────────────────────────────

    method TransferIp(id: IpId, newOwner: Address) returns (r: Result<()>)
      modifies this
      ensures Commits(r, old(store), store, RegistrySpec.TransferIp(old(store), id, newOwner))
    {
      var at := store;
      if id !in at.records {
        return Err(IpNotFound);
      }
      var record := at.records[id];
      if record.owner.Contract? {
        return Err(NotAuthorized);
      }
      var oldIds := RemoveFirst(Lookup(at.ownerIps, record.owner, []), id);
      at := at.(ownerIps := at.ownerIps[record.owner := oldIds]);
      var newIds := Lookup(at.ownerIps, newOwner, []);
      newIds := newIds + [id];
      at := at.(ownerIps := at.ownerIps[newOwner := newIds]);
      at := at.(commitmentOwner := at.commitmentOwner[record.hash := newOwner]);
      record := record.(owner := newOwner);
      store := at.(records := at.records[id := record]);
      return Ok(());
    }

    method RevokeIp(id: IpId) returns (r: Result<()>)
      modifies this
      ensures Commits(r, old(store), store, RegistrySpec.RevokeIp(old(store), id))
    {
      if id !in store.records {
        return Err(IpNotFound);
      }
      var record := store.records[id];
      if record.owner.Contract? {
        return Err(NotAuthorized);
      }
      if record.revoked {
        return Err(IpAlreadyRevoked);
      }
      record := record.(revoked := true);
      store := store.(records := store.records[id := record]);
      return Ok(());
    }

    method RotateCommitmentKey(id: IpId, newHash: Hash, presented: Hash) returns (r: Result<()>)
      modifies this
      ensures Commits(r, old(store), store, RotateKey(old(store), id, newHash, presented))
    {
      var at := store;
      if id !in at.records {
        return Err(IpNotFound);
      }
      var record := at.records[id];
      if record.owner.Contract? {
        return Err(NotAuthorized);
      }
      if record.revoked {
        return Err(IpAlreadyRevoked);
      }
      if presented != record.hash {
        return Err(Unauthorized);
      }
      :- CheckHash(at, newHash);
      var history := Lookup(at.rotations, id, []);
      history := history + [record.hash];
      at := at.(rotations := at.rotations[id := history]);
      at := at.(commitmentOwner := at.commitmentOwner - {record.hash});
      at := at.(commitmentOwner := at.commitmentOwner[newHash := record.owner]);
      record := record.(hash := newHash);
      store := at.(records := at.records[id := record]);
      return Ok(());
    }

    method MergeDuplicateCommitment(primary: IpId, duplicate: IpId) returns (r: Result<()>)
      modifies this
      ensures Commits(r, old(store), store, MergeDuplicate(old(store), primary, duplicate))
    {
      var at := store;
      if primary !in at.records {
        return Err(IpNotFound);
      }
      var kept := at.records[primary];
      if kept.owner.Contract? {
        return Err(NotAuthorized);
      }
      if duplicate !in at.records {
        return Err(IpNotFound);
      }
      var gone := at.records[duplicate];
      if kept.hash != gone.hash {
        return Err(CommitmentAlreadyRegistered);
      }
      if gone.owner !in kept.coOwners && gone.owner != kept.owner {
        kept := kept.(coOwners := kept.coOwners + [gone.owner]);
        at := at.(records := at.records[primary := kept]);
      }
      gone := gone.(revoked := true);
      store := at.(records := at.records[duplicate := gone]);
      return Ok(());
    }

    // ── Versions ───────────────────────────────────────────────────────────

    /** In every reachable state parents are older than their children. */
    method CreateIpVersion(parent: IpId, hash: Hash) returns (r: Result<IpId>)
      requires ParentsOk(store.records)
      modifies this
      ensures Commits(r, old(store), store, RegistrySpec.CreateVersion(old(store), parent, hash))
      ensures r.Ok? ==> r.value == old(store).nextId
    {
      var at := store;
      if parent !in at.records {
        return Err(IpNotFound);
      }
      var owner := at.records[parent].owner;
      if owner.Contract? {
        return Err(NotAuthorized);
      }
      :- CheckHash(at, hash);
      var _ := WalkUp(at.records, parent);
      var id := at.nextId;
      var root := FindRoot(at.records, parent);
      at := StoreRecord(at, owner, hash, Some(parent), true);
      var versions := Lookup(at.forest.versions, parent, []);
      versions := versions + [id];
      at := at.(forest := at.forest.(versions := at.forest.versions[parent := versions]));
      var chain := Lookup(at.forest.chains, root, [root]);
      chain := chain + [id];
      at := at.(forest := at.forest.(chains := at.forest.chains[root := chain]));
      store := at;
      return Ok(id);
    }

    method CommitIpVersion(owner: Address, hash: Hash, parent: IpId) returns (r: Result<IpId>)
      requires ParentsOk(store.records)
      modifies this
      ensures Commits(r, old(store), store, RegistrySpec.CommitVersion(old(store), owner, hash, parent))
      ensures r.Ok? ==> r.value == old(store).nextId
    {
      if owner.Contract? {
        return Err(NotAuthorized);
      }
      r := CreateIpVersion(parent, hash);
    }

    method GetIpVersionChain(id: IpId) returns (r: Result<seq<IpId>>)
      requires ParentsOk(store.records)
      ensures r == if id in store.records then Ok(VersionChain(store, id)) else Err(IpNotFound)
    {
      if id !in store.records {
        return Err(IpNotFound);
      }
      var root := FindRoot(store.records, id);
      return Ok(Lookup(store.forest.chains, root, [root]));
    }

    method GetIpLineage(id: IpId) returns (r: Result<seq<IpId>>)
      requires ParentsOk(store.records)
      ensures r == if id in store.records then Ok(Lineage(store, id)) else Err(IpNotFound)
    {
      if id !in store.records {
        return Err(IpNotFound);
      }
      var root := FindRoot(store.records, id);
      var lineage, versions := [root], Lookup(store.forest.versions, root, []);
      for i := 0 to |versions|
        invariant lineage == [root] + versions[..i]
      {
        lineage := lineage + [versions[i]];
      }
      assert versions[..|versions|] == versions;
      return Ok(lineage);
    }

    // ── Searches and proofs ────────────────────────────────────────────────

    method FindDuplicateCommitment(hash: Hash) returns (r: Option<IpId>)
      ensures r == FindDuplicate(store, hash)
    {
      if hash !in store.commitmentOwner {
        return None;
      }
      var ids := Lookup(store.ownerIps, store.commitmentOwner[hash], []);
      for i := 0 to |ids|
        invariant FirstWith(store.records, ids, hash) == FirstWith(store.records, ids[i..], hash)
      {
        assert ids[i..][1..] == ids[i + 1..];
        if ids[i] in store.records && store.records[ids[i]].hash == hash {
          return Some(ids[i]);
        }
      }
      return None;
    }

    method GenerateMerkleProof(h: (Hash, Hash) -> Hash, id: IpId) returns (r: Result<seq<Hash>>)
      ensures r == GenerateProof(h, store, id)
    {
      if id !in store.records {
        return Err(IpNotFound);
      }
      var record := store.records[id];
      var ids := Lookup(store.ownerIps, record.owner, []);
      var leaves: seq<Hash> := [];
      var found: nat := 0;
      for i := 0 to |ids|
        invariant leaves == HashesOf(store.records, ids[..i]) && found == LastPlace(leaves, record.hash)
      {
        assert ids[..i + 1][..i] == ids[..i];
        if ids[i] in store.records {
          var hash := store.records[ids[i]].hash;
          if hash == record.hash {
            found := |leaves|;
          }
          assert (leaves + [hash])[..|leaves|] == leaves;
          leaves := leaves + [hash];
        }
      }
      assert ids[..|ids|] == ids;
      if |leaves| <= 1 || found >= |leaves| {
        return Ok([]);
      }
      var proof := Merkle.BuildProof(h, leaves, found);
      return Ok(proof);
    }

    method VerifyIpMerkleProof(h: (Hash, Hash) -> Hash, id: IpId, proof: seq<Hash>) returns (r: Result<bool>)
      ensures r == VerifyProof(h, store, id, proof)
    {
      if id !in store.records {
        return Err(IpNotFound);
      }
      var record := store.records[id];
      var leaves := CollectHashes(store.records, Lookup(store.ownerIps, record.owner, []));
      var ok := Merkle.VerifyProof(h, ZERO_HASH, record.hash, proof, leaves);
      return Ok(ok);
    }

    // ── Threshold signatures ───────────────────────────────────────────────

    method RequireThresholdSignatures(id: IpId, threshold: nat, signers: seq<Address>) returns (r: Result<()>)
      modifies this
      ensures Commits(r, old(store), store, RegistrySpec.RequireThreshold(old(store), id, threshold, signers))
    {
      var at := store;
      if id !in at.records {
        return Err(IpNotFound);
      }
      if threshold == 0 || threshold > |signers| {
        return Err(ThresholdNotMet);
      }
      var t := at.thresholds.(configs := at.thresholds.configs[id := ThresholdConfig(threshold, signers)]);
      t := t.(signatures := t.signatures[id := []]);
      store := at.(thresholds := t);
      return Ok(());
    }

    method AddThresholdSignature(id: IpId, signer: Address, signature: Hash) returns (r: Result<()>)
      modifies this
      ensures Commits(r, old(store), store, RegistrySpec.AddSignature(old(store), id, signer, signature))
    {
      var at := store;
      if id !in at.records {
        return Err(IpNotFound);
      }
      if id !in at.thresholds.configs {
        return Err(SignerNotAuthorized);
      }
      if signer !in at.thresholds.configs[id].signers {
        return Err(SignerNotAuthorized);
      }
      var signatures := Lookup(at.thresholds.signatures, id, []);
      for i := 0 to |signatures|
        invariant signer !in SignersOf(signatures)[..i]
      {
        if signatures[i].signer == signer {
          assert SignersOf(signatures)[i] == signer;
          return Err(AlreadySigned);
        }
      }
      assert SignersOf(signatures)[..|signatures|] == SignersOf(signatures);
      signatures := signatures + [ThresholdSignature(signer, signature, at.now)];
      store := at.(thresholds := at.thresholds.(signatures := at.thresholds.signatures[id := signatures]));
      return Ok(());
    }

    /** As no signer is recorded twice, counting the signatures is counting the signers. */
    method VerifyThresholdSignatures(id: IpId) returns (r: Result<bool>)
      ensures r == VerifySignatures(store, id)
      ensures Distinct(SignersOf(Signatures(store, id))) ==>
        (r == Ok(true) <==> && id in store.records && id in store.thresholds.configs
                            && |Elements(SignersOf(Signatures(store, id)))| >= store.thresholds.configs[id].threshold)
    {
      DistinctCount(SignersOf(Signatures(store, id)));
      if id !in store.records {
        return Err(IpNotFound);
      }
      if id !in store.thresholds.configs {
        return Ok(false);
      }
      var signatures := Lookup(store.thresholds.signatures, id, []);
      return Ok(|signatures| >= store.thresholds.configs[id].threshold);
    }

    // ── Delegation ─────────────────────────────────────────────────────────

    method DelegateCommitmentAuthority(root: Address, delegator: Address, delegate: Address) returns (r: Result<()>)
      modifies this
      ensures Commits(r, old(store), store, RegistrySpec.Delegate(old(store), root, delegator, delegate))
    {
      var at := store;
      if delegator.Contract? {
        return Err(NotAuthorized);
      }
      var depth := 0;
      if delegator != root {
        if delegator !in at.delegation.depth {
          return Err(Unauthorized);
        }
        depth := at.delegation.depth[delegator] + 1;
      }
      if depth >= MAX_DELEGATION_DEPTH {
        return Err(Unauthorized);
      }
      var list := Lookup(at.delegation.delegates, root, []);
      for i := 0 to |list|
        invariant forall j :: 0 <= j < i ==> list[j].delegate != delegate
      {
        if list[i].delegate == delegate {
          return Ok(());
        }
      }
      list := list + [DelegationRecord(delegate, depth)];
      var d := at.delegation.(delegates := at.delegation.delegates[root := list]);
      d := d.(depth := d.depth[delegate := depth]);
      store := at.(delegation := d);
      return Ok(());
    }

    method RevokeDelegation(owner: Address, delegate: Address) returns (r: Result<()>)
      modifies this
      ensures Commits(r, old(store), store, RegistrySpec.RevokeDelegation(old(store), owner, delegate))
    {
      var at := store;
      if owner.Contract? {
        return Err(NotAuthorized);
      }
      var list := Lookup(at.delegation.delegates, owner, []);
      var updated := [];
      for i := 0 to |list|
        invariant updated == WithoutDelegate(list[..i], delegate)
      {
        assert list[..i + 1][..i] == list[..i];
        if list[i].delegate != delegate {
          updated := updated + [list[i]];
        }
      }
      assert list[..|list|] == list;
      var d := at.delegation.(delegates := at.delegation.delegates[owner := updated]);
      d := d.(depth := d.depth - {delegate});
      store := at.(delegation := d);
      return Ok(());
    }

    method IsDelegateOf(owner: Address, candidate: Address) returns (found: bool)
      ensures found <==> IsDelegate(store, owner, candidate)
    {
      found := DelegationSearch.Search(store.delegation, owner, candidate, 0);
    }
  }

  // ── Runs of the contract itself ──────────────────────────────────────────

  method Grow(c: Registry, op: Op) returns (r: Result<()>)
    requires Grows(op) && ParentsOk(c.store.records)
    modifies c
    ensures Commits(r, old(c.store), c.store, Step(old(c.store), op))
  {
    match op {
      case Commit(owner, hash, difficulty) =>
        var answer := c.CommitIp(owner, hash, difficulty);
        r := Answer(answer);
      case CommitDelegated(owner, hash, difficulty) =>
        var answer := c.CommitIpDelegated(owner, hash, difficulty);
        r := Answer(answer);
      case BatchCommit(owner, hashes) =>
        var answer := c.BatchCommitIp(owner, hashes);
        r := Answer(answer);
      case BatchCommitAnonymous(blinded, hashes) =>
        var answer := c.BatchCommitIpAnonymous(blinded, hashes);
        r := Answer(answer);
      case CreateVersion(parent, hash) =>
        var answer := c.CreateIpVersion(parent, hash);
        r := Answer(answer);
      case CommitVersion(owner, hash, parent) =>
        var answer := c.CommitIpVersion(owner, hash, parent);
        r := Answer(answer);
    }
  }

  method Invoke(c: Registry, op: Op) returns (r: Result<()>)
    requires ParentsOk(c.store.records)
    modifies c
    ensures Commits(r, old(c.store), c.store, Step(old(c.store), op))
    ensures c.store == After(old(c.store), op)
  {
    match op
    case Wait(now) => c.store := c.store.(now := now); r := Ok(());
    case Transfer(id, newOwner) => r := c.TransferIp(id, newOwner);
    case Revoke(id) => r := c.RevokeIp(id);
    case Rotate(id, newHash, presented) => r := c.RotateCommitmentKey(id, newHash, presented);
    case Merge(primary, duplicate) => r := c.MergeDuplicateCommitment(primary, duplicate);
    case RequireThreshold(id, threshold, signers) => r := c.RequireThresholdSignatures(id, threshold, signers);
    case AddSignature(id, signer, signature) => r := c.AddThresholdSignature(id, signer, signature);
    case Delegate(root, delegator, delegate) => r := c.DelegateCommitmentAuthority(root, delegator, delegate);
    case RevokeDelegation(owner, delegate) => r := c.RevokeDelegation(owner, delegate);
    case _ => r := Grow(c, op);
  }

  /** A new registry under a list of calls: its store is what `Run` says, and no walk ever fails to end. */
  method Replay(c: Registry, ops: seq<Op>)
    requires Genesis(c.store)
    modifies c
    ensures c.store == Run(old(c.store), ops)
  {
    for i := 0 to |ops|
      invariant c.store == Run(old(c.store), ops[..i])
    {
      RunForest(old(c.store), ops[..i]);
      var _ := Invoke(c, ops[i]);
      assert ops[..i + 1][..i] == ops[..i];
    }
    assert ops[..|ops|] == ops;
  }
}

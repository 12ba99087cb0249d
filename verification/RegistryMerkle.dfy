/** Merkle proofs of the IPs of one owner, in every reachable registry. */
module RegistryMerkle {
  import opened Common
  import opened RegistryState
  import opened RegistrySpec
  import opened RegistryRuns
  import opened RegistryAgreement
  import Merkle

  lemma {:induction false} HashesFollowIds(records: map<IpId, IpRecord>, ids: seq<IpId>)
    requires forall id :: id in ids ==> id in records
    ensures |HashesOf(records, ids)| == |ids|
    ensures forall k :: 0 <= k < |ids| ==> HashesOf(records, ids)[k] == records[ids[k]].hash
  {
    if ids == [] {
    } else {
      HashesFollowIds(records, ids[..|ids| - 1]);
    }
  }

  lemma {:induction false} LastPlaceHolds(hashes: seq<Hash>, hash: Hash)
    ensures hashes != [] ==> LastPlace(hashes, hash) < |hashes|
    ensures hash in hashes ==> hashes[LastPlace(hashes, hash)] == hash
  {
    if hashes == [] {
    } else {
      LastPlaceHolds(hashes[..|hashes| - 1], hash);
    }
  }

  /** The proof generated for a named record is accepted, in any registry whose indexes agree. */
  lemma NamedProofAccepted(h: (Hash, Hash) -> Hash, s: State, id: IpId)
    requires Agrees(s) && id in s.records && Named(s, id)
    ensures GenerateProof(h, s, id).Ok?
    ensures VerifyProof(h, s, id, GenerateProof(h, s, id).value) == Ok(true)
  {
    var ids, hash := Listed(s, s.records[id].owner), s.records[id].hash;
    var leaves := HashesOf(s.records, ids);
    assert RecordOk(s, id) && ListOk(s, s.records[id].owner);
    HashesFollowIds(s.records, ids);
    var k :| 0 <= k < |ids| && ids[k] == id;
    assert leaves[k] == hash;
    LastPlaceHolds(leaves, hash);
    Merkle.Completeness(h, ZERO_HASH, leaves, LastPlace(leaves, hash));
  }

  /** A hash that is among the leaves of its owner belongs to a named record. */
  lemma LeafIsNamed(s: State, id: IpId)
    requires Agrees(s) && id in s.records && s.records[id].hash in LeavesFor(s, id)
    ensures Named(s, id)
  {
    var ids := Listed(s, s.records[id].owner);
    assert RecordOk(s, id) && ListOk(s, s.records[id].owner);
    HashesFollowIds(s.records, ids);
    var k :| 0 <= k < |ids| && s.records[ids[k]].hash == s.records[id].hash;
    assert ids[k] in ids && RecordOk(s, ids[k]);
  }

  lemma GeneratedLength(h: (Hash, Hash) -> Hash, s: State, id: IpId)
    requires id in s.records && LeavesFor(s, id) != []
    ensures |GenerateProof(h, s, id).value| == Merkle.Height(|LeavesFor(s, id)|)
  {
    var leaves := LeavesFor(s, id);
    LastPlaceHolds(leaves, s.records[id].hash);
    Merkle.ProofLength(h, leaves, LastPlace(leaves, s.records[id].hash));
  }

  /** The proof of an anonymous record is accepted only by a collision between its path and the owner's tree. */
  lemma AnonymousNeedsCollision(h: (Hash, Hash) -> Hash, s: State, id: IpId)
    requires Agrees(s) && id in s.records && !Named(s, id)
    requires VerifyProof(h, s, id, GenerateProof(h, s, id).value) == Ok(true)
    ensures Merkle.Collides(h, LeavesFor(s, id), s.records[id].hash, GenerateProof(h, s, id).value)
  {
    assert RecordOk(s, id);
    if LeavesFor(s, id) != [] {
      GeneratedLength(h, s, id);
      Merkle.Soundness(h, ZERO_HASH, s.records[id].hash, GenerateProof(h, s, id).value, LeavesFor(s, id));
      if s.records[id].hash in LeavesFor(s, id) {
        LeafIsNamed(s, id);
      }
    }
  }

  /** Unless the pair hash collides there, the proof generated for an IP is accepted exactly if the IP was not
      committed anonymously: an anonymous IP is listed under nobody, whatever else its owner owns. */
  lemma ProofAcceptedExactly(h: (Hash, Hash) -> Hash, s: State, id: IpId)
    requires Agrees(s) && id in s.records
    requires !Merkle.Collides(h, LeavesFor(s, id), s.records[id].hash, GenerateProof(h, s, id).value)
    ensures VerifyProof(h, s, id, GenerateProof(h, s, id).value) == Ok(true) <==> Named(s, id)
  {
    if Named(s, id) {
      NamedProofAccepted(h, s, id);
    } else if VerifyProof(h, s, id, GenerateProof(h, s, id).value) == Ok(true) {
      AnonymousNeedsCollision(h, s, id);
    }
  }

  /** So in every reachable registry every IP that was not committed anonymously can be proved. */
  lemma ReachableProofAccepted(h: (Hash, Hash) -> Hash, s: State, ops: seq<Op>, id: IpId)
    requires Genesis(s) && id in Run(s, ops).records && Named(Run(s, ops), id)
    ensures GenerateProof(h, Run(s, ops), id).Ok?
    ensures VerifyProof(h, Run(s, ops), id, GenerateProof(h, Run(s, ops), id).value) == Ok(true)
  {
    RunAgrees(s, ops);
    NamedProofAccepted(h, Run(s, ops), id);
  }

  /** And unless the pair hash collides, exactly those IPs can be proved. */
  lemma ReachableProofExactly(h: (Hash, Hash) -> Hash, s: State, ops: seq<Op>, id: IpId)
    requires Genesis(s) && id in Run(s, ops).records
    requires !Merkle.Collides(h, LeavesFor(Run(s, ops), id), Run(s, ops).records[id].hash,
                              GenerateProof(h, Run(s, ops), id).value)
    ensures VerifyProof(h, Run(s, ops), id, GenerateProof(h, Run(s, ops), id).value) == Ok(true)
      <==> Named(Run(s, ops), id)
  {
    RunAgrees(s, ops);
    ProofAcceptedExactly(h, Run(s, ops), id);
  }

  /** In particular with an injective pair hash. */
  lemma InjectiveProofExactly(h: (Hash, Hash) -> Hash, s: State, ops: seq<Op>, id: IpId)
    requires Merkle.Injective(h) && Genesis(s) && id in Run(s, ops).records
    ensures VerifyProof(h, Run(s, ops), id, GenerateProof(h, Run(s, ops), id).value) == Ok(true)
      <==> Named(Run(s, ops), id)
  {
    Merkle.NoCollision(h, LeavesFor(Run(s, ops), id), Run(s, ops).records[id].hash,
                       GenerateProof(h, Run(s, ops), id).value);
    ReachableProofExactly(h, s, ops, id);
  }

  // ── An IP that cannot be proved ──────────────────────────────────────────

  lemma CommitsAnonymously(s: State, blinded: Hash, hash: Hash)
    requires Genesis(s) && hash != ZERO_HASH
    ensures Step(s, Op.BatchCommitAnonymous(blinded, [hash])) == Ok(RegisterAnonymous(s, blinded, hash))
  {
    assert [hash][1..] == [];
    var next := RegisterAnonymous(s, blinded, hash);
    assert CommitAllAnonymous(next, blinded, []) == Ok(next);
  }

  /** In a new registry the proof of an IP that is committed anonymously is rejected, whatever the pair hash. */
  lemma AnonymousIpRejected(h: (Hash, Hash) -> Hash, s: State, blinded: Hash, hash: Hash) returns (ops: seq<Op>)
    requires Genesis(s) && hash != ZERO_HASH
    ensures 1 in Run(s, ops).records && !Named(Run(s, ops), 1)
    ensures GenerateProof(h, Run(s, ops), 1).Ok?
    ensures VerifyProof(h, Run(s, ops), 1, GenerateProof(h, Run(s, ops), 1).value) == Ok(false)
  {
    ops := [Op.BatchCommitAnonymous(blinded, [hash])];
    CommitsAnonymously(s, blinded, hash);
    assert ops[..0] == [] && Run(s, ops) == RegisterAnonymous(s, blinded, hash);
    assert LeavesFor(Run(s, ops), 1) == [];
  }
}

/** Every call on the registry goes through exactly when the rules say that it may, leaves exactly what they say, and is
    refused for a reason that is true, in every registry whose indexes agree: in every reachable one. */
module RegistryOutcomes {
  import opened Common
  import opened RegistryState
  import opened RegistrySpec
  import opened RegistryRuns
  import opened RegistryAgreement
  import opened RegistryRules
  import ProofOfWork

  // ── Hashes ───────────────────────────────────────────────────────────────

  /** The index knows exactly the hashes of the records. */
  lemma KnownIsUsed(s: State, hash: Hash)
    requires Agrees(s)
    ensures hash in s.commitmentOwner <==> !Unused(s, hash)
  {
    if hash in s.commitmentOwner {
      assert hash in Hashes(s);
    }
    if !Unused(s, hash) {
      var id :| id in s.records && s.records[id].hash == hash;
      assert RecordOk(s, id);
    }
  }

  lemma CheckedIsKnown(s: State, hash: Hash)
    requires hash in s.commitmentOwner <==> !Unused(s, hash)
    ensures CheckHash(s, hash).Pass? <==> Fresh(s, hash)
    ensures CheckHash(s, hash).Fail? ==> HashesSay(s, [hash], CheckHash(s, hash).error)
  {
    assert hash in [hash];
  }

  lemma CheckedIsFresh(s: State, hash: Hash)
    requires Agrees(s)
    ensures CheckHash(s, hash).Pass? <==> Fresh(s, hash)
    ensures CheckHash(s, hash).Fail? ==> HashesSay(s, [hash], CheckHash(s, hash).error)
  {
    KnownIsUsed(s, hash);
    CheckedIsKnown(s, hash);
  }

  lemma PowIsSmall(hash: Hash, difficulty: nat)
    ensures ProofOfWork.HasLeadingZeros(hash.bytes, difficulty) <==> Small(hash, difficulty)
  {
    if difficulty <= 8 * |hash.bytes| {
      ProofOfWork.LeadingZerosExact(hash.bytes, difficulty);
    } else {
      ProofOfWork.LeadingZerosBeyond(hash.bytes, difficulty);
    }
  }

  // ── New records ──────────────────────────────────────────────────────────

  lemma RegisterRecorded(s: State, owner: Address, hash: Hash, parent: Option<IpId>, listed: bool)
    requires s.nextId !in s.records
    ensures Recorded(s, Register(s, owner, hash, parent, listed), owner, [hash], parent)
    ensures OnlyBooks(s, Register(s, owner, hash, parent, listed))
  {
  }

  lemma RegisterListed(s: State, owner: Address, hash: Hash, parent: Option<IpId>)
    ensures ListedUnder(s, Register(s, owner, hash, parent, true), owner, 1)
    ensures forall a :: Listing(Register(s, owner, hash, parent, false), a) == Listing(s, a)
  {
    assert Upward(s.nextId, 1) == [s.nextId];
  }

  /** The ids of the records are all below the next one. */
  ghost predicate Numbered(s: State) {
    forall id :: id in s.records ==> id < s.nextId
  }

  lemma RegisterCommits(s: State, owner: Address, hash: Hash)
    requires Numbered(s)
    ensures Numbered(Register(s, owner, hash, None, true))
    ensures Committed(s, Register(s, owner, hash, None, true), owner, [hash])
  {
    RegisterRecorded(s, owner, hash, None, true);
    RegisterListed(s, owner, hash, None);
  }

  /** One record, and then more, are one list of records. */
  lemma RecordedThen(
      s: State, next: State, end: State, owner: Address, hash: Hash, hashes: seq<Hash>, parent: Option<IpId>)
    requires Recorded(s, next, owner, [hash], parent) && Recorded(next, end, owner, hashes, parent) && next.now == s.now
    ensures Recorded(s, end, owner, [hash] + hashes, parent)
  {
    var all := [hash] + hashes;
    assert next.records[s.nextId] == IpRecord(owner, [hash][0], s.now, false, [], parent) by {
      assert next.records[s.nextId + 0] == IpRecord(owner, [hash][0], s.now, false, [], parent);
    }
    forall i | 0 <= i < |all| ensures end.records[s.nextId + i] == IpRecord(owner, all[i], s.now, false, [], parent) {
      if i > 0 {
        assert end.records[next.nextId + (i - 1)] == IpRecord(owner, hashes[i - 1], s.now, false, [], parent);
      }
    }
    forall h ensures Holder(end, h) == if h in all then Some(owner) else Holder(s, h) {
      assert Holder(next, h) == if h in [hash] then Some(owner) else Holder(s, h);
    }
  }

  lemma ListedThen(s: State, next: State, end: State, owner: Address, n: nat)
    requires ListedUnder(s, next, owner, 1) && ListedUnder(next, end, owner, n) && next.nextId == s.nextId + 1
    ensures ListedUnder(s, end, owner, n + 1)
  {
    assert Upward(s.nextId, n + 1) == Upward(s.nextId, 1) + Upward(next.nextId, n);
    forall a ensures Listing(end, a) == Listing(s, a) + if a == owner then Upward(s.nextId, n + 1) else [] {
      assert Listing(next, a) == Listing(s, a) + if a == owner then Upward(s.nextId, 1) else [];
    }
  }

  lemma NothingCommitted(s: State, owner: Address)
    ensures Committed(s, s, owner, [])
  {
    assert Upward(s.nextId, 0) == [];
  }

  lemma CommittedThen(s: State, next: State, end: State, owner: Address, hash: Hash, hashes: seq<Hash>)
    requires Committed(s, next, owner, [hash]) && Committed(next, end, owner, hashes)
    ensures Committed(s, end, owner, [hash] + hashes)
  {
    RecordedThen(s, next, end, owner, hash, hashes, None);
    ListedThen(s, next, end, owner, |hashes|);
  }

  lemma {:induction false} CommitAllLeaves(s: State, owner: Address, hashes: seq<Hash>)
    requires Numbered(s) && CommitAll(s, owner, hashes).Ok?
    ensures Committed(s, CommitAll(s, owner, hashes).value, owner, hashes)
    decreases |hashes|
  {
    if hashes == [] {
      NothingCommitted(s, owner);
    } else {
      var next := Register(s, owner, hashes[0], None, true);
      RegisterCommits(s, owner, hashes[0]);
      CommitAllLeaves(next, owner, hashes[1..]);
      CommittedThen(s, next, CommitAll(next, owner, hashes[1..]).value, owner, hashes[0], hashes[1..]);
      assert hashes == [hashes[0]] + hashes[1..];
    }
  }

  lemma NoneCommittedAnonymously(s: State, blinded: Hash)
    ensures CommittedAnonymously(s, s, blinded, [])
  {
  }

  lemma AnonymousCommits(s: State, blinded: Hash, hash: Hash)
    requires Numbered(s)
    ensures Numbered(RegisterAnonymous(s, blinded, hash))
    ensures CommittedAnonymously(s, RegisterAnonymous(s, blinded, hash), blinded, [hash])
  {
    var recorded := Register(s, Contract, hash, None, false);
    var s' := RegisterAnonymous(s, blinded, hash);
    RegisterRecorded(s, Contract, hash, None, false);
    RegisterListed(s, Contract, hash, None);
    assert forall a :: Listing(s', a) == Listing(recorded, a);
    assert forall h :: Holder(s', h) == Holder(recorded, h);
  }

  lemma AnonymousThen(s: State, next: State, end: State, blinded: Hash, hash: Hash, hashes: seq<Hash>)
    requires CommittedAnonymously(s, next, blinded, [hash]) && CommittedAnonymously(next, end, blinded, hashes)
    ensures CommittedAnonymously(s, end, blinded, [hash] + hashes)
  {
    RecordedThen(s, next, end, Contract, hash, hashes, None);
    forall a ensures Listing(end, a) == Listing(s, a) {
      assert Listing(next, a) == Listing(s, a);
    }
    assert forall h :: h in [hash] + hashes <==> h in [hash] || h in hashes;
  }

  lemma {:induction false} CommitAllAnonymousLeaves(s: State, blinded: Hash, hashes: seq<Hash>)
    requires Numbered(s) && CommitAllAnonymous(s, blinded, hashes).Ok?
    ensures CommittedAnonymously(s, CommitAllAnonymous(s, blinded, hashes).value, blinded, hashes)
    decreases |hashes|
  {
    if hashes == [] {
      NoneCommittedAnonymously(s, blinded);
    } else {
      var next := RegisterAnonymous(s, blinded, hashes[0]);
      assert CommitAllAnonymous(s, blinded, hashes) == CommitAllAnonymous(next, blinded, hashes[1..]);
      AnonymousCommits(s, blinded, hashes[0]);
      CommitAllAnonymousLeaves(next, blinded, hashes[1..]);
      AnonymousThen(s, next, CommitAllAnonymous(next, blinded, hashes[1..]).value, blinded, hashes[0], hashes[1..]);
      assert hashes == [hashes[0]] + hashes[1..];
    }
  }

  // ── Admission of lists of hashes ─────────────────────────────────────────

  /** After one hash has been registered, the others may be exactly if they might before, and differ from it. */
  lemma FreshAfter(s: State, next: State, hashes: seq<Hash>)
    requires hashes != [] && s.nextId !in s.records && Fresh(s, hashes[0])
    requires forall h :: Unused(next, h) <==> Unused(s, h) && h != hashes[0]
    ensures AllFresh(s, hashes) <==> AllFresh(next, hashes[1..])
    ensures forall e :: HashesSay(next, hashes[1..], e) ==> HashesSay(s, hashes, e)
  {
    DistinctSplits(hashes);
    assert forall h :: h in hashes <==> h == hashes[0] || h in hashes[1..];
    forall e | HashesSay(next, hashes[1..], e) ensures HashesSay(s, hashes, e) {
      if e.CommitmentAlreadyRegistered? && Distinct(hashes) {
        var h :| h in hashes[1..] && !Unused(next, h);
        assert h in hashes && !Unused(s, h);
      }
    }
  }

  lemma RegisterUses(s: State, next: State, owner: Address, hash: Hash, parent: Option<IpId>, h: Hash)
    requires s.nextId !in s.records
    requires next.records == s.records[s.nextId := IpRecord(owner, hash, s.now, false, [], parent)]
    ensures Unused(next, h) <==> Unused(s, h) && h != hash
  {
    if Unused(next, h) {
      forall id | id in s.records ensures s.records[id].hash != h {
        assert next.records[id] == s.records[id];
      }
      assert next.records[s.nextId].hash != h;
    }
  }

  lemma FirstHashSays(s: State, hashes: seq<Hash>, e: Error)
    requires hashes != [] && HashesSay(s, [hashes[0]], e)
    ensures HashesSay(s, hashes, e)
  {
    assert hashes[0] in hashes;
    if e.CommitmentAlreadyRegistered? {
      var h :| h in [hashes[0]] && !Unused(s, h);
    }
  }

  lemma {:induction false} CommitAllAdmits(s: State, owner: Address, hashes: seq<Hash>)
    requires Agrees(s)
    ensures CommitAll(s, owner, hashes).Ok? <==> AllFresh(s, hashes)
    ensures CommitAll(s, owner, hashes).Err? ==> HashesSay(s, hashes, CommitAll(s, owner, hashes).error)
    decreases |hashes|
  {
    if hashes == [] {
    } else {
      CheckedIsFresh(s, hashes[0]);
      if CheckHash(s, hashes[0]).Pass? {
        var next := Register(s, owner, hashes[0], None, true);
        forall h ensures Unused(next, h) <==> Unused(s, h) && h != hashes[0] {
          RegisterUses(s, next, owner, hashes[0], None, h);
        }
        FreshAfter(s, next, hashes);
        RegisterAgrees(s, owner, hashes[0], None);
        CommitAllAdmits(next, owner, hashes[1..]);
      } else {
        FirstHashSays(s, hashes, CheckHash(s, hashes[0]).error);
      }
    }
  }

  lemma {:induction false} CommitAllAnonymousAdmits(s: State, blinded: Hash, hashes: seq<Hash>)
    requires Agrees(s)
    ensures CommitAllAnonymous(s, blinded, hashes).Ok? <==> AllFresh(s, hashes)
    ensures CommitAllAnonymous(s, blinded, hashes).Err? ==>
      HashesSay(s, hashes, CommitAllAnonymous(s, blinded, hashes).error)
    decreases |hashes|
  {
    if hashes == [] {
    } else {
      CheckedIsFresh(s, hashes[0]);
      if CheckHash(s, hashes[0]).Pass? {
        var next := RegisterAnonymous(s, blinded, hashes[0]);
        forall h ensures Unused(next, h) <==> Unused(s, h) && h != hashes[0] {
          RegisterUses(s, next, Contract, hashes[0], None, h);
        }
        FreshAfter(s, next, hashes);
        RegisterAnonymousAgrees(s, blinded, hashes[0]);
        CommitAllAnonymousAdmits(next, blinded, hashes[1..]);
      } else {
        FirstHashSays(s, hashes, CheckHash(s, hashes[0]).error);
      }
    }
  }

  // ── Changes to a record ──────────────────────────────────────────────────

  lemma {:induction false} WithoutIsExcept(list: seq<IpId>, id: IpId)
    requires Distinct(list)
    ensures Without(list, id) == Except(list, id)
    ensures id !in list ==> Except(list, id) == list
  {
    if list == [] {
    } else {
      DistinctSplits(list);
      WithoutIsExcept(list[1..], id);
    }
  }

  lemma TransferListing(s: State, id: IpId, newOwner: Address, a: Address)
    requires TransferIp(s, id, newOwner).Ok? && Distinct(Listed(s, s.records[id].owner)) && Distinct(Listed(s, a))
    requires a != s.records[id].owner ==> id !in Listed(s, a)
    ensures Listing(TransferIp(s, id, newOwner).value, a)
      == Except(Listing(s, a), id) + if a == newOwner then [id] else []
  {
    WithoutIsExcept(Listed(s, a), id);
  }

  lemma TransferBooks(s: State, id: IpId, newOwner: Address)
    requires TransferIp(s, id, newOwner).Ok?
    ensures var s' := TransferIp(s, id, newOwner).value;
            && s'.records == s.records[id := s.records[id].(owner := newOwner)] && s'.nextId == s.nextId
            && (forall hash ::
                  Holder(s', hash) == if hash == s.records[id].hash then Some(newOwner) else Holder(s, hash))
            && OnlyBooks(s, s')
  {
  }

  lemma TransferLeaves(s: State, id: IpId, newOwner: Address)
    requires TransferIp(s, id, newOwner).Ok? && ListsAgree(s)
    ensures Transferred(s, TransferIp(s, id, newOwner).value, id, newOwner)
  {
    TransferBooks(s, id, newOwner);
    assert ListOk(s, s.records[id].owner);
    forall a
      ensures Listing(TransferIp(s, id, newOwner).value, a)
        == Except(Listing(s, a), id) + if a == newOwner then [id] else []
    {
      assert ListOk(s, a);
      TransferListing(s, id, newOwner, a);
    }
  }

  lemma VersionLeaves(s: State, parent: IpId, hash: Hash)
    requires s.nextId !in s.records && RegistrySpec.CreateVersion(s, parent, hash).Ok?
    ensures Versioned(s, RegistrySpec.CreateVersion(s, parent, hash).value, parent, hash)
  {
    var owner := s.records[parent].owner;
    var recorded := Register(s, owner, hash, Some(parent), true);
    var s' := RegistrySpec.CreateVersion(s, parent, hash).value;
    RegisterRecorded(s, owner, hash, Some(parent), true);
    RegisterListed(s, owner, hash, Some(parent));
    assert forall a :: Listing(s', a) == Listing(recorded, a);
    assert forall h :: Holder(s', h) == Holder(recorded, h);
  }

  lemma {:induction false} OthersAppend(list: seq<DelegationRecord>, last: DelegationRecord, a: Address)
    ensures Others(list + [last], a) == Others(list, a) + if last.delegate == a then [] else [last]
  {
    if list == [] {
    } else {
      OthersAppend(list[1..], last, a);
      assert (list + [last])[1..] == list[1..] + [last];
    }
  }

  lemma {:induction false} WithoutDelegateIsOthers(list: seq<DelegationRecord>, a: Address)
    ensures WithoutDelegate(list, a) == Others(list, a)
  {
    if list == [] {
    } else {
      var last := list[|list| - 1];
      WithoutDelegateIsOthers(list[..|list| - 1], a);
      OthersAppend(list[..|list| - 1], last, a);
      assert list == list[..|list| - 1] + [last];
    }
  }

  lemma SignersSigned(s: State, id: IpId, signer: Address)
    ensures signer in SignersOf(Signatures(s, id)) <==> HasSigned(s, id, signer)
  {
    var signers := SignersOf(Signatures(s, id));
    assert |signers| == |Signed(s, id)| && forall i :: 0 <= i < |signers| ==> signers[i] == Signed(s, id)[i].signer;
  }

  // ── Call by call ─────────────────────────────────────────────────────────

  lemma CommitObeys(s: State, owner: Address, hash: Hash, difficulty: nat)
    requires CheckHash(s, hash).Pass? <==> Fresh(s, hash)
    requires CheckHash(s, hash).Fail? ==> HashesSay(s, [hash], CheckHash(s, hash).error)
    requires ProofOfWork.HasLeadingZeros(hash.bytes, difficulty) <==> Small(hash, difficulty)
    ensures var r := CommitIp(s, owner, hash, difficulty);
            && (r.Ok? <==> MayCommit(s, owner, hash, difficulty))
            && (r.Ok? ==> r.value == Register(s, owner, hash, None, true))
            && (r.Err? ==> CommitSays(s, owner, hash, difficulty, r.error))
  {
  }

  /** The delegated form is the other one for an owner who has delegated to somebody. */
  lemma CommitDelegatedObeys(s: State, owner: Address, hash: Hash, difficulty: nat)
    ensures var r := RegistrySpec.CommitDelegated(s, owner, hash, difficulty);
            r == if owner.Account? && Delegates(s, owner) == [] then Err(Unauthorized)
                 else CommitIp(s, owner, hash, difficulty)
  {
  }

  lemma BatchObeys(s: State, owner: Address, hashes: seq<Hash>)
    requires Agrees(s)
    ensures var r := RegistrySpec.BatchCommit(s, owner, hashes);
            && (r.Ok? <==> MayBatch(s, owner, hashes)) && (r.Ok? ==> Committed(s, r.value, owner, hashes))
            && (r.Err? ==> BatchSays(s, owner, hashes, r.error))
  {
    CommitAllAdmits(s, owner, hashes);
    if CommitAll(s, owner, hashes).Ok? {
      CommitAllLeaves(s, owner, hashes);
    }
  }

  lemma AnonymousObeys(s: State, blinded: Hash, hashes: seq<Hash>)
    requires Agrees(s)
    ensures var r := RegistrySpec.BatchCommitAnonymous(s, blinded, hashes);
            && (r.Ok? <==> MayBatchAnonymously(s, hashes))
            && (r.Ok? ==> CommittedAnonymously(s, r.value, blinded, hashes))
            && (r.Err? ==> AnonymousSays(s, hashes, r.error))
  {
    CommitAllAnonymousAdmits(s, blinded, hashes);
    if CommitAllAnonymous(s, blinded, hashes).Ok? {
      CommitAllAnonymousLeaves(s, blinded, hashes);
    }
  }

  lemma TransferObeys(s: State, id: IpId, newOwner: Address)
    ensures var r := TransferIp(s, id, newOwner);
            (r.Ok? <==> OwnerSigns(s, id)) && (r.Err? ==> OwnerSays(s, id, r.error))
  {
  }

  lemma RevokeObeys(s: State, id: IpId)
    ensures var r := RevokeIp(s, id);
            && (r.Ok? <==> MayRevoke(s, id)) && (r.Ok? ==> Revoked(s, r.value, id))
            && (r.Err? ==> RevokeSays(s, id, r.error))
  {
  }

  lemma RotateObeys(s: State, id: IpId, newHash: Hash, presented: Hash)
    requires CheckHash(s, newHash).Pass? <==> Fresh(s, newHash)
    requires CheckHash(s, newHash).Fail? ==> HashesSay(s, [newHash], CheckHash(s, newHash).error)
    ensures var r := RotateKey(s, id, newHash, presented);
            && (r.Ok? <==> MayRotate(s, id, newHash, presented)) && (r.Ok? ==> Rotated(s, r.value, id, newHash))
            && (r.Err? ==> RotateSays(s, id, newHash, presented, r.error))
  {
  }

  lemma MergeObeys(s: State, primary: IpId, duplicate: IpId)
    requires HashesDiffer(s)
    ensures var r := MergeDuplicate(s, primary, duplicate);
            && (r.Ok? <==> OwnerSigns(s, primary) && duplicate == primary) && (r.Ok? ==> Revoked(s, r.value, primary))
            && (r.Err? ==> MergeSays(s, primary, duplicate, r.error))
  {
  }

  lemma VersionObeys(s: State, owner: Address, hash: Hash, parent: IpId)
    requires CheckHash(s, hash).Pass? <==> Fresh(s, hash)
    requires CheckHash(s, hash).Fail? ==> HashesSay(s, [hash], CheckHash(s, hash).error)
    ensures var r := RegistrySpec.CreateVersion(s, parent, hash);
            (r.Ok? <==> MayVersion(s, parent, hash)) && (r.Err? ==> CreateVersionSays(s, parent, hash, r.error))
    ensures var r := RegistrySpec.CommitVersion(s, owner, hash, parent);
            && (r.Ok? <==> owner.Account? && MayVersion(s, parent, hash))
            && (r.Ok? ==> r == RegistrySpec.CreateVersion(s, parent, hash))
            && (r.Err? ==> CommitVersionSays(s, owner, hash, parent, r.error))
  {
  }

  lemma RequireThresholdObeys(s: State, id: IpId, threshold: nat, signers: seq<Address>)
    ensures var r := RegistrySpec.RequireThreshold(s, id, threshold, signers);
            && (r.Ok? <==> id in s.records && 1 <= threshold <= |signers|)
            && (r.Ok? ==> Configured(s, r.value, id, threshold, signers))
            && (r.Err? ==> RequireThresholdSays(s, id, threshold, signers, r.error))
  {
  }

  lemma AddSignatureObeys(s: State, id: IpId, signer: Address, signature: Hash)
    ensures var r := RegistrySpec.AddSignature(s, id, signer, signature);
            && (r.Ok? <==> MaySign(s, id, signer)) && (r.Ok? ==> SignedBy(s, r.value, id, signer, signature))
            && (r.Err? ==> AddSignatureSays(s, id, signer, r.error))
  {
    SignersSigned(s, id, signer);
  }

  lemma DelegateObeys(s: State, root: Address, delegator: Address, delegate: Address)
    ensures var r := RegistrySpec.Delegate(s, root, delegator, delegate);
            (r.Ok? <==> MayDelegate(s, root, delegator)) && (r.Err? ==> DelegateSays(s, root, delegator, r.error))
  {
  }

  lemma DelegatesListed(s: State, root: Address, delegate: Address)
    ensures RegistryRules.IsDelegate(s, root, delegate) <==> Delegated(DelegatesOf(s.delegation, root), delegate)
  {
    var list := DelegatesOf(s.delegation, root);
    assert Delegates(s, root) == list;
    if i :| 0 <= i < |list| && list[i].delegate == delegate {
      assert Delegates(s, root)[i].delegate == delegate;
    }
  }

  lemma DelegateLeaves(s: State, root: Address, delegator: Address, delegate: Address)
    requires RegistrySpec.Delegate(s, root, delegator, delegate).Ok?
    ensures DelegatedTo(s, RegistrySpec.Delegate(s, root, delegator, delegate).value, root, delegator, delegate)
  {
    DelegatesListed(s, root, delegate);
  }

  lemma RevokeDelegationObeys(s: State, owner: Address, delegate: Address)
    ensures var r := RegistrySpec.RevokeDelegation(s, owner, delegate);
            && (r.Ok? <==> owner.Account?) && (r.Ok? ==> DelegationRevoked(s, r.value, owner, delegate))
            && (r.Err? ==> r.error == NotAuthorized && owner == Contract)
  {
    WithoutDelegateIsOthers(DelegatesOf(s.delegation, owner), delegate);
  }

  /** It goes through exactly when it may, leaves exactly what the rules say, and is refused only with an error that is
      one of its own, and true. */
  ghost predicate Obeys(s: State, op: Op) {
    && (Step(s, op).Ok? <==> May(s, op)) && (Step(s, op).Ok? ==> Leaves(s, Step(s, op).value, op))
    && (Step(s, op).Err? ==> Says(s, op, Step(s, op).error))
  }

  lemma CommitsObey(s: State, op: Op)
    requires Agrees(s) && (op.Commit? || op.CommitDelegated?)
    ensures Obeys(s, op)
  {
    CheckedIsFresh(s, op.hash);
    PowIsSmall(op.hash, op.difficulty);
    CommitObeys(s, op.owner, op.hash, op.difficulty);
    CommitDelegatedObeys(s, op.owner, op.hash, op.difficulty);
    RegisterCommits(s, op.owner, op.hash);
  }

  lemma NewRecordObeys(s: State, op: Op)
    requires Agrees(s)
    requires op.Commit? || op.CommitDelegated? || op.BatchCommit? || op.BatchCommitAnonymous?
    ensures Obeys(s, op)
  {
    if op.BatchCommit? {
      BatchObeys(s, op.owner, op.hashes);
    } else if op.BatchCommitAnonymous? {
      AnonymousObeys(s, op.blinded, op.hashes);
    } else {
      CommitsObey(s, op);
    }
  }

  lemma RecordObeys(s: State, op: Op)
    requires Agrees(s) && (op.Transfer? || op.Revoke? || op.Rotate? || op.Merge?)
    ensures Obeys(s, op)
  {
    if op.Transfer? {
      TransferObeys(s, op.id, op.newOwner);
      if OwnerSigns(s, op.id) {
        TransferLeaves(s, op.id, op.newOwner);
      }
    } else if op.Revoke? {
      RevokeObeys(s, op.id);
    } else if op.Rotate? {
      CheckedIsFresh(s, op.newHash);
      RotateObeys(s, op.id, op.newHash, op.presented);
    } else {
      MergeObeys(s, op.primary, op.duplicate);
    }
  }

  lemma VersionsObey(s: State, op: Op)
    requires Agrees(s) && (op.CreateVersion? || op.CommitVersion?)
    ensures Obeys(s, op)
  {
    CheckedIsFresh(s, op.hash);
    VersionObeys(s, if op.CommitVersion? then op.owner else Contract, op.hash, op.parent);
    if MayVersion(s, op.parent, op.hash) {
      VersionLeaves(s, op.parent, op.hash);
    }
  }

  lemma SideObeys(s: State, op: Op)
    requires op.Wait? || op.RequireThreshold? || op.AddSignature? || op.Delegate? || op.RevokeDelegation?
    ensures Obeys(s, op)
  {
    if op.RequireThreshold? {
      RequireThresholdObeys(s, op.id, op.threshold, op.signers);
    } else if op.AddSignature? {
      AddSignatureObeys(s, op.id, op.signer, op.signature);
    } else if op.Delegate? {
      DelegateObeys(s, op.root, op.delegator, op.delegate);
      if Step(s, op).Ok? {
        DelegateLeaves(s, op.root, op.delegator, op.delegate);
      }
    } else if op.RevokeDelegation? {
      RevokeDelegationObeys(s, op.owner, op.delegate);
    }
  }

  lemma StepObeys(s: State, op: Op)
    requires Agrees(s)
    ensures Obeys(s, op)
  {
    if op.Commit? || op.CommitDelegated? || op.BatchCommit? || op.BatchCommitAnonymous? {
      NewRecordObeys(s, op);
    } else if op.Transfer? || op.Revoke? || op.Rotate? || op.Merge? {
      RecordObeys(s, op);
    } else if op.CreateVersion? || op.CommitVersion? {
      VersionsObey(s, op);
    } else {
      SideObeys(s, op);
    }
  }

  // ── All calls, in every reachable registry ───────────────────────────────

  /** In every reachable registry the next call obeys the rules. */
  lemma RunObeys(s: State, ops: seq<Op>, op: Op)
    requires Genesis(s)
    ensures Obeys(Run(s, ops), op)
  {
    RunAgrees(s, ops);
    StepObeys(Run(s, ops), op);
  }

  /** A rotation goes through exactly with the secret of the current hash, and a new hash; it leaves every other record
      alone, and all of this one but its hash, which becomes the last of its rotations. */
  lemma RotatesExactly(s: State, id: IpId, newHash: Hash, presented: Hash)
    requires Agrees(s)
    ensures Step(s, Rotate(id, newHash, presented)).Ok?
      <==> && id in s.records && s.records[id].owner.Account? && !s.records[id].revoked
           && presented == s.records[id].hash
           && newHash != ZERO_HASH && forall j :: j in s.records ==> s.records[j].hash != newHash
    ensures Step(s, Rotate(id, newHash, presented)).Ok? ==>
      var s' := Step(s, Rotate(id, newHash, presented)).value;
      && s'.records == s.records[id := s.records[id].(hash := newHash)]
      && Rotations(s', id) == Rotations(s, id) + [s.records[id].hash]
  {
    CheckedIsFresh(s, newHash);
    RotateObeys(s, id, newHash, presented);
  }
}

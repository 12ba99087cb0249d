/** The registry's indexes agree with its records in every reachable state. */
module RegistryAgreement {
  import opened Common
  import opened RegistryState
  import opened RegistrySpec
  import opened RegistryRuns
  import ProofOfWork

  // ── The invariant ────────────────────────────────────────────────────────

  function Hashes(s: State): set<Hash> {
    set id | id in s.records :: s.records[id].hash
  }

  /** A record that was not committed anonymously. */
  predicate Named(s: State, id: IpId)
    requires id in s.records
  {
    s.records[id].hash !in s.anonymous
  }

  predicate RecordOk(s: State, id: IpId)
    requires id in s.records
  {
    var r := s.records[id];
    && r.hash != ZERO_HASH && r.hash in s.commitmentOwner && s.commitmentOwner[r.hash] == r.owner
    && (if Named(s, id) then id in Listed(s, r.owner) else r.owner == Contract)
    && (r.parent.Some? ==> r.parent.value < id && r.parent.value in s.records)
  }

  ghost predicate ListOk(s: State, a: Address) {
    Distinct(Listed(s, a)) && forall id :: id in Listed(s, a) ==>
      id in s.records && s.records[id].owner == a && Named(s, id)
  }

  ghost predicate HashesDiffer(s: State) {
    forall i, j :: i in s.records && j in s.records && i != j ==> s.records[i].hash != s.records[j].hash
  }

  ghost predicate RecordsAgree(s: State) {
    && s.nextId >= 1 && (forall id :: id in s.records <==> 1 <= id < s.nextId)
    && (forall id :: id in s.records ==> RecordOk(s, id))
    && HashesDiffer(s)
  }

  ghost predicate ListsAgree(s: State) {
    forall a :: ListOk(s, a)
  }

  ghost predicate IndexAgrees(s: State) {
    s.commitmentOwner.Keys == Hashes(s) && s.anonymous.Keys <= s.commitmentOwner.Keys
  }

  ghost predicate Agrees(s: State) {
    RecordsAgree(s) && ListsAgree(s) && IndexAgrees(s)
  }

  // ── New records ──────────────────────────────────────────────────────────

  lemma RegisterHashes(s: State, owner: Address, hash: Hash, parent: Option<IpId>, listed: bool)
    requires s.nextId !in s.records
    ensures Hashes(Register(s, owner, hash, parent, listed)) == Hashes(s) + {hash}
  {
    var s' := Register(s, owner, hash, parent, listed);
    assert s'.records[s.nextId].hash == hash;
    forall h | h in Hashes(s) ensures h in Hashes(s') {
      var id :| id in s.records && s.records[id].hash == h;
      assert s'.records[id].hash == h;
    }
  }

  lemma RegisterList(s: State, owner: Address, hash: Hash, parent: Option<IpId>, a: Address)
    requires ListOk(s, a) && s.nextId !in s.records && hash !in s.anonymous
    ensures ListOk(Register(s, owner, hash, parent, true), a)
  {
  }

  lemma RegisterRecord(s: State, owner: Address, hash: Hash, parent: Option<IpId>, id: IpId)
    requires s.nextId !in s.records && hash !in s.commitmentOwner && hash !in s.anonymous && hash != ZERO_HASH
    requires parent.Some? ==> parent.value < s.nextId && parent.value in s.records
    requires id == s.nextId || (id in s.records && RecordOk(s, id))
    ensures RecordOk(Register(s, owner, hash, parent, true), id)
  {
  }

  lemma RegisterDiffers(s: State, owner: Address, hash: Hash, parent: Option<IpId>, listed: bool)
    requires HashesDiffer(s) && forall id :: id in s.records ==> s.records[id].hash != hash
    ensures HashesDiffer(Register(s, owner, hash, parent, listed))
  {
  }

  lemma HashIsNew(s: State, hash: Hash)
    requires RecordsAgree(s) && CheckHash(s, hash).Pass?
    ensures forall id :: id in s.records ==> s.records[id].hash != hash
  {
    forall id | id in s.records ensures s.records[id].hash != hash {
      assert RecordOk(s, id);
    }
  }

  lemma RegisterRecords(s: State, owner: Address, hash: Hash, parent: Option<IpId>)
    requires RecordsAgree(s) && CheckHash(s, hash).Pass? && hash !in s.anonymous
    requires parent.Some? ==> parent.value in s.records
    ensures RecordsAgree(Register(s, owner, hash, parent, true))
  {
    var s' := Register(s, owner, hash, parent, true);
    HashIsNew(s, hash);
    RegisterDiffers(s, owner, hash, parent, true);
    forall id | id in s'.records ensures RecordOk(s', id) {
      assert id != s.nextId ==> RecordOk(s, id);
      RegisterRecord(s, owner, hash, parent, id);
    }
  }

  lemma RegisterLists(s: State, owner: Address, hash: Hash, parent: Option<IpId>)
    requires ListsAgree(s) && s.nextId !in s.records && hash !in s.anonymous
    ensures ListsAgree(Register(s, owner, hash, parent, true))
  {
    forall a ensures ListOk(Register(s, owner, hash, parent, true), a) {
      assert ListOk(s, a);
      RegisterList(s, owner, hash, parent, a);
    }
  }

  lemma RegisterIndex(s: State, owner: Address, hash: Hash, parent: Option<IpId>, listed: bool)
    requires IndexAgrees(s) && s.nextId !in s.records
    ensures IndexAgrees(Register(s, owner, hash, parent, listed))
  {
    RegisterHashes(s, owner, hash, parent, listed);
  }

  lemma RegisterAgrees(s: State, owner: Address, hash: Hash, parent: Option<IpId>)
    requires Agrees(s) && CheckHash(s, hash).Pass? && (parent.Some? ==> parent.value in s.records)
    ensures Agrees(Register(s, owner, hash, parent, true))
  {
    RegisterRecords(s, owner, hash, parent);
    RegisterLists(s, owner, hash, parent);
    RegisterIndex(s, owner, hash, parent, true);
  }

  lemma AnonymousList(s: State, blinded: Hash, hash: Hash, a: Address)
    requires ListOk(s, a) && s.nextId !in s.records && forall id :: id in s.records ==> s.records[id].hash != hash
    ensures ListOk(RegisterAnonymous(s, blinded, hash), a)
  {
    var s' := RegisterAnonymous(s, blinded, hash);
    assert Listed(s', a) == Listed(s, a);
  }

  lemma AnonymousRecord(s: State, blinded: Hash, hash: Hash, id: IpId)
    requires s.nextId !in s.records && hash !in s.commitmentOwner && hash != ZERO_HASH
    requires id == s.nextId || (id in s.records && RecordOk(s, id))
    ensures RecordOk(RegisterAnonymous(s, blinded, hash), id)
  {
  }

  lemma AnonymousRecords(s: State, blinded: Hash, hash: Hash)
    requires RecordsAgree(s) && CheckHash(s, hash).Pass?
    ensures RecordsAgree(RegisterAnonymous(s, blinded, hash))
  {
    var s' := RegisterAnonymous(s, blinded, hash);
    HashIsNew(s, hash);
    RegisterDiffers(s, Contract, hash, None, false);
    forall id | id in s'.records ensures RecordOk(s', id) {
      assert id != s.nextId ==> RecordOk(s, id);
      AnonymousRecord(s, blinded, hash, id);
    }
  }

  lemma AnonymousLists(s: State, blinded: Hash, hash: Hash)
    requires ListsAgree(s) && s.nextId !in s.records && forall id :: id in s.records ==> s.records[id].hash != hash
    ensures ListsAgree(RegisterAnonymous(s, blinded, hash))
  {
    forall a ensures ListOk(RegisterAnonymous(s, blinded, hash), a) {
      assert ListOk(s, a);
      AnonymousList(s, blinded, hash, a);
    }
  }

  lemma AnonymousIndex(s: State, blinded: Hash, hash: Hash)
    requires IndexAgrees(s) && s.nextId !in s.records
    ensures IndexAgrees(RegisterAnonymous(s, blinded, hash))
  {
    RegisterIndex(s, Contract, hash, None, false);
    assert Hashes(RegisterAnonymous(s, blinded, hash)) == Hashes(Register(s, Contract, hash, None, false));
  }

  lemma RegisterAnonymousAgrees(s: State, blinded: Hash, hash: Hash)
    requires Agrees(s) && CheckHash(s, hash).Pass?
    ensures Agrees(RegisterAnonymous(s, blinded, hash))
  {
    HashIsNew(s, hash);
    AnonymousRecords(s, blinded, hash);
    AnonymousLists(s, blinded, hash);
    AnonymousIndex(s, blinded, hash);
  }

  lemma {:induction false} CommitAllAgrees(s: State, owner: Address, hashes: seq<Hash>)
    requires Agrees(s) && CommitAll(s, owner, hashes).Ok?
    ensures Agrees(CommitAll(s, owner, hashes).value)
    decreases |hashes|
  {
    if hashes == [] {
    } else {
      RegisterAgrees(s, owner, hashes[0], None);
      CommitAllAgrees(Register(s, owner, hashes[0], None, true), owner, hashes[1..]);
    }
  }

  lemma {:induction false} CommitAllAnonymousAgrees(s: State, blinded: Hash, hashes: seq<Hash>)
    requires Agrees(s) && CommitAllAnonymous(s, blinded, hashes).Ok?
    ensures Agrees(CommitAllAnonymous(s, blinded, hashes).value)
    decreases |hashes|
  {
    if hashes == [] {
    } else {
      RegisterAnonymousAgrees(s, blinded, hashes[0]);
      CommitAllAnonymousAgrees(RegisterAnonymous(s, blinded, hashes[0]), blinded, hashes[1..]);
    }
  }

  // ── Changes to records ───────────────────────────────────────────────────

  lemma {:induction false} WithoutRemoves(list: seq<IpId>, id: IpId)
    requires Distinct(list)
    ensures Distinct(Without(list, id))
    ensures forall x :: x in Without(list, id) <==> x in list && x != id
  {
    if list == [] {
    } else {
      assert list[0] !in list[1..];
      WithoutRemoves(list[1..], id);
      assert forall x :: x in list <==> x == list[0] || x in list[1..];
    }
  }

  lemma SameHashes(s: State, s': State)
    requires s.records.Keys == s'.records.Keys
    requires forall id :: id in s.records ==> s.records[id].hash == s'.records[id].hash
    ensures Hashes(s) == Hashes(s')
  {
    forall h | h in Hashes(s) ensures h in Hashes(s') {
      var id :| id in s.records && s.records[id].hash == h;
      assert s'.records[id].hash == h;
    }
    forall h | h in Hashes(s') ensures h in Hashes(s) {
      var id :| id in s'.records && s'.records[id].hash == h;
      assert s.records[id].hash == h;
    }
  }

  /** The lists after a transfer, to another owner, to the same one, or to the contract. */
  lemma TransferEntries(s: State, id: IpId, newOwner: Address, a: Address, j: IpId)
    requires TransferIp(s, id, newOwner).Ok? && Distinct(Listed(s, s.records[id].owner))
    requires a != s.records[id].owner ==> id !in Listed(s, a)
    ensures j in Listed(TransferIp(s, id, newOwner).value, a) <==> if j == id then a == newOwner else j in Listed(s, a)
  {
    WithoutRemoves(Listed(s, s.records[id].owner), id);
  }

  lemma DistinctAppend(list: seq<IpId>, id: IpId)
    requires Distinct(list) && id !in list
    ensures Distinct(list + [id])
  {
  }

  lemma TransferDistinct(s: State, id: IpId, newOwner: Address, a: Address)
    requires TransferIp(s, id, newOwner).Ok? && Distinct(Listed(s, s.records[id].owner)) && Distinct(Listed(s, a))
    requires a != s.records[id].owner ==> id !in Listed(s, a)
    ensures Distinct(Listed(TransferIp(s, id, newOwner).value, a))
  {
    var seller := s.records[id].owner;
    WithoutRemoves(Listed(s, seller), id);
    var before := if a == seller then Without(Listed(s, a), id) else Listed(s, a);
    DistinctAppend(before, id);
    assert Listed(TransferIp(s, id, newOwner).value, a) == if a == newOwner then before + [id] else before;
  }

  lemma TransferList(s: State, id: IpId, newOwner: Address, a: Address)
    requires TransferIp(s, id, newOwner).Ok? && RecordOk(s, id) && ListOk(s, a) && ListOk(s, s.records[id].owner)
    ensures ListOk(TransferIp(s, id, newOwner).value, a)
  {
    var s' := TransferIp(s, id, newOwner).value;
    TransferDistinct(s, id, newOwner, a);
    forall j | j in Listed(s', a) ensures j in s'.records && s'.records[j].owner == a && Named(s', j) {
      TransferEntries(s, id, newOwner, a, j);
    }
  }

  lemma TransferRecord(s: State, id: IpId, newOwner: Address, j: IpId)
    requires TransferIp(s, id, newOwner).Ok? && j in s.records && RecordOk(s, id) && RecordOk(s, j)
    requires ListOk(s, s.records[id].owner)
    requires id != j ==> s.records[id].hash != s.records[j].hash
    requires forall a | a != s.records[id].owner :: id !in Listed(s, a)
    ensures RecordOk(TransferIp(s, id, newOwner).value, j)
  {
    var s' := TransferIp(s, id, newOwner).value;
    TransferEntries(s, id, newOwner, s'.records[j].owner, j);
  }

  lemma TransferListsAgree(s: State, id: IpId, newOwner: Address)
    requires ListsAgree(s) && TransferIp(s, id, newOwner).Ok? && RecordOk(s, id)
    ensures ListsAgree(TransferIp(s, id, newOwner).value)
  {
    assert ListOk(s, s.records[id].owner);
    forall a ensures ListOk(TransferIp(s, id, newOwner).value, a) {
      assert ListOk(s, a);
      TransferList(s, id, newOwner, a);
    }
  }

  lemma TransferRecordsAgree(s: State, id: IpId, newOwner: Address)
    requires RecordsAgree(s) && ListsAgree(s) && TransferIp(s, id, newOwner).Ok?
    ensures RecordsAgree(TransferIp(s, id, newOwner).value)
  {
    var s' := TransferIp(s, id, newOwner).value;
    assert RecordOk(s, id) && ListOk(s, s.records[id].owner);
    forall a | a != s.records[id].owner ensures id !in Listed(s, a) {
      assert ListOk(s, a);
    }
    forall j | j in s'.records ensures RecordOk(s', j) {
      assert RecordOk(s, j);
      TransferRecord(s, id, newOwner, j);
    }
  }

  lemma TransferIndexAgrees(s: State, id: IpId, newOwner: Address)
    requires IndexAgrees(s) && TransferIp(s, id, newOwner).Ok? && RecordOk(s, id)
    ensures IndexAgrees(TransferIp(s, id, newOwner).value)
  {
    SameHashes(s, TransferIp(s, id, newOwner).value);
  }

  lemma TransferAgrees(s: State, id: IpId, newOwner: Address)
    requires Agrees(s) && TransferIp(s, id, newOwner).Ok?
    ensures Agrees(TransferIp(s, id, newOwner).value)
  {
    assert RecordOk(s, id);
    TransferIndexAgrees(s, id, newOwner);
    TransferListsAgree(s, id, newOwner);
    TransferRecordsAgree(s, id, newOwner);
  }

  predicate SameEssentials(a: IpRecord, b: IpRecord) {
    a.owner == b.owner && a.hash == b.hash && a.parent == b.parent
  }

  /** Changes that leave owners, hashes, parents and indexes alone. */
  ghost predicate SameBooks(s: State, s': State) {
    && s'.records.Keys == s.records.Keys && s'.nextId == s.nextId
    && s'.ownerIps == s.ownerIps && s'.commitmentOwner == s.commitmentOwner && s'.anonymous == s.anonymous
    && (forall id :: id in s.records ==> SameEssentials(s.records[id], s'.records[id]))
  }

  lemma SameBooksRecords(s: State, s': State)
    requires RecordsAgree(s) && SameBooks(s, s')
    ensures RecordsAgree(s')
  {
    forall id | id in s'.records ensures RecordOk(s', id) {
      assert RecordOk(s, id);
    }
  }

  lemma SameBooksLists(s: State, s': State)
    requires ListsAgree(s) && SameBooks(s, s')
    ensures ListsAgree(s')
  {
    forall a ensures ListOk(s', a) {
      assert ListOk(s, a);
    }
  }

  lemma SameBooksAgree(s: State, s': State)
    requires Agrees(s) && SameBooks(s, s')
    ensures Agrees(s')
  {
    SameBooksRecords(s, s');
    SameBooksLists(s, s');
    SameHashes(s, s');
  }

  lemma RotateHashes(s: State, id: IpId, newHash: Hash, presented: Hash)
    requires HashesDiffer(s) && RotateKey(s, id, newHash, presented).Ok?
    ensures Hashes(RotateKey(s, id, newHash, presented).value) == Hashes(s) - {s.records[id].hash} + {newHash}
  {
    var s' := RotateKey(s, id, newHash, presented).value;
    assert s'.records[id].hash == newHash;
    forall h | h in Hashes(s) && h != s.records[id].hash ensures h in Hashes(s') {
      var j :| j in s.records && s.records[j].hash == h;
      assert s'.records[j].hash == h;
    }
    forall h | h in Hashes(s') && h != newHash ensures h in Hashes(s) && h != s.records[id].hash {
      var j :| j in s'.records && s'.records[j].hash == h;
      assert s.records[j].hash == h;
    }
  }

  lemma RotateRecordsAgree(s: State, id: IpId, newHash: Hash, presented: Hash)
    requires RecordsAgree(s) && RotateKey(s, id, newHash, presented).Ok? && newHash !in s.anonymous
    ensures RecordsAgree(RotateKey(s, id, newHash, presented).value)
  {
    var s' := RotateKey(s, id, newHash, presented).value;
    HashIsNew(s, newHash);
    assert RecordOk(s, id);
    forall j | j in s'.records ensures RecordOk(s', j) {
      assert RecordOk(s, j);
    }
  }

  lemma RotateListsAgree(s: State, id: IpId, newHash: Hash, presented: Hash)
    requires ListsAgree(s) && RotateKey(s, id, newHash, presented).Ok? && newHash !in s.anonymous
    ensures ListsAgree(RotateKey(s, id, newHash, presented).value)
  {
    forall a ensures ListOk(RotateKey(s, id, newHash, presented).value, a) {
      assert ListOk(s, a);
    }
  }

  lemma RotateIndexAgrees(s: State, id: IpId, newHash: Hash, presented: Hash)
    requires IndexAgrees(s) && HashesDiffer(s) && RotateKey(s, id, newHash, presented).Ok? && RecordOk(s, id)
    ensures IndexAgrees(RotateKey(s, id, newHash, presented).value)
  {
    RotateHashes(s, id, newHash, presented);
  }

  lemma RotateAgrees(s: State, id: IpId, newHash: Hash, presented: Hash)
    requires Agrees(s) && RotateKey(s, id, newHash, presented).Ok?
    ensures Agrees(RotateKey(s, id, newHash, presented).value)
  {
    assert RecordOk(s, id);
    RotateRecordsAgree(s, id, newHash, presented);
    RotateListsAgree(s, id, newHash, presented);
    RotateIndexAgrees(s, id, newHash, presented);
  }

  /** Two records never share a hash, so a merge can only ever be of a record with itself: it revokes it. */
  lemma MergeOnlyRevokes(s: State, primary: IpId, duplicate: IpId)
    requires Agrees(s)
    ensures MergeDuplicate(s, primary, duplicate).Ok? ==>
      primary == duplicate
      && MergeDuplicate(s, primary, duplicate).value
         == s.(records := s.records[primary := s.records[primary].(revoked := true)])
  {
  }

  // ── Runs ─────────────────────────────────────────────────────────────────

  lemma VersionBooks(s: State, parent: IpId, hash: Hash)
    requires RegistrySpec.CreateVersion(s, parent, hash).Ok?
    ensures SameBooks(Register(s, s.records[parent].owner, hash, Some(parent), true),
                      RegistrySpec.CreateVersion(s, parent, hash).value)
  {
  }

  lemma VersionAgrees(s: State, parent: IpId, hash: Hash)
    requires Agrees(s) && RegistrySpec.CreateVersion(s, parent, hash).Ok?
    ensures Agrees(RegistrySpec.CreateVersion(s, parent, hash).value)
  {
    RegisterAgrees(s, s.records[parent].owner, hash, Some(parent));
    VersionBooks(s, parent, hash);
    SameBooksAgree(Register(s, s.records[parent].owner, hash, Some(parent), true),
                   RegistrySpec.CreateVersion(s, parent, hash).value);
  }

  lemma CommitStepAgrees(s: State, op: Op)
    requires Agrees(s) && Step(s, op).Ok?
    requires op.Commit? || op.BatchCommit? || op.BatchCommitAnonymous?
      || op.CommitDelegated? || op.CreateVersion? || op.CommitVersion?
    ensures Agrees(Step(s, op).value)
  {
    match op
    case Commit(owner, hash, _) => RegisterAgrees(s, owner, hash, None);
    case BatchCommit(owner, hashes) => CommitAllAgrees(s, owner, hashes);
    case BatchCommitAnonymous(blinded, hashes) => CommitAllAnonymousAgrees(s, blinded, hashes);
    case CommitDelegated(owner, hash, _) => RegisterAgrees(s, owner, hash, None);
    case CreateVersion(parent, hash) => VersionAgrees(s, parent, hash);
    case CommitVersion(_, hash, parent) => VersionAgrees(s, parent, hash);
  }

  lemma MergeAgrees(s: State, primary: IpId, duplicate: IpId)
    requires Agrees(s) && MergeDuplicate(s, primary, duplicate).Ok?
    ensures Agrees(MergeDuplicate(s, primary, duplicate).value)
  {
    MergeOnlyRevokes(s, primary, duplicate);
    SameBooksAgree(s, MergeDuplicate(s, primary, duplicate).value);
  }

  predicate IsSideStep(op: Op) {
    op.Wait? || op.Revoke? || op.RequireThreshold? || op.AddSignature? || op.Delegate? || op.RevokeDelegation?
  }

  lemma SideStepSameBooks(s: State, op: Op)
    requires IsSideStep(op) && Step(s, op).Ok?
    ensures SameBooks(s, Step(s, op).value)
  {
    var s' := Step(s, op).value;
    assert s'.records.Keys == s.records.Keys;
  }

  lemma SideStepAgrees(s: State, op: Op)
    requires Agrees(s) && IsSideStep(op) && Step(s, op).Ok?
    ensures Agrees(Step(s, op).value)
  {
    SideStepSameBooks(s, op);
    SameBooksAgree(s, Step(s, op).value);
  }

  lemma StepAgrees(s: State, op: Op)
    requires Agrees(s) && Step(s, op).Ok?
    ensures Agrees(Step(s, op).value)
  {
    match op
    case Transfer(id, newOwner) => TransferAgrees(s, id, newOwner);
    case Rotate(id, newHash, presented) => RotateAgrees(s, id, newHash, presented);
    case Merge(primary, duplicate) => MergeAgrees(s, primary, duplicate);
    case Wait(_) => SideStepAgrees(s, op);
    case Revoke(_) => SideStepAgrees(s, op);
    case RequireThreshold(_, _, _) => SideStepAgrees(s, op);
    case AddSignature(_, _, _) => SideStepAgrees(s, op);
    case Delegate(_, _, _) => SideStepAgrees(s, op);
    case RevokeDelegation(_, _) => SideStepAgrees(s, op);
    case _ => CommitStepAgrees(s, op);
  }

  /** Whatever is called, in every reachable state the ids are 1 to NextId - 1, no two records share a hash,
      the commitment index holds exactly the current hashes with their current owners, and the list of every
      owner holds, once each, exactly the ids of his named records. */
  lemma {:induction false} RunAgrees(s: State, ops: seq<Op>)
    requires Genesis(s)
    ensures Agrees(Run(s, ops))
    decreases |ops|
  {
    if ops == [] {
      assert Hashes(s) == {};
    } else {
      RunAgrees(s, ops[..|ops| - 1]);
      if Step(Run(s, ops[..|ops| - 1]), ops[|ops| - 1]).Ok? {
        StepAgrees(Run(s, ops[..|ops| - 1]), ops[|ops| - 1]);
      }
    }
  }

  // ── What follows ─────────────────────────────────────────────────────────

  /** An ordinary owner's list holds exactly his ids. */
  lemma OwnerListExact(s: State, a: Address, id: IpId)
    requires Agrees(s) && a.Account?
    ensures id in Listed(s, a) <==> id in s.records && s.records[id].owner == a
  {
    assert ListOk(s, a);
    if id in s.records {
      assert RecordOk(s, id);
    }
  }

  lemma {:induction false} FirstWithFinds(records: map<IpId, IpRecord>, ids: seq<IpId>, hash: Hash)
    ensures match FirstWith(records, ids, hash)
            case Some(id) => id in ids && id in records && records[id].hash == hash
            case None => forall id :: id in ids && id in records ==> records[id].hash != hash
  {
    if ids == [] {
    } else {
      FirstWithFinds(records, ids[1..], hash);
    }
  }

  /** The search by trying every id in turn. */
  function Scan(s: State, n: nat, hash: Hash): Option<IpId> {
    if n == 0 then None
    else if Scan(s, n - 1, hash).Some? then Scan(s, n - 1, hash)
    else if n - 1 in s.records && s.records[n - 1].hash == hash && Named(s, n - 1) then Some(n - 1)
    else None
  }

  lemma {:induction false} ScanFinds(s: State, n: nat, hash: Hash)
    ensures match Scan(s, n, hash)
            case Some(id) => id < n && id in s.records && s.records[id].hash == hash && Named(s, id)
            case None => forall id: nat :: id < n && id in s.records && Named(s, id) ==> s.records[id].hash != hash
  {
    if n == 0 {
    } else {
      ScanFinds(s, n - 1, hash);
    }
  }

  /** The search through the owner's list finds what trying every named record would. */
  lemma FindIsScan(s: State, hash: Hash)
    requires Agrees(s)
    ensures FindDuplicate(s, hash) == Scan(s, s.nextId, hash)
  {
    ScanFinds(s, s.nextId, hash);
    if hash in s.commitmentOwner {
      var owner := s.commitmentOwner[hash];
      FirstWithFinds(s.records, Listed(s, owner), hash);
      assert ListOk(s, owner);
      if Scan(s, s.nextId, hash).Some? {
        assert RecordOk(s, Scan(s, s.nextId, hash).value);
      }
    } else {
      forall id | id in s.records ensures s.records[id].hash != hash {
        assert RecordOk(s, id);
      }
    }
  }

  /** No commit of a 32-byte hash at difficulty 256 or more ever succeeds: only the zero hash would pass. */
  lemma NothingPassesFullDifficulty(s: State, owner: Address, hash: Hash, difficulty: nat)
    requires |hash.bytes| == 32 && difficulty >= 256
    ensures CommitIp(s, owner, hash, difficulty).Err? && RegistrySpec.CommitDelegated(s, owner, hash, difficulty).Err?
  {
    ProofOfWork.OnlyZeroPasses(hash.bytes, difficulty);
    if ProofOfWork.HasLeadingZeros(hash.bytes, difficulty) {
      assert hash.bytes == ZERO_HASH.bytes;
      assert hash == ZERO_HASH;
    }
  }
}

/** The version forest: parents, roots, chains and lineages. */
module VersionForest {
  import opened Common
  import opened RegistryState
  import opened RegistrySpec
  import opened RegistryRuns
  import opened RegistryAgreement

  type Records = map<IpId, IpRecord>

  // ── What the chains should be ────────────────────────────────────────────

  predicate ParentOk(records: Records, id: IpId)
    requires id in records
  {
    records[id].parent.Some? ==> records[id].parent.value < id && records[id].parent.value in records
  }

  ghost predicate ParentsOk(records: Records) {
    forall id :: id in records ==> ParentOk(records, id)
  }

  /** The ids below `n` whose parent is `p`, in ascending order. */
  function Children(records: Records, p: IpId, n: nat): seq<IpId> {
    if n == 0 then []
    else Children(records, p, n - 1) + (if n - 1 in records && records[n - 1].parent == Some(p) then [n - 1] else [])
  }

  /** The ids below `n` whose walk from parent to parent ends at `r`, in ascending order. */
  function Family(records: Records, r: IpId, n: nat): seq<IpId> {
    if n == 0 then []
    else Family(records, r, n - 1) + (if n - 1 in records && RootOf(records, n - 1) == r then [n - 1] else [])
  }

  predicate IsRoot(records: Records, r: IpId) {
    r in records && records[r].parent.None?
  }

  predicate VersionsOk(s: State, p: IpId) {
    Lookup(s.forest.versions, p, []) == Children(s.records, p, s.nextId)
  }

  predicate ChainOk(s: State, r: IpId) {
    IsRoot(s.records, r) ==> Lookup(s.forest.chains, r, [r]) == Family(s.records, r, s.nextId)
  }

  ghost predicate ForestOk(s: State) {
    && (forall id :: id in s.records ==> id < s.nextId)
    && ParentsOk(s.records)
    && s.forest.chains.Keys <= s.records.Keys
    && (forall p :: VersionsOk(s, p))
    && (forall r :: ChainOk(s, r))
  }

  // ── Walks ────────────────────────────────────────────────────────────────

  lemma {:induction false} RootFacts(records: Records, id: IpId)
    requires ParentsOk(records) && id in records
    ensures IsRoot(records, RootOf(records, id)) && RootOf(records, id) <= id
    ensures IsRoot(records, id) <==> RootOf(records, id) == id
    decreases id
  {
    assert ParentOk(records, id);
    if records[id].parent.None? {
    } else {
      RootFacts(records, records[id].parent.value);
    }
  }

  /** A new record above all others changes no walk, no family and no list of children below it. */
  lemma {:induction false} RootStays(records: Records, n: IpId, rec: IpRecord, id: IpId)
    requires ParentsOk(records) && id in records && n !in records
    ensures RootOf(records[n := rec], id) == RootOf(records, id)
    decreases id
  {
    assert ParentOk(records, id);
    if records[id].parent.None? {
    } else {
      RootStays(records, n, rec, records[id].parent.value);
    }
  }

  lemma {:induction false} ListsStay(records: Records, n: IpId, rec: IpRecord, r: IpId, m: nat)
    requires ParentsOk(records) && n !in records && m <= n
    ensures Family(records[n := rec], r, m) == Family(records, r, m)
    ensures Children(records[n := rec], r, m) == Children(records, r, m)
  {
    if m == 0 {
    } else {
      ListsStay(records, n, rec, r, m - 1);
      if m - 1 in records {
        RootStays(records, n, rec, m - 1);
      }
    }
  }

  /** Changes that leave the parents alone change no walk either. */
  ghost predicate SameParents(a: Records, b: Records) {
    a.Keys == b.Keys && forall id :: id in a ==> a[id].parent == b[id].parent
  }

  lemma {:induction false} SameRoot(a: Records, b: Records, id: IpId)
    requires SameParents(a, b)
    ensures RootOf(a, id) == RootOf(b, id)
    decreases id
  {
    if id in a && a[id].parent.Some? && a[id].parent.value < id {
      SameRoot(a, b, a[id].parent.value);
    }
  }

  lemma {:induction false} SameLists(a: Records, b: Records, r: IpId, n: nat)
    requires SameParents(a, b)
    ensures Family(a, r, n) == Family(b, r, n) && Children(a, r, n) == Children(b, r, n)
  {
    if n == 0 {
    } else {
      SameLists(a, b, r, n - 1);
      SameRoot(a, b, n - 1);
    }
  }

  /** Nothing below a root, and nothing below its first child, belongs to it. */
  lemma {:induction false} NothingBelow(records: Records, r: IpId, n: nat)
    requires ParentsOk(records)
    ensures n <= r ==> Family(records, r, n) == []
    ensures n <= r + 1 ==> Children(records, r, n) == []
  {
    if n == 0 {
    } else {
      NothingBelow(records, r, n - 1);
      if n - 1 in records {
        RootFacts(records, n - 1);
        assert ParentOk(records, n - 1);
      }
    }
  }

  // ── Steps ────────────────────────────────────────────────────────────────

  lemma SameForest(s: State, s': State)
    requires ForestOk(s) && SameParents(s.records, s'.records) && s'.nextId == s.nextId && s'.forest == s.forest
    ensures ForestOk(s')
  {
    forall id | id in s'.records ensures ParentOk(s'.records, id) {
      assert ParentOk(s.records, id);
    }
    forall p ensures VersionsOk(s', p) {
      assert VersionsOk(s, p);
      SameLists(s.records, s'.records, p, s.nextId);
    }
    forall r ensures ChainOk(s', r) {
      assert ChainOk(s, r);
      SameLists(s.records, s'.records, r, s.nextId);
    }
  }

  lemma RootVersions(s: State, s': State, rec: IpRecord, p: IpId)
    requires ForestOk(s) && VersionsOk(s, p) && s.nextId !in s.records && rec.parent.None?
    requires s'.records == s.records[s.nextId := rec] && s'.nextId == s.nextId + 1 && s'.forest == s.forest
    ensures VersionsOk(s', p)
  {
    ListsStay(s.records, s.nextId, rec, p, s.nextId);
  }

  lemma RootChain(s: State, s': State, rec: IpRecord, r: IpId)
    requires ForestOk(s) && ChainOk(s, r) && s.nextId !in s.records && rec.parent.None?
    requires s'.records == s.records[s.nextId := rec] && s'.nextId == s.nextId + 1 && s'.forest == s.forest
    ensures ChainOk(s', r)
  {
    ListsStay(s.records, s.nextId, rec, r, s.nextId);
    NothingBelow(s.records, s.nextId, s.nextId);
    assert RootOf(s'.records, s.nextId) == s.nextId;
  }

  /** A record without a parent starts a tree of its own. */
  lemma NewRoot(s: State, s': State, rec: IpRecord)
    requires ForestOk(s) && s.nextId !in s.records && rec.parent.None?
    requires s'.records == s.records[s.nextId := rec] && s'.nextId == s.nextId + 1 && s'.forest == s.forest
    ensures ForestOk(s')
  {
    forall id | id in s'.records ensures ParentOk(s'.records, id) {
      assert id != s.nextId ==> ParentOk(s.records, id);
    }
    forall p ensures VersionsOk(s', p) {
      assert VersionsOk(s, p);
      RootVersions(s, s', rec, p);
    }
    forall r ensures ChainOk(s', r) {
      assert ChainOk(s, r);
      RootChain(s, s', rec, r);
    }
  }

  lemma VersionVersions(s: State, parent: IpId, hash: Hash, p: IpId)
    requires ForestOk(s) && VersionsOk(s, p) && RegistrySpec.CreateVersion(s, parent, hash).Ok?
    ensures VersionsOk(RegistrySpec.CreateVersion(s, parent, hash).value, p)
  {
    var s' := RegistrySpec.CreateVersion(s, parent, hash).value;
    ListsStay(s.records, s.nextId, s'.records[s.nextId], p, s.nextId);
  }

  lemma VersionChainOk(s: State, parent: IpId, hash: Hash, r: IpId)
    requires ForestOk(s) && ChainOk(s, r) && RegistrySpec.CreateVersion(s, parent, hash).Ok?
    ensures ChainOk(RegistrySpec.CreateVersion(s, parent, hash).value, r)
  {
    var s' := RegistrySpec.CreateVersion(s, parent, hash).value;
    var rec := s'.records[s.nextId];
    ListsStay(s.records, s.nextId, rec, r, s.nextId);
    RootStays(s.records, s.nextId, rec, parent);
    RootFacts(s.records, parent);
    assert RootOf(s'.records, s.nextId) == RootOf(s.records, parent);
  }

  /** A version joins the tree of its parent, at the end of the chain of the tree's root. */
  lemma NewVersion(s: State, parent: IpId, hash: Hash)
    requires ForestOk(s) && RegistrySpec.CreateVersion(s, parent, hash).Ok?
    ensures ForestOk(RegistrySpec.CreateVersion(s, parent, hash).value)
  {
    var s' := RegistrySpec.CreateVersion(s, parent, hash).value;
    RootFacts(s.records, parent);
    forall id | id in s'.records ensures ParentOk(s'.records, id) {
      assert id != s.nextId ==> ParentOk(s.records, id);
    }
    forall p ensures VersionsOk(s', p) {
      assert VersionsOk(s, p);
      VersionVersions(s, parent, hash, p);
    }
    forall r ensures ChainOk(s', r) {
      assert ChainOk(s, r);
      VersionChainOk(s, parent, hash, r);
    }
  }

  lemma RegisterForest(s: State, owner: Address, hash: Hash, listed: bool)
    requires ForestOk(s)
    ensures ForestOk(Register(s, owner, hash, None, listed))
  {
    NewRoot(s, Register(s, owner, hash, None, listed), IpRecord(owner, hash, s.now, false, [], None));
  }

  lemma {:induction false} CommitAllForest(s: State, owner: Address, hashes: seq<Hash>)
    requires ForestOk(s) && CommitAll(s, owner, hashes).Ok?
    ensures ForestOk(CommitAll(s, owner, hashes).value)
    decreases |hashes|
  {
    if hashes == [] {
    } else {
      RegisterForest(s, owner, hashes[0], true);
      CommitAllForest(Register(s, owner, hashes[0], None, true), owner, hashes[1..]);
    }
  }

  lemma {:induction false} CommitAllAnonymousForest(s: State, blinded: Hash, hashes: seq<Hash>)
    requires ForestOk(s) && CommitAllAnonymous(s, blinded, hashes).Ok?
    ensures ForestOk(CommitAllAnonymous(s, blinded, hashes).value)
    decreases |hashes|
  {
    if hashes == [] {
    } else {
      RegisterForest(s, Contract, hashes[0], false);
      SameForest(Register(s, Contract, hashes[0], None, false), RegisterAnonymous(s, blinded, hashes[0]));
      CommitAllAnonymousForest(RegisterAnonymous(s, blinded, hashes[0]), blinded, hashes[1..]);
    }
  }

  predicate Grows(op: Op) {
    op.Commit? || op.BatchCommit? || op.BatchCommitAnonymous?
      || op.CommitDelegated? || op.CreateVersion? || op.CommitVersion?
  }

  lemma OthersKeepParents(s: State, op: Op)
    requires !Grows(op) && Step(s, op).Ok?
    ensures SameParents(s.records, Step(s, op).value.records)
    ensures Step(s, op).value.nextId == s.nextId && Step(s, op).value.forest == s.forest
  {
    var s' := Step(s, op).value;
    assert s'.records.Keys == s.records.Keys;
  }

  lemma StepForest(s: State, op: Op)
    requires ForestOk(s) && Step(s, op).Ok?
    ensures ForestOk(Step(s, op).value)
  {
    if op.Commit? || op.CommitDelegated? {
      RegisterForest(s, op.owner, op.hash, true);
    } else if op.BatchCommit? {
      CommitAllForest(s, op.owner, op.hashes);
    } else if op.BatchCommitAnonymous? {
      CommitAllAnonymousForest(s, op.blinded, op.hashes);
    } else if op.CreateVersion? || op.CommitVersion? {
      NewVersion(s, op.parent, op.hash);
    } else {
      OthersKeepParents(s, op);
      SameForest(s, Step(s, op).value);
    }
  }

  lemma NoChildren(p: IpId, n: nat)
    ensures Children(map[], p, n) == []
  {
    if n > 0 {
      NoChildren(p, n - 1);
    }
  }

  /** In every reachable state every parent is an older record, so every walk to a root ends, and the stored
      chain of every root is the root and all its descendants, oldest first. */
  lemma {:induction false} RunForest(s: State, ops: seq<Op>)
    requires Genesis(s)
    ensures ForestOk(Run(s, ops))
    decreases |ops|
  {
    if ops == [] {
      forall p ensures VersionsOk(s, p) {
        NoChildren(p, 1);
      }
    } else {
      RunForest(s, ops[..|ops| - 1]);
      if Step(Run(s, ops[..|ops| - 1]), ops[|ops| - 1]).Ok? {
        StepForest(Run(s, ops[..|ops| - 1]), ops[|ops| - 1]);
      }
    }
  }

  // ── What follows about chains ────────────────────────────────────────────

  lemma {:induction false} FamilyMembers(records: Records, r: IpId, n: nat, j: IpId)
    ensures j in Family(records, r, n) <==> j < n && j in records && RootOf(records, j) == r
  {
    if n == 0 {
    } else {
      FamilyMembers(records, r, n - 1, j);
    }
  }

  ghost predicate Ascending(ids: seq<IpId>) {
    forall i, j :: 0 <= i < j < |ids| ==> ids[i] < ids[j]
  }

  lemma {:induction false} FamilyAscends(records: Records, r: IpId, n: nat)
    ensures Ascending(Family(records, r, n))
  {
    if n == 0 {
    } else {
      FamilyAscends(records, r, n - 1);
      var shorter := Family(records, r, n - 1);
      forall i | 0 <= i < |shorter| ensures shorter[i] < n - 1 {
        FamilyMembers(records, r, n - 1, shorter[i]);
      }
    }
  }

  /** The chain of a record lists, in ascending order, exactly the records with the same root, the root first.
      So all members of a tree return the same chain, and the chains partition the ids. */
  lemma ChainsPartition(s: State, i: IpId, j: IpId)
    requires ForestOk(s) && i in s.records
    ensures Ascending(VersionChain(s, i)) && VersionChain(s, i) != [] && VersionChain(s, i)[0] == RootOf(s.records, i)
    ensures j in VersionChain(s, i) <==> j in s.records && RootOf(s.records, j) == RootOf(s.records, i)
    ensures j in VersionChain(s, i) ==> VersionChain(s, j) == VersionChain(s, i)
  {
    var root := RootOf(s.records, i);
    RootFacts(s.records, i);
    RootFacts(s.records, root);
    assert ChainOk(s, root);
    FamilyMembers(s.records, root, s.nextId, j);
    FamilyMembers(s.records, root, s.nextId, root);
    FamilyAscends(s.records, root, s.nextId);
    var chain := VersionChain(s, i);
    var k :| 0 <= k < |chain| && chain[k] == root;
    FamilyMembers(s.records, root, s.nextId, chain[0]);
    RootFacts(s.records, chain[0]);
  }

  // ── What follows about lineages ──────────────────────────────────────────

  predicate IsDirect(records: Records, r: IpId, id: IpId) {
    id == r || (id in records && records[id].parent == Some(r))
  }

  /** The root and its direct children among the ids of a list, in the list's order. */
  function Direct(records: Records, r: IpId, ids: seq<IpId>): seq<IpId> {
    if ids == [] then []
    else
      var last := ids[|ids| - 1];
      Direct(records, r, ids[..|ids| - 1]) + (if IsDirect(records, r, last) then [last] else [])
  }

  lemma DirectAppend(records: Records, r: IpId, ids: seq<IpId>, id: IpId)
    ensures Direct(records, r, ids + [id]) == Direct(records, r, ids) + (if IsDirect(records, r, id) then [id] else [])
  {
    assert (ids + [id])[..|ids|] == ids;
  }

  lemma DirectChildrenAreFamily(records: Records, r: IpId, id: IpId)
    requires ParentsOk(records) && IsRoot(records, r) && id in records && records[id].parent == Some(r)
    ensures RootOf(records, id) == r && r < id
  {
    assert ParentOk(records, id);
    RootFacts(records, r);
  }

  lemma DirectAtRoot(records: Records, r: IpId)
    requires ParentsOk(records) && IsRoot(records, r)
    requires Direct(records, r, Family(records, r, r)) == Children(records, r, r)
    ensures Direct(records, r, Family(records, r, r + 1)) == [r] + Children(records, r, r + 1)
  {
    DirectAppend(records, r, Family(records, r, r), r);
    RootFacts(records, r);
    NothingBelow(records, r, r);
    assert records[r].parent != Some(r);
  }

  lemma DirectAtChild(records: Records, r: IpId, id: nat)
    requires ParentsOk(records) && IsRoot(records, r) && id in records && records[id].parent == Some(r) && id != r
    requires Direct(records, r, Family(records, r, id)) == (if r < id then [r] else []) + Children(records, r, id)
    ensures Direct(records, r, Family(records, r, id + 1)) == [r] + Children(records, r, id + 1)
  {
    var shorter := Family(records, r, id);
    DirectAppend(records, r, shorter, id);
    DirectChildrenAreFamily(records, r, id);
    assert Family(records, r, id + 1) == shorter + [id];
    assert ([r] + Children(records, r, id)) + [id] == [r] + (Children(records, r, id) + [id]);
  }

  lemma {:induction false} DirectOfFamily(records: Records, r: IpId, n: nat)
    requires ParentsOk(records) && IsRoot(records, r)
    ensures Direct(records, r, Family(records, r, n)) == (if r < n then [r] else []) + Children(records, r, n)
  {
    if n == 0 {
    } else {
      var shorter, id := Family(records, r, n - 1), n - 1;
      DirectOfFamily(records, r, id);
      if id == r {
        DirectAtRoot(records, r);
      } else if id in records && records[id].parent == Some(r) {
        DirectAtChild(records, r, id);
      } else {
        DirectAppend(records, r, shorter, id);
        assert Children(records, r, n) == Children(records, r, id);
        assert Family(records, r, n) == shorter || Family(records, r, n) == shorter + [id];
      }
    }
  }

  lemma {:induction false} DirectShort(records: Records, r: IpId, ids: seq<IpId>)
    ensures |Direct(records, r, ids)| <= |ids|
    ensures |Direct(records, r, ids)| == |ids|
      <==> forall id :: id in ids && id != r ==> id in records && records[id].parent == Some(r)
    ensures |Direct(records, r, ids)| == |ids| ==> Direct(records, r, ids) == ids
  {
    if ids == [] {
    } else {
      var shorter, last := ids[..|ids| - 1], ids[|ids| - 1];
      DirectShort(records, r, shorter);
      assert ids == shorter + [last];
    }
  }

  /** A lineage is what remains of the chain when everything but the root and its direct children is left out;
      it is the whole chain exactly when every descendant is a direct child. */
  lemma LineageWithinChain(s: State, id: IpId)
    requires ForestOk(s) && id in s.records
    ensures Lineage(s, id) == Direct(s.records, RootOf(s.records, id), VersionChain(s, id))
    ensures Lineage(s, id) == VersionChain(s, id)
      <==> forall j :: j in VersionChain(s, id) && j != RootOf(s.records, id) ==>
             j in s.records && s.records[j].parent == Some(RootOf(s.records, id))
  {
    var root := RootOf(s.records, id);
    RootFacts(s.records, id);
    assert ChainOk(s, root) && VersionsOk(s, root);
    DirectOfFamily(s.records, root, s.nextId);
    DirectShort(s.records, root, VersionChain(s, id));
  }
}

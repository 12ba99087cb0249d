/** The bounded search through delegations. */
module DelegationSearch {
  import opened Common
  import opened RegistryState
  import opened RegistrySpec
  import opened RegistryRuns

  /** `a` has delegated to `b`. */
  predicate Edge(d: Delegations, a: Address, b: Address) {
    Delegated(DelegatesOf(d, a), b)
  }

  ghost predicate IsPath(d: Delegations, path: seq<Address>) {
    path != [] && forall i :: 0 <= i < |path| - 1 ==> Edge(d, path[i], path[i + 1])
  }

  /** A path with one to `most` edges. */
  ghost predicate PathWithin(d: Delegations, path: seq<Address>, from: Address, to: Address, most: int) {
    IsPath(d, path) && 2 <= |path| <= most + 1 && path[0] == from && path[|path| - 1] == to
  }

  ghost predicate Reaches(d: Delegations, from: Address, to: Address, most: int) {
    exists path :: PathWithin(d, path, from, to, most)
  }

  // ── The search ───────────────────────────────────────────────────────────

  /** The recursive search, with its loop over the delegates of one address. */
  method Search(d: Delegations, root: Address, candidate: Address, depth: nat) returns (found: bool)
    ensures found <==> InChain(d, root, candidate, depth)
    decreases MAX_DELEGATION_DEPTH - depth
  {
    if depth >= MAX_DELEGATION_DEPTH {
      return false;
    }
    var list := DelegatesOf(d, root);
    for i := 0 to |list|
      invariant AnyInChain(d, list, candidate, depth) <==> AnyInChain(d, list[i..], candidate, depth)
    {
      assert list[i..][1..] == list[i + 1..];
      if list[i].delegate == candidate {
        return true;
      }
      var deeper := Search(d, list[i].delegate, candidate, depth + 1);
      if deeper {
        return true;
      }
    }
    return false;
  }

  // ── Soundness ────────────────────────────────────────────────────────────

  lemma PathExtends(d: Delegations, from: Address, next: Address, to: Address, most: int)
    requires Edge(d, from, next) && Reaches(d, next, to, most)
    ensures Reaches(d, from, to, most + 1)
  {
    var path :| PathWithin(d, path, next, to, most);
    var longer := [from] + path;
    forall i | 0 <= i < |longer| - 1 ensures Edge(d, longer[i], longer[i + 1]) {
      if i > 0 {
        assert longer[i] == path[i - 1] && longer[i + 1] == path[i];
      }
    }
    assert PathWithin(d, longer, from, to, most + 1);
  }

  lemma {:induction false} FoundIsReached(d: Delegations, root: Address, candidate: Address, depth: nat)
    requires InChain(d, root, candidate, depth)
    ensures Reaches(d, root, candidate, MAX_DELEGATION_DEPTH - depth)
    decreases MAX_DELEGATION_DEPTH - depth, 0, 0
  {
    AnyFoundIsReached(d, root, DelegatesOf(d, root), candidate, depth);
  }

  lemma {:induction false} AnyFoundIsReached(
      d: Delegations, root: Address, list: seq<DelegationRecord>, candidate: Address, depth: nat)
    requires depth < MAX_DELEGATION_DEPTH && AnyInChain(d, list, candidate, depth)
    requires forall r :: r in list ==> Edge(d, root, r.delegate)
    ensures Reaches(d, root, candidate, MAX_DELEGATION_DEPTH - depth)
    decreases MAX_DELEGATION_DEPTH - depth - 1, 1, |list|
  {
    assert list[0] in list;
    if list[0].delegate == candidate {
      assert PathWithin(d, [root, candidate], root, candidate, MAX_DELEGATION_DEPTH - depth);
    } else if InChain(d, list[0].delegate, candidate, depth + 1) {
      FoundIsReached(d, list[0].delegate, candidate, depth + 1);
      PathExtends(d, root, list[0].delegate, candidate, MAX_DELEGATION_DEPTH - depth - 1);
    } else {
      AnyFoundIsReached(d, root, list[1..], candidate, depth);
    }
  }

  // ── Completeness ─────────────────────────────────────────────────────────

  lemma {:induction false} AnyFinds(d: Delegations, list: seq<DelegationRecord>, i: nat, candidate: Address, depth: nat)
    requires depth < MAX_DELEGATION_DEPTH && i < |list|
    requires list[i].delegate == candidate || InChain(d, list[i].delegate, candidate, depth + 1)
    ensures AnyInChain(d, list, candidate, depth)
    decreases |list|
  {
    if i == 0 {
    } else {
      AnyFinds(d, list[1..], i - 1, candidate, depth);
    }
  }

  lemma {:induction false} PathIsFound(
      d: Delegations, path: seq<Address>, root: Address, candidate: Address, depth: nat)
    requires PathWithin(d, path, root, candidate, MAX_DELEGATION_DEPTH - depth)
    ensures InChain(d, root, candidate, depth)
    decreases |path|
  {
    var list := DelegatesOf(d, root);
    assert Edge(d, path[0], path[1]);
    var i :| 0 <= i < |list| && list[i].delegate == path[1];
    if |path| <= 2 {
    } else {
      var rest := path[1..];
      forall k | 0 <= k < |rest| - 1 ensures Edge(d, rest[k], rest[k + 1]) {
        assert rest[k] == path[k + 1] && rest[k + 1] == path[k + 2];
      }
      PathIsFound(d, rest, path[1], candidate, depth + 1);
    }
    AnyFinds(d, list, i, candidate, depth);
  }

  /** On any delegations whatever, cycles included, the search says yes exactly when a path of one to five
      delegations leads from the owner to the candidate. */
  lemma SearchIsReachability(s: State, owner: Address, candidate: Address)
    ensures IsDelegate(s, owner, candidate) <==> Reaches(s.delegation, owner, candidate, 5)
  {
    if IsDelegate(s, owner, candidate) {
      FoundIsReached(s.delegation, owner, candidate, 0);
    }
    if Reaches(s.delegation, owner, candidate, MAX_DELEGATION_DEPTH) {
      var path :| PathWithin(s.delegation, path, owner, candidate, MAX_DELEGATION_DEPTH);
      PathIsFound(s.delegation, path, owner, candidate, 0);
    }
  }

  // ── Stored depths ────────────────────────────────────────────────────────

  ghost predicate DepthsOk(d: Delegations) {
    && (forall a :: a in d.depth ==> d.depth[a] < MAX_DELEGATION_DEPTH)
    && (forall a, i :: a in d.delegates && 0 <= i < |d.delegates[a]| ==> d.delegates[a][i].depth < MAX_DELEGATION_DEPTH)
  }

  lemma {:induction false} WithoutKeepsDepths(list: seq<DelegationRecord>, a: Address)
    requires forall i :: 0 <= i < |list| ==> list[i].depth < MAX_DELEGATION_DEPTH
    ensures forall i :: 0 <= i < |WithoutDelegate(list, a)| ==> WithoutDelegate(list, a)[i].depth < MAX_DELEGATION_DEPTH
  {
    if list == [] {
    } else {
      WithoutKeepsDepths(list[..|list| - 1], a);
    }
  }

  lemma StepDepths(s: State, op: Op)
    requires DepthsOk(s.delegation)
    ensures DepthsOk(After(s, op).delegation)
  {
    if op.RevokeDelegation? {
      WithoutKeepsDepths(DelegatesOf(s.delegation, op.owner), op.delegate);
    }
  }

  /** No depth at or beyond the limit is ever stored. */
  lemma {:induction false} RunDepths(s: State, ops: seq<Op>)
    requires Genesis(s)
    ensures DepthsOk(Run(s, ops).delegation)
    decreases |ops|
  {
    if ops == [] {
    } else {
      RunDepths(s, ops[..|ops| - 1]);
      StepDepths(Run(s, ops[..|ops| - 1]), ops[|ops| - 1]);
    }
  }
}

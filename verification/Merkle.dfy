/** Merkle trees over a list of leaves, with the last node of an odd level paired with itself. The pair hash
    is a parameter. */
module Merkle {
  import opened Common
  import opened ProofOfWork

  // ── Levels ───────────────────────────────────────────────────────────────

  /** The node next to node `i`, or node `i` itself at the end of an odd level. */
  function Sibling<T>(level: seq<T>, i: nat): T
    requires i < |level|
  {
    if i % 2 == 1 then level[i - 1] else if i + 1 < |level| then level[i + 1] else level[i]
  }

  /** The two nodes under node `k` of the next level. */
  function PairAt<T>(level: seq<T>, k: nat): (T, T)
    requires 2 * k < |level|
  {
    (level[2 * k], Sibling(level, 2 * k))
  }

  function Joined<T>(h: (T, T) -> T, level: seq<T>, k: nat): T
    requires 2 * k < |level|
  {
    h(PairAt(level, k).0, PairAt(level, k).1)
  }

  function Above<T>(h: (T, T) -> T, level: seq<T>): (next: seq<T>)
    ensures |next| == (|level| + 1) / 2
    ensures forall k :: 0 <= k < |next| ==> next[k] == Joined(h, level, k)
  {
    seq((|level| + 1) / 2, k requires 0 <= k < (|level| + 1) / 2 => Joined(h, level, k))
  }

  function Top<T>(h: (T, T) -> T, level: seq<T>): T
    requires level != []
    decreases |level|
  {
    if |level| == 1 then level[0] else Top(h, Above(h, level))
  }

  function Root<T>(h: (T, T) -> T, zero: T, leaves: seq<T>): T {
    if leaves == [] then zero else Top(h, leaves)
  }

  function Proof<T>(h: (T, T) -> T, level: seq<T>, i: nat): seq<T>
    requires i < |level|
    decreases |level|
  {
    if |level| == 1 then [] else [Sibling(level, i)] + Proof(h, Above(h, level), i / 2)
  }

  // ── The verifier's candidates ────────────────────────────────────────────

  /** Every candidate with the next proof hash, in both orders. */
  function Expand<T>(h: (T, T) -> T, candidates: seq<T>, p: T): seq<T> {
    if candidates == [] then []
    else
      var last := candidates[|candidates| - 1];
      Expand(h, candidates[..|candidates| - 1], p) + [h(last, p), h(p, last)]
  }

  function Candidates<T>(h: (T, T) -> T, start: seq<T>, proof: seq<T>): seq<T>
    decreases |proof|
  {
    if proof == [] then start else Candidates(h, Expand(h, start, proof[0]), proof[1..])
  }

  predicate Accepts<T(==)>(h: (T, T) -> T, zero: T, leaf: T, proof: seq<T>, leaves: seq<T>) {
    Root(h, zero, leaves) in Candidates(h, [leaf], proof)
  }

  // ── The loops ────────────────────────────────────────────────────────────

  method NextLevel<T>(h: (T, T) -> T, level: seq<T>) returns (next: seq<T>)
    ensures next == Above(h, level)
  {
    next := [];
    var i := 0;
    while i < |level|
      invariant i == 2 * |next| && |next| <= (|level| + 1) / 2
      invariant forall k :: 0 <= k < |next| ==> next[k] == Joined(h, level, k)
    {
      var left := level[i];
      var right := if i + 1 < |level| then level[i + 1] else left;
      next := next + [h(left, right)];
      i := i + 2;
    }
  }

  method MerkleRoot<T>(h: (T, T) -> T, zero: T, leaves: seq<T>) returns (root: T)
    ensures root == Root(h, zero, leaves)
  {
    if |leaves| == 0 {
      return zero;
    }
    if |leaves| == 1 {
      return leaves[0];
    }
    var level := leaves;
    while |level| > 1
      invariant level != [] && Top(h, level) == Top(h, leaves)
      decreases |level|
    {
      level := NextLevel(h, level);
    }
    return level[0];
  }

  method BuildProof<T>(h: (T, T) -> T, leaves: seq<T>, index: nat) returns (proof: seq<T>)
    requires index < |leaves|
    ensures proof == Proof(h, leaves, index)
  {
    proof := [];
    if |leaves| <= 1 {
      return;
    }
    var level := leaves;
    var i: nat := index;
    while |level| > 1
      invariant i < |level| && proof + Proof(h, level, i) == Proof(h, leaves, index)
      decreases |level|
    {
      var s := if i % 2 == 0 then i + 1 else i - 1;
      var sibling := if s < |level| then level[s] else level[i];
      assert proof + ([sibling] + Proof(h, Above(h, level), i / 2))
        == proof + [sibling] + Proof(h, Above(h, level), i / 2);
      proof := proof + [sibling];
      level := NextLevel(h, level);
      i := i / 2;
    }
  }

  method VerifyProof<T(==)>(h: (T, T) -> T, zero: T, leaf: T, proof: seq<T>, leaves: seq<T>) returns (ok: bool)
    ensures ok <==> Accepts(h, zero, leaf, proof, leaves)
  {
    var root := MerkleRoot(h, zero, leaves);
    var candidates := [leaf];
    for i := 0 to |proof|
      invariant Candidates(h, [leaf], proof) == Candidates(h, candidates, proof[i..])
    {
      assert proof[i..][1..] == proof[i + 1..];
      var next := [];
      for j := 0 to |candidates|
        invariant next == Expand(h, candidates[..j], proof[i])
      {
        assert candidates[..j + 1][..j] == candidates[..j];
        next := next + [h(candidates[j], proof[i])];
        next := next + [h(proof[i], candidates[j])];
      }
      assert candidates[..|candidates|] == candidates;
      candidates := next;
    }
    for j := 0 to |candidates|
      invariant root !in candidates[..j]
    {
      if candidates[j] == root {
        return true;
      }
    }
    return false;
  }

  // ── Shape ────────────────────────────────────────────────────────────────

  /** The level above another: neighbours are joined in order, and an odd last node with itself. */
  ghost predicate IsAbove<T(!new)>(h: (T, T) -> T, level: seq<T>, next: seq<T>) {
    && |level| <= 2 * |next| <= |level| + 1
    && (forall k :: 0 <= k && 2 * k + 1 < |level| ==> next[k] == h(level[2 * k], level[2 * k + 1]))
    && (|level| % 2 == 1 ==> next[|next| - 1] == h(level[|level| - 1], level[|level| - 1]))
  }

  /** The root of no leaves is zero, that of one leaf the leaf, and that of more the root of the level above. */
  lemma RootExactly<T(!new)>(h: (T, T) -> T, zero: T, leaves: seq<T>)
    ensures leaves == [] ==> Root(h, zero, leaves) == zero
    ensures |leaves| == 1 ==> Root(h, zero, leaves) == leaves[0]
    ensures |leaves| > 1 ==> exists next :: IsAbove(h, leaves, next) && Root(h, zero, leaves) == Root(h, zero, next)
  {
    if |leaves| > 1 {
      var next := Above(h, leaves);
      forall k | 0 <= k && 2 * k + 1 < |leaves| ensures next[k] == h(leaves[2 * k], leaves[2 * k + 1]) {
        assert next[k] == Joined(h, leaves, k);
      }
      if |leaves| % 2 == 1 {
        assert next[|next| - 1] == Joined(h, leaves, |next| - 1);
      }
      assert IsAbove(h, leaves, next);
    }
  }

  // ── Completeness ─────────────────────────────────────────────────────────

  lemma {:induction false} ExpandCovers<T>(h: (T, T) -> T, candidates: seq<T>, p: T, c: T)
    requires c in candidates
    ensures h(c, p) in Expand(h, candidates, p) && h(p, c) in Expand(h, candidates, p)
  {
    var last := candidates[|candidates| - 1];
    if c != last {
      assert c in candidates[..|candidates| - 1];
      ExpandCovers(h, candidates[..|candidates| - 1], p, c);
    } else {
      assert [h(last, p), h(p, last)][0] == h(last, p) && [h(last, p), h(p, last)][1] == h(p, last);
    }
  }

  /** A node among the candidates leads the proof built for it to the top. */
  lemma {:induction false} ProofReachesTop<T>(h: (T, T) -> T, level: seq<T>, i: nat, candidates: seq<T>)
    requires i < |level| && level[i] in candidates
    ensures Top(h, level) in Candidates(h, candidates, Proof(h, level, i))
    decreases |level|
  {
    if |level| <= 1 {
    } else {
      var p := Sibling(level, i);
      ExpandCovers(h, candidates, p, level[i]);
      assert Above(h, level)[i / 2] == if i % 2 == 0 then h(level[i], p) else h(p, level[i]);
      ProofReachesTop(h, Above(h, level), i / 2, Expand(h, candidates, p));
      assert Proof(h, level, i)[1..] == Proof(h, Above(h, level), i / 2);
    }
  }

  /** The proof built for a leaf is accepted for that leaf, whatever the number of leaves. */
  lemma Completeness<T>(h: (T, T) -> T, zero: T, leaves: seq<T>, i: nat)
    requires i < |leaves|
    ensures Accepts(h, zero, leaves[i], Proof(h, leaves, i), leaves)
  {
    ProofReachesTop(h, leaves, i, [leaves[i]]);
  }

  // ── Size ─────────────────────────────────────────────────────────────────

  function Height(n: nat): nat {
    if n <= 1 then 0 else 1 + Height((n + 1) / 2)
  }

  lemma {:induction false} ProofLength<T>(h: (T, T) -> T, level: seq<T>, i: nat)
    requires i < |level|
    ensures |Proof(h, level, i)| == Height(|level|)
    decreases |level|
  {
    if |level| <= 1 {
    } else {
      ProofLength(h, Above(h, level), i / 2);
    }
  }

  /** The height is the logarithm of the number of leaves to base two, rounded up. */
  lemma {:induction false} HeightIsLog(n: nat)
    requires n > 0
    ensures n <= Power(Height(n))
    ensures n > 1 ==> Power(Height(n)) < 2 * n
  {
    if n <= 1 {
    } else {
      HeightIsLog((n + 1) / 2);
      if n == 2 || n == 3 {
        assert Height(1) == 0 && Height(2) == 1 && Height(3) == 2;
      }
    }
  }

  lemma {:induction false} ExpandDoubles<T>(h: (T, T) -> T, candidates: seq<T>, p: T)
    ensures |Expand(h, candidates, p)| == 2 * |candidates|
  {
    if candidates == [] {
    } else {
      ExpandDoubles(h, candidates[..|candidates| - 1], p);
    }
  }

  lemma {:induction false} CandidatesDouble<T>(h: (T, T) -> T, candidates: seq<T>, proof: seq<T>)
    ensures |Candidates(h, candidates, proof)| == |candidates| * Power(|proof|)
    decreases |proof|
  {
    if proof == [] {
    } else {
      ExpandDoubles(h, candidates, proof[0]);
      CandidatesDouble(h, Expand(h, candidates, proof[0]), proof[1..]);
      assert 2 * |candidates| * Power(|proof| - 1) == |candidates| * (2 * Power(|proof| - 1));
    }
  }

  /** Every built proof is as long as the tree is high, and with more than one leaf the verifier ends up
      with fewer than twice as many candidates as there are leaves. */
  lemma VerifierStaysSmall<T>(h: (T, T) -> T, leaves: seq<T>, i: nat, leaf: T)
    requires i < |leaves|
    ensures |Proof(h, leaves, i)| == Height(|leaves|)
    ensures |leaves| > 1 ==> |leaves| <= |Candidates(h, [leaf], Proof(h, leaves, i))| < 2 * |leaves|
  {
    ProofLength(h, leaves, i);
    HeightIsLog(|leaves|);
    CandidatesDouble(h, [leaf], Proof(h, leaves, i));
  }

  // ── Soundness ────────────────────────────────────────────────────────────

  /** Two different pairs with the same hash: on one side a candidate and its proof hash, on the other two
      nodes of the tree. */
  ghost predicate Collides<T(!new)>(h: (T, T) -> T, level: seq<T>, c: T, proof: seq<T>)
    decreases |proof|
  {
    proof != [] && level != [] &&
    var p := proof[0];
    || (exists k | 0 <= k < |Above(h, level)| :: h(c, p) == Joined(h, level, k) && (c, p) != PairAt(level, k))
    || (exists k | 0 <= k < |Above(h, level)| :: h(p, c) == Joined(h, level, k) && (p, c) != PairAt(level, k))
    || Collides(h, Above(h, level), h(c, p), proof[1..])
    || Collides(h, Above(h, level), h(p, c), proof[1..])
  }

  lemma ExpandOne<T>(h: (T, T) -> T, c: T, p: T)
    ensures Expand(h, [c], p) == [h(c, p), h(p, c)]
  {
    assert [c][..0] == [];
    assert Expand(h, [], p) == [];
  }

  lemma {:induction false} ExpandFromOne<T>(h: (T, T) -> T, candidates: seq<T>, p: T, x: T)
    requires x in Expand(h, candidates, p)
    ensures exists c :: c in candidates && (x == h(c, p) || x == h(p, c))
  {
    var n := |candidates| - 1;
    if x in Expand(h, candidates[..n], p) {
      ExpandFromOne(h, candidates[..n], p, x);
      var c :| c in candidates[..n] && (x == h(c, p) || x == h(p, c));
      assert c in candidates;
    } else {
      assert candidates[n] in candidates;
    }
  }

  /** More candidates reach more. */
  lemma {:induction false} CandidatesGrow<T>(h: (T, T) -> T, few: seq<T>, many: seq<T>, proof: seq<T>, x: T)
    requires forall c :: c in few ==> c in many
    requires x in Candidates(h, few, proof)
    ensures x in Candidates(h, many, proof)
    decreases |proof|
  {
    if proof == [] {
    } else {
      forall y | y in Expand(h, few, proof[0]) ensures y in Expand(h, many, proof[0]) {
        ExpandFromOne(h, few, proof[0], y);
        var c :| c in few && (y == h(c, proof[0]) || y == h(proof[0], c));
        ExpandCovers(h, many, proof[0], c);
      }
      CandidatesGrow(h, Expand(h, few, proof[0]), Expand(h, many, proof[0]), proof[1..], x);
    }
  }

  /** What is reached from several candidates is reached from one of them. */
  lemma {:induction false} CandidatesFromOne<T>(h: (T, T) -> T, candidates: seq<T>, proof: seq<T>, x: T)
    requires x in Candidates(h, candidates, proof)
    ensures exists c :: c in candidates && x in Candidates(h, [c], proof)
    decreases |proof|
  {
    if proof == [] {
      assert x in Candidates(h, [x], proof);
    } else {
      var p := proof[0];
      CandidatesFromOne(h, Expand(h, candidates, p), proof[1..], x);
      var y :| y in Expand(h, candidates, p) && x in Candidates(h, [y], proof[1..]);
      ExpandFromOne(h, candidates, p, y);
      var c :| c in candidates && (y == h(c, p) || y == h(p, c));
      ExpandOne(h, c, p);
      CandidatesGrow(h, [y], Expand(h, [c], p), proof[1..], x);
    }
  }

  lemma CandidatesSplit<T>(h: (T, T) -> T, a: T, b: T, proof: seq<T>, x: T)
    requires x in Candidates(h, [a, b], proof)
    ensures x in Candidates(h, [a], proof) || x in Candidates(h, [b], proof)
  {
    CandidatesFromOne(h, [a, b], proof, x);
  }

  /** A proof as long as the tree is high that leads from `c` to the top shows that `c` is on the level,
      or exhibits a collision. */
  lemma {:induction false} TopIsReachedFromNodes<T(!new)>(h: (T, T) -> T, level: seq<T>, c: T, proof: seq<T>)
    requires level != [] && |proof| == Height(|level|)
    requires Top(h, level) in Candidates(h, [c], proof)
    ensures c in level || Collides(h, level, c, proof)
    decreases |proof|
  {
    if proof == [] {
    } else {
      var p, rest, next := proof[0], proof[1..], Above(h, level);
      ExpandOne(h, c, p);
      CandidatesSplit(h, h(c, p), h(p, c), rest, Top(h, next));
      var c' := if Top(h, next) in Candidates(h, [h(c, p)], rest) then h(c, p) else h(p, c);
      TopIsReachedFromNodes(h, next, c', rest);
      if c' in next {
        var k :| 0 <= k < |next| && next[k] == c';
        assert next[k] == Joined(h, level, k);
      }
    }
  }

  /** An accepted proof of full length proves membership, unless it exhibits a collision of the pair hash. */
  lemma Soundness<T(!new)>(h: (T, T) -> T, zero: T, leaf: T, proof: seq<T>, leaves: seq<T>)
    requires leaves != [] && |proof| == Height(|leaves|) && Accepts(h, zero, leaf, proof, leaves)
    ensures leaf in leaves || Collides(h, leaves, leaf, proof)
  {
    TopIsReachedFromNodes(h, leaves, leaf, proof);
  }

  ghost predicate Injective<T(!new)>(h: (T, T) -> T) {
    forall a, b, c, d :: h(a, b) == h(c, d) ==> a == c && b == d
  }

  lemma {:induction false} NoCollision<T(!new)>(h: (T, T) -> T, level: seq<T>, c: T, proof: seq<T>)
    requires Injective(h)
    ensures !Collides(h, level, c, proof)
    decreases |proof|
  {
    if proof == [] || level == [] {
    } else {
      NoCollision(h, Above(h, level), h(c, proof[0]), proof[1..]);
      NoCollision(h, Above(h, level), h(proof[0], c), proof[1..]);
    }
  }

  /** With a pair hash that never collides, a proof of full length is accepted for leaves only. */
  lemma InjectiveSoundness<T(!new)>(h: (T, T) -> T, zero: T, leaf: T, proof: seq<T>, leaves: seq<T>)
    requires Injective(h) && leaves != [] && |proof| == Height(|leaves|) && Accepts(h, zero, leaf, proof, leaves)
    ensures leaf in leaves
  {
    Soundness(h, zero, leaf, proof, leaves);
    NoCollision(h, leaves, leaf, proof);
  }
}

/** Vocabulary shared by the models of both contracts. */
module Common {

  datatype Option<+T> = None | Some(value: T)

  /** A ledger address: the modelled contract itself, or anybody else. */
  datatype Address = Contract | Account(key: nat)

  /** Why a call is refused. The first group is raised by the swap contract, the
      second by the registry, the last by the host and the token contract: `Trap` is an
      arithmetic overflow or a failed `unwrap`. */
  datatype Error =
    | SwapNotFound | InvalidKey | PriceTooSmall | NotIPOwner | SwapExists | NotPending
    | OnlySellerReveal | NotAccepted | OnlySellerBuyer | OnlyPending | NotInAccepted
    | OnlyBuyerCancel | NotExpired | IpRevoked | DisputeExpired | NotDisputed | Paused
    | AlreadyInit | Unauthorized | PendingNotExpired | ExpiryNotGreater | NeedApprovals
    | AlreadyApproved | InsufficientReputation | ArbitrationNotTimedOut | NotAllSigned
    | AlreadySigned | NotARequiredSigner | RollbackWindowExpired | ConditionNotMet
    | BatchEmpty | BatchSizeMismatch | BatchTooLarge
    | SchemaNotGreater | MissingFunc | FuncChanged
    | IpNotFound | ZeroCommitmentHash | CommitmentAlreadyRegistered | IpAlreadyRevoked
    | InsufficientPoW | ThresholdNotMet | SignerNotAuthorized
    | NotAuthorized | Trap | NegativeAmount
    | InsufficientBalance(who: Address)

  datatype Result<+T> = Ok(value: T) | Err(error: Error) {
    predicate IsFailure() { Err? }
    function PropagateFailure<U>(): Result<U>
      requires Err?
    {
      Err(error)
    }
    function Extract(): T
      requires Ok?
    {
      value
    }
  }

  /** The outcome of a guard: it carries no value. */
  datatype Check = Pass | Fail(error: Error) {
    predicate IsFailure() { Fail? }
    function PropagateFailure<U>(): Result<U>
      requires Fail?
    {
      Err(error)
    }
  }

  function Need(condition: bool, error: Error): Check {
    if condition then Pass else Fail(error)
  }

  /** A storage read with a default. */
  function Lookup<K, V>(m: map<K, V>, k: K, default: V): V {
    if k in m then m[k] else default
  }

  /** A stored list with one more entry. */
  function Push<K, V>(m: map<K, seq<V>>, k: K, v: V): map<K, seq<V>> {
    m[k := Lookup(m, k, []) + [v]]
  }

  /** The numbers from `first` on. */
  function Upward(first: nat, n: nat): seq<nat> {
    seq(n, i => first + i)
  }

  lemma UpwardSplits(before: seq<nat>, first: nat, n: nat)
    ensures before + Upward(first, 1) + Upward(first + 1, n) == before + Upward(first, n + 1)
  {
    assert Upward(first, n + 1) == Upward(first, 1) + Upward(first + 1, n);
  }

  /** A call that is refused changes nothing; one that goes through leaves exactly the specified state. */
  ghost predicate Commits<T, S>(r: Result<T>, before: S, after: S, specified: Result<S>) {
    match specified
    case Ok(next) => r.Ok? && after == next
    case Err(error) => r == Err(error) && after == before
  }

  /** What a call answers, without the value it hands out. */
  function Answer<T>(r: Result<T>): Result<()> {
    match r
    case Ok(_) => Ok(())
    case Err(error) => Err(error)
  }

  /** Look for a value in a list. */
  method Contains<T(==)>(list: seq<T>, x: T) returns (found: bool)
    ensures found <==> x in list
  {
    for i := 0 to |list|
      invariant x !in list[..i]
    {
      if list[i] == x {
        return true;
      }
    }
    return false;
  }

  ghost predicate Distinct<T>(xs: seq<T>) {
    forall i, j :: 0 <= i < j < |xs| ==> xs[i] != xs[j]
  }

  /** A duplicate-free list drawn from a set is no longer than the set. */
  lemma {:induction false} Pigeonhole<T>(xs: seq<T>, pool: set<T>)
    requires Distinct(xs)
    requires forall x :: x in xs ==> x in pool
    ensures |xs| <= |pool|
    ensures |xs| == |pool| ==> forall x :: x in pool ==> x in xs
  {
    if xs == [] {
    } else {
      var last := xs[|xs| - 1];
      var rest := xs[..|xs| - 1];
      assert last !in rest;
      assert forall x :: x in rest ==> x in xs;
      Pigeonhole(rest, pool - {last});
    }
  }

  function Elements<T(==)>(xs: seq<T>): set<T> {
    set x | x in xs
  }

  /** A list has as many elements as entries exactly when it has no duplicates. */
  lemma {:induction false} DistinctCount<T>(xs: seq<T>)
    ensures |Elements(xs)| <= |xs|
    ensures |Elements(xs)| == |xs| <==> Distinct(xs)
  {
    if xs == [] {
      assert Elements(xs) == {};
    } else {
      var last := xs[|xs| - 1];
      var rest := xs[..|xs| - 1];
      DistinctCount(rest);
      assert Elements(xs) == Elements(rest) + {last};
      if last in rest {
        var i :| 0 <= i < |rest| && rest[i] == last;
        assert xs[i] == xs[|xs| - 1];
        assert Elements(xs) == Elements(rest);
      } else {
        assert Distinct(xs) <==> Distinct(rest) by {
          if Distinct(xs) {
            forall i, j | 0 <= i < j < |rest| ensures rest[i] != rest[j] {
              assert xs[i] != xs[j];
            }
          }
        }
      }
    }
  }

  lemma DistinctSplits<T>(xs: seq<T>)
    requires xs != []
    ensures Distinct(xs) <==> xs[0] !in xs[1..] && Distinct(xs[1..])
  {
    if xs[0] !in xs[1..] && Distinct(xs[1..]) {
      forall i, j | 0 <= i < j < |xs| ensures xs[i] != xs[j] {
        assert xs[j] == xs[1..][j - 1];
        if i > 0 {
          assert xs[i] == xs[1..][i - 1];
        }
      }
    }
    if Distinct(xs) {
      forall i, j | 0 <= i < j < |xs[1..]| ensures xs[1..][i] != xs[1..][j] {
        assert xs[i + 1] != xs[j + 1];
      }
    }
  }

  /** A list has no duplicates exactly when it contains nothing more than once. */
  lemma {:induction false} DistinctOnce<T>(xs: seq<T>)
    ensures Distinct(xs) <==> forall x :: x in xs ==> multiset(xs)[x] == 1
  {
    if xs == [] {
    } else {
      var last, rest := xs[|xs| - 1], xs[..|xs| - 1];
      DistinctOnce(rest);
      assert xs == rest + [last];
      assert Distinct(xs) <==> Distinct(rest) && last !in rest by {
        if Distinct(xs) {
          forall i, j | 0 <= i < j < |rest| ensures rest[i] != rest[j] {
            assert xs[i] != xs[j];
          }
        }
      }
      assert forall x :: x in xs ==> multiset(xs)[x] == multiset(rest)[x] + (if x == last then 1 else 0);
      assert last in xs;
    }
  }

  /** Distinct signers drawn from a list are at least as many as its entries exactly when the list has
      no duplicates and everybody on it has signed. */
  lemma CountingSignatures<T>(signed: seq<T>, required: seq<T>)
    requires Distinct(signed) && (forall x :: x in signed ==> x in required)
    ensures |signed| >= |required| <==> Distinct(required) && (forall x :: x in required ==> x in signed)
  {
    DistinctCount(signed);
    DistinctCount(required);
    Pigeonhole(signed, Elements(required));
    if Distinct(required) && forall x :: x in required ==> x in signed {
      Pigeonhole(required, Elements(signed));
    }
  }
}

/** M-of-N signatures: counting is enough. */
module ThresholdSignatures {
  import opened Common
  import opened RegistryState
  import opened RegistrySpec
  import opened RegistryRuns

  predicate Configures(s: State, op: Op, id: IpId) {
    op.RequireThreshold? && op.id == id && Step(s, op).Ok?
  }

  predicate Signs(s: State, op: Op, id: IpId) {
    op.AddSignature? && op.id == id && Step(s, op).Ok?
  }

  /** Who has signed since the signatures for `id` were last configured. */
  function SignedSince(s: State, ops: seq<Op>, id: IpId): set<Address>
    decreases |ops|
  {
    if ops == [] then {}
    else
      var before := Run(s, ops[..|ops| - 1]);
      var op := ops[|ops| - 1];
      if Configures(before, op, id) then {}
      else if Signs(before, op, id) then SignedSince(s, ops[..|ops| - 1], id) + {op.signer}
      else SignedSince(s, ops[..|ops| - 1], id)
  }

  function Signers(s: State, id: IpId): seq<Address> {
    SignersOf(Signatures(s, id))
  }

  /** The recorded signers are different, authorized, and those who have signed since the last configuration. */
  ghost predicate SignersOk(s: State, id: IpId, signed: set<Address>) {
    && Distinct(Signers(s, id)) && Elements(Signers(s, id)) == signed
    && (forall a :: a in signed ==> id in s.thresholds.configs && a in s.thresholds.configs[id].signers)
  }

  lemma OthersKeepThresholds(s: State, op: Op)
    requires !op.RequireThreshold? && !op.AddSignature?
    ensures After(s, op).thresholds == s.thresholds
  {
  }

  lemma SignStep(s: State, id: IpId, signer: Address, signature: Hash, signed: set<Address>)
    requires SignersOk(s, id, signed) && RegistrySpec.AddSignature(s, id, signer, signature).Ok?
    ensures SignersOk(RegistrySpec.AddSignature(s, id, signer, signature).value, id, signed + {signer})
  {
    var s' := RegistrySpec.AddSignature(s, id, signer, signature).value;
    assert Signers(s', id) == Signers(s, id) + [signer];
  }

  lemma StepSigners(s: State, op: Op, id: IpId, signed: set<Address>)
    requires SignersOk(s, id, signed)
    ensures SignersOk(After(s, op), id,
      if Configures(s, op, id) then {} else if Signs(s, op, id) then signed + {op.signer} else signed)
  {
    match op
    case RequireThreshold(i, _, _) => assert Configures(s, op, id) ==> Signers(After(s, op), id) == [];
    case AddSignature(i, signer, signature) =>
      if Signs(s, op, id) {
        SignStep(s, id, signer, signature, signed);
      }
    case _ => OthersKeepThresholds(s, op);
  }

  lemma {:induction false} RunSigners(s: State, ops: seq<Op>, id: IpId)
    requires Genesis(s)
    ensures SignersOk(Run(s, ops), id, SignedSince(s, ops, id))
    decreases |ops|
  {
    if ops == [] {
      assert Signers(s, id) == [];
    } else {
      RunSigners(s, ops[..|ops| - 1], id);
      StepSigners(Run(s, ops[..|ops| - 1]), ops[|ops| - 1], id, SignedSince(s, ops[..|ops| - 1], id));
    }
  }

  /** Along any run, the verification says yes exactly when at least M different authorized signers have
      signed since the last configuration. */
  lemma VerifiedMeansEnoughSigned(s: State, ops: seq<Op>, id: IpId)
    requires Genesis(s) && id in Run(s, ops).records
    ensures VerifySignatures(Run(s, ops), id) == Ok(true)
      <==> && id in Run(s, ops).thresholds.configs
           && |SignedSince(s, ops, id)| >= Run(s, ops).thresholds.configs[id].threshold
    ensures forall a :: a in SignedSince(s, ops, id) ==>
      id in Run(s, ops).thresholds.configs && a in Run(s, ops).thresholds.configs[id].signers
  {
    RunSigners(s, ops, id);
    DistinctCount(Signers(Run(s, ops), id));
  }
}

/** Counting the signatures under a reveal, and the approvals of an offer. */
module SwapSigners {
  import opened Common
  import opened SwapState
  import opened SwapSpec
  import opened SwapRuns
  import opened SwapBook
  import opened BatchOpening

  function Required(s: State, id: SwapId): seq<Address> {
    Lookup(s.side.signers, id, [])
  }

  function Signed(s: State, id: SwapId): seq<Address> {
    Lookup(s.side.signatures, id, [])
  }

  function Approvals(s: State, id: SwapId): seq<Address> {
    Lookup(s.side.approvals, id, [])
  }

  /** Those who have signed are different members of the required list. */
  ghost predicate SignedOk(s: State, id: SwapId) {
    Distinct(Signed(s, id)) && forall x :: x in Signed(s, id) ==> x in Required(s, id)
  }

  ghost predicate SignersOk(s: State) {
    && (forall id :: id in s.side.signers ==> id < s.nextId)
    && (forall id :: SignedOk(s, id))
  }

  predicate IsSignature(s: State, op: Op, id: SwapId, signer: Address) {
    op == On(id, SignReveal(signer)) && SignRevealPlan(s, id, signer).Ok?
  }

  // ── One call ─────────────────────────────────────────────────────────────

  predicate Unsigned(a: Side, b: Side) {
    a.signers == b.signers && a.signatures == b.signatures && a.approvals == b.approvals
  }

  /** Neither signatures nor approvals change. */
  predicate SameSignatures(s: State, s': State) {
    Unsigned(s.side, s'.side) && s.nextId <= s'.nextId
  }

  predicate Decides(act: Act) {
    act.ResolveDispute? || act.Arbitrate?
  }

  lemma ArbitrationDoesNotSign(s: State, id: SwapId, arbitrator: Address, refund: bool)
    requires ArbitratePlan(s, id, arbitrator, refund).Ok?
    ensures Unsigned(s.side, ArbitratePlan(s, id, arbitrator, refund).value.side)
  {
  }

  lemma DecisionsDoNotSign(s: State, id: SwapId, act: Act)
    requires Decides(act) && Plan(s, id, act).Ok?
    ensures Unsigned(s.side, Plan(s, id, act).value.side)
  {
    if act.Arbitrate? {
      ArbitrationDoesNotSign(s, id, act.arbitrator, act.refund);
    }
  }

  predicate Disputes(act: Act) {
    act.RaiseDispute? || act.RequestArbitration? || act.AutoResolveDispute?
      || act.AutoRefundTimeout? || act.AdminRollback?
  }

  lemma DisputesDoNotSign(s: State, id: SwapId, act: Act)
    requires Disputes(act) && Plan(s, id, act).Ok?
    ensures Unsigned(s.side, Plan(s, id, act).value.side)
  {
  }

  predicate Closes(act: Act) {
    act.EscrowWithdraw? || act.ValidateAndRollback? || act.ClaimInsurance?
    || act.Cancel? || act.CancelPending? || act.CancelExpired?
  }

  lemma ClosingDoesNotSign(s: State, id: SwapId, act: Act)
    requires Closes(act) && Plan(s, id, act).Ok?
    ensures Unsigned(s.side, Plan(s, id, act).value.side)
  {
  }

  predicate Reveals(act: Act) {
    act.Reveal? || act.VerifyAndComplete?
  }

  lemma RevealsDoNotSign(s: State, id: SwapId, act: Act)
    requires Reveals(act) && Plan(s, id, act).Ok?
    ensures Unsigned(s.side, Plan(s, id, act).value.side)
  {
  }

  predicate Edits(act: Act) {
    act.Renegotiate? || act.AcceptRenegotiation? || act.ExtendExpiry? || act.SetMinReputation?
  }

  lemma EditsDoNotSign(s: State, id: SwapId, act: Act)
    requires Edits(act) && Plan(s, id, act).Ok?
    ensures Unsigned(s.side, Plan(s, id, act).value.side)
  {
  }

  predicate SignsOff(act: Act) {
    act.SignReveal? || act.Approve?
  }

  lemma PayingDoesNotSign(s: State, id: SwapId, act: Act)
    requires !SignsOff(act) && !Decides(act) && !Disputes(act) && !Closes(act) && !Reveals(act) && !Edits(act)
    requires Plan(s, id, act).Ok?
    ensures Unsigned(s.side, Plan(s, id, act).value.side)
  {
  }

  lemma OtherPlansDoNotSign(s: State, id: SwapId, act: Act)
    requires !SignsOff(act) && Plan(s, id, act).Ok?
    ensures Unsigned(s.side, Plan(s, id, act).value.side)
  {
    if Decides(act) {
      DecisionsDoNotSign(s, id, act);
    } else if Disputes(act) {
      DisputesDoNotSign(s, id, act);
    } else if Closes(act) {
      ClosingDoesNotSign(s, id, act);
    } else if Reveals(act) {
      RevealsDoNotSign(s, id, act);
    } else if Edits(act) {
      EditsDoNotSign(s, id, act);
    } else {
      PayingDoesNotSign(s, id, act);
    }
  }

  lemma DoDoesNotSign(s: State, id: SwapId, plan: Result<Change>)
    requires plan.Ok? ==> Unsigned(s.side, plan.value.side)
    ensures Do(s, id, plan).Ok? ==> SameSignatures(s, Do(s, id, plan).value)
  {
  }

  lemma ActsDoNotSign(s: State, id: SwapId, act: Act)
    requires !SignsOff(act)
    ensures SameSignatures(s, After(s, On(id, act)))
  {
    if Plan(s, id, act).Ok? {
      OtherPlansDoNotSign(s, id, act);
    }
    DoDoesNotSign(s, id, Plan(s, id, act));
  }

  predicate Opens(op: Op) {
    op.Initiate? || op.InitiateWithSchedule? || op.InitiateEscrow?
      || op.BatchInitiateWithInsurance? || op.BatchInitiateEscrow?
  }

  lemma BatchInitiateDoesNotSign(s: State, b: BatchTerms, ips: seq<IpId>, prices: seq<I128>)
    ensures SwapSpec.BatchInitiate(s, b, ips, prices).Ok? ==>
      SameSignatures(s, SwapSpec.BatchInitiate(s, b, ips, prices).value)
  {
    if |ips| == |prices| {
      TwoPassesAreOne(s, b, ips, prices);
    }
  }

  lemma BatchOpeningsDoNotSign(s: State, op: Op)
    requires op.BatchInitiateWithInsurance? || op.BatchInitiateEscrow?
    ensures SameSignatures(s, After(s, op))
  {
  }

  lemma OpeningsDoNotSign(s: State, op: Op)
    requires Opens(op)
    ensures SameSignatures(s, After(s, op))
  {
    if op.BatchInitiateWithInsurance? || op.BatchInitiateEscrow? {
      BatchOpeningsDoNotSign(s, op);
    }
  }

  lemma BidsDoNotSign(s: State, id: AuctionId, bidder: Address, amount: I128)
    ensures SwapSpec.PlaceBid(s, id, bidder, amount).Ok? ==>
      SameSignatures(s, SwapSpec.PlaceBid(s, id, bidder, amount).value)
  {
  }

  lemma FinalizingDoesNotSign(s: State, id: AuctionId)
    ensures SwapSpec.FinalizeAuction(s, id).Ok? ==> SameSignatures(s, SwapSpec.FinalizeAuction(s, id).value)
  {
  }

  lemma StartDoesNotSign(s: State, token: Token, ip: IpId, seller: Address, minBid: I128, duration: nat)
    ensures SwapSpec.StartAuction(s, token, ip, seller, minBid, duration).Ok? ==>
      SameSignatures(s, SwapSpec.StartAuction(s, token, ip, seller, minBid, duration).value)
  {
  }

  /** The other calls that are not about one stored swap. */
  lemma CallsDoNotSign(s: State, op: Op)
    requires op.Surround? || op.StartAuction? || op.PlaceBid? || op.FinalizeAuction?
    ensures SameSignatures(s, After(s, op))
  {
    if op.StartAuction? {
      StartDoesNotSign(s, op.token, op.ip, op.seller, op.minBid, op.duration);
    } else if op.PlaceBid? {
      BidsDoNotSign(s, op.auction, op.bidder, op.amount);
    } else if op.FinalizeAuction? {
      FinalizingDoesNotSign(s, op.auction);
    }
  }

  lemma BatchesDoNotSign(s: State, op: Op)
    requires OnStored(op)
    ensures SameSignatures(s, After(s, op))
  {
  }

  /** Apart from signing, approving and opening a swap with signers, no call touches either. */
  lemma OthersDoNotSign(s: State, op: Op)
    requires !(op.On? && SignsOff(op.act)) && !op.InitiateWithSigners?
    ensures SameSignatures(s, After(s, op))
  {
    if op.On? {
      ActsDoNotSign(s, op.id, op.act);
    } else if op.BatchInitiate? {
      BatchInitiateDoesNotSign(s, op.batch, op.ips, op.prices);
    } else if Opens(op) {
      OpeningsDoNotSign(s, op);
    } else if OnStored(op) {
      BatchesDoNotSign(s, op);
    } else {
      CallsDoNotSign(s, op);
    }
  }

  lemma SignDone(s: State, id: SwapId, signer: Address)
    requires SignRevealPlan(s, id, signer).Ok?
    ensures var r := Do(s, id, SignRevealPlan(s, id, signer));
            && r.Ok? && r.value.nextId == s.nextId && signer in Required(s, id) && signer !in Signed(s, id)
            && r.value.side == s.side.(signatures := Push(s.side.signatures, id, signer))
  {
  }

  lemma SignStep(s: State, id: SwapId, signer: Address)
    ensures var s' := After(s, On(id, SignReveal(signer)));
            && s'.side.signers == s.side.signers && s'.nextId == s.nextId && s'.side.approvals == s.side.approvals
            && (if SignRevealPlan(s, id, signer).Ok?
                then s'.side.signatures == Push(s.side.signatures, id, signer)
                  && signer in Required(s, id) && signer !in Signed(s, id)
                else s' == s)
  {
    if SignRevealPlan(s, id, signer).Ok? {
      SignDone(s, id, signer);
    }
  }

  lemma OpeningStep(s: State, op: Op)
    requires op.InitiateWithSigners?
    ensures var s' := After(s, op);
            && s'.side.signatures == s.side.signatures && s'.side.approvals == s.side.approvals
            && (s' == s || (s'.nextId == s.nextId + 1 && s'.side.signers == s.side.signers[s.nextId := op.required]))
  {
  }

  lemma ApproveDone(s: State, id: SwapId, approver: Address)
    requires ApprovePlan(s, id, approver).Ok?
    ensures var r := Do(s, id, ApprovePlan(s, id, approver));
            && r.Ok? && r.value.nextId == s.nextId && approver !in Approvals(s, id)
            && r.value.side == s.side.(approvals := Push(s.side.approvals, id, approver))
  {
  }

  lemma ApproveStep(s: State, id: SwapId, approver: Address)
    ensures var s' := After(s, On(id, Approve(approver)));
            && s'.side.signers == s.side.signers && s'.side.signatures == s.side.signatures && s'.nextId == s.nextId
            && (if ApprovePlan(s, id, approver).Ok?
                then s'.side.approvals == Push(s.side.approvals, id, approver) && approver !in Approvals(s, id)
                else s' == s)
  {
    if ApprovePlan(s, id, approver).Ok? {
      ApproveDone(s, id, approver);
    }
  }

  predicate NewlySigned(s: State, s': State, op: Op, id: SwapId) {
    op.On? && op.act.SignReveal? && IsSignature(s, op, id, op.act.signer)
      && Signed(s', id) == Signed(s, id) + [op.act.signer]
  }

  lemma NoSignature(s: State, op: Op)
    requires !(op.On? && op.act.SignReveal?) && !op.InitiateWithSigners?
    ensures var s' := After(s, op);
            s'.side.signers == s.side.signers && s'.side.signatures == s.side.signatures && s.nextId <= s'.nextId
  {
    if op.On? && op.act.Approve? {
      ApproveStep(s, op.id, op.act.approver);
    } else {
      OthersDoNotSign(s, op);
    }
  }

  lemma StepKeepsSigners(s: State, op: Op)
    requires SignersOk(s)
    ensures SignersOk(After(s, op))
    ensures forall id :: Signed(After(s, op), id) == Signed(s, id) || NewlySigned(s, After(s, op), op, id)
    ensures forall id, signer :: IsSignature(s, op, id, signer) ==> signer in Signed(After(s, op), id)
  {
    var s' := After(s, op);
    if op.On? && op.act.SignReveal? {
      SignStep(s, op.id, op.act.signer);
    } else if op.InitiateWithSigners? {
      OpeningStep(s, op);
      assert SignedOk(s, s.nextId);
    } else {
      NoSignature(s, op);
    }
    forall id ensures SignedOk(s', id) {
      assert SignedOk(s, id);
    }
    forall id
      ensures Signed(s', id) == Signed(s, id) || NewlySigned(s, s', op, id)
    {
    }
  }

  // ── Whole runs ───────────────────────────────────────────────────────────

  /** `signer` has signed for swap `id` at some point of the run. */
  predicate HasSigned(s: State, ops: seq<Op>, id: SwapId, signer: Address)
    decreases |ops|
  {
    ops != [] &&
    (HasSigned(s, ops[..|ops| - 1], id, signer) || IsSignature(Run(s, ops[..|ops| - 1]), ops[|ops| - 1], id, signer))
  }

  lemma {:induction false} RunKeepsSigners(s: State, ops: seq<Op>, id: SwapId, signer: Address)
    requires SignersOk(s) && s.side.signatures == map[]
    ensures SignersOk(Run(s, ops))
    ensures signer in Signed(Run(s, ops), id) <==> HasSigned(s, ops, id, signer)
    decreases |ops|
  {
    if ops == [] {
    } else {
      RunKeepsSigners(s, ops[..|ops| - 1], id, signer);
      StepKeepsSigners(Run(s, ops[..|ops| - 1]), ops[|ops| - 1]);
    }
  }

  lemma TestOfLength(s: State, id: SwapId)
    requires SignersOk(s) && id in s.side.signers
    ensures FullySigned(s, id)
      <==> Distinct(Required(s, id)) && (forall x :: x in Required(s, id) ==> x in Signed(s, id))
  {
    assert SignedOk(s, id);
    CountingSignatures(Signed(s, id), Required(s, id));
  }

  /** Along any run whatever, the length test of `reveal_key` passes exactly when the required list names
      nobody twice and everybody on it has signed. */
  lemma LengthTestMeansAllSigned(s: State, ops: seq<Op>, id: SwapId)
    requires SignersOk(s) && s.side.signatures == map[]
    requires id in Run(s, ops).side.signers
    ensures FullySigned(Run(s, ops), id)
      <==> && Distinct(Required(Run(s, ops), id))
           && (forall x :: x in Required(Run(s, ops), id) ==> HasSigned(s, ops, id, x))
  {
    var r := Run(s, ops);
    RunKeepsSigners(s, ops, id, TREASURY);
    forall x ensures x in Signed(r, id) <==> HasSigned(s, ops, id, x) {
      RunKeepsSigners(s, ops, id, x);
    }
    TestOfLength(r, id);
  }

  // ── Approvals ────────────────────────────────────────────────────────────

  predicate IsApproval(s: State, op: Op, id: SwapId) {
    op.On? && op.id == id && op.act.Approve? && ApprovePlan(s, id, op.act.approver).Ok?
  }

  /** Who has approved swap `id` along a run. */
  function ApprovedBy(s: State, ops: seq<Op>, id: SwapId): set<Address>
    decreases |ops|
  {
    if ops == [] then {}
    else
      ApprovedBy(s, ops[..|ops| - 1], id)
      + (if IsApproval(Run(s, ops[..|ops| - 1]), ops[|ops| - 1], id) then {ops[|ops| - 1].act.approver} else {})
  }

  lemma StepApprovals(s: State, op: Op, id: SwapId)
    ensures Approvals(After(s, op), id) == Approvals(s, id) + (if IsApproval(s, op, id) then [op.act.approver] else [])
    ensures IsApproval(s, op, id) ==> op.act.approver !in Approvals(s, id)
  {
    if op.On? && op.act.Approve? {
      ApproveStep(s, op.id, op.act.approver);
    } else if op.On? && op.act.SignReveal? {
      SignStep(s, op.id, op.act.signer);
    } else if op.InitiateWithSigners? {
      OpeningStep(s, op);
    } else {
      OthersDoNotSign(s, op);
    }
  }

  lemma ListGrows(xs: seq<Address>, x: Address)
    requires Distinct(xs) && x !in xs
    ensures Distinct(xs + [x]) && Elements(xs + [x]) == Elements(xs) + {x}
  {
  }

  lemma {:induction false} RunApprovals(s: State, ops: seq<Op>, id: SwapId)
    requires s.side.approvals == map[]
    ensures Distinct(Approvals(Run(s, ops), id)) && Elements(Approvals(Run(s, ops), id)) == ApprovedBy(s, ops, id)
    decreases |ops|
  {
    if ops == [] {
    } else {
      var before, op := Run(s, ops[..|ops| - 1]), ops[|ops| - 1];
      RunApprovals(s, ops[..|ops| - 1], id);
      StepApprovals(before, op, id);
      if IsApproval(before, op, id) {
        ListGrows(Approvals(before, id), op.act.approver);
      }
    }
  }

  /** Along any run, the test on the number of approvals passes exactly when at least that many different accounts
      have approved. */
  lemma ApprovedMeansEnoughApproved(s: State, ops: seq<Op>, id: SwapId)
    requires s.side.approvals == map[] && id in Run(s, ops).swaps
    ensures var swap := Run(s, ops).swaps[id];
            Approved(Run(s, ops), id, swap) <==> |ApprovedBy(s, ops, id)| >= swap.requiredApprovals
  {
    RunApprovals(s, ops, id);
    DistinctCount(Approvals(Run(s, ops), id));
  }
}

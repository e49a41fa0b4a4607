/** Action records and the pure document builders of gateway.py. */
module Records {
  import opened Prelude
  import opened Ordering
  import opened Canonical
  import opened Policies
  import opened Carm
  import opened Proposals

  datatype ActionState =
    | Proposed
    | Validating
    | AwaitingApproval
    | Authorized
    | Reserved
    | Committing
    | Committed
    | OutcomeUnknown
    | Rejected
    | Failed

  /** The signed receipt, without its timestamp and signature. */
  datatype Receipt = Receipt(
    receiptId: string,
    gatewayId: string,
    actionId: string,
    proposalDigest: Digest,
    state: ActionState,
    decision: RuntimeDecision,
    controls: seq<string>,
    reasonCodes: seq<string>,
    graphDigest: Digest,
    policyDigest: Option<Digest>,
    resultReference: Option<string>,
    resultDigest: Option<Digest>)

  datatype ActionRecord = ActionRecord(
    actionId: string,
    proposalDigest: Digest,
    state: ActionState,
    attempt: nat,
    decision: Option<RuntimeDecision>,
    controls: seq<string>,
    reasonCodes: seq<string>,
    graphDigest: Option<Digest>,
    policyDigest: Option<Digest>,
    resultReference: Option<string>,
    resultDigest: Option<Digest>,
    receipt: Option<Receipt>,
    proposal: Option<Value>)

  datatype ConnectorOutcome = EffectCommitted | EffectNotCommitted | EffectUnknown

  datatype ConnectorResult = ConnectorResult(
    outcome: ConnectorOutcome,
    resultReference: Option<string>,
    resultDigest: Option<Digest>)

  const UNKNOWN_RESULT := ConnectorResult(EffectUnknown, None, None)

  const UNKNOWN_REASONS := ["GCP_COMMIT_OUTCOME_UNKNOWN"]

  /** The record `execute` claims an action id with. */
  function InitialRecord(p: Proposal, digest: Digest): ActionRecord {
    ActionRecord(p.actionId, digest, Validating, 1, None, [], [], None, None, None, None, None,
                 Some(ProposalDocument(p)))
  }

  predicate Pending(state: ActionState) {
    state == Committing || state == OutcomeUnknown
  }

  /** `_proposal_from_record`. */
  function Rebuild(record: ActionRecord): Result<Proposal, ErrorCode> {
    if record.proposal.None? then Err(ActionStateInvalid)
    else
      match ProposalOf(record.proposal.value)
      case Err(e) => Err(e)
      case Ok(p) =>
        match ProposalDigest(p)
        case Err(e) => Err(e)
        case Ok(d) => if d == record.proposalDigest then Ok(p) else Err(ActionIdConflict)
  }

  /** The record was made for this proposal. */
  ghost predicate Bound(record: ActionRecord, p: Proposal) {
    && record.actionId == p.actionId
    && record.proposal == Some(ProposalDocument(p))
    && ProposalDigest(p) == Ok(record.proposalDigest)
  }

  lemma InitialIsBound(p: Proposal)
    requires ProposalDigest(p).Ok?
    ensures Bound(InitialRecord(p, ProposalDigest(p).value), p)
  {
  }

  /** A bound record names one proposal, and rebuilding returns that proposal. */
  lemma RebuildReturnsBound(record: ActionRecord, p: Proposal)
    requires Bound(record, p)
    ensures Rebuild(record) == Ok(p)
    ensures forall q :: Bound(record, q) ==> q == p
  {
    hide ProposalDocument, ProposalDigest, ProposalOf;
    ProposalOfDocument(p);
    forall q | Bound(record, q) ensures q == p {
      DocumentIdentifiesProposal(p, q);
    }
  }

  /** Rebuilding returns nothing but the one proposal that the record's digest names, and finds it exactly when
      the stored document is that proposal's. */
  lemma RebuildIff(record: ActionRecord, p: Proposal)
    requires ProposalDigest(p) == Ok(record.proposalDigest)
    ensures Rebuild(record).Ok? ==> Rebuild(record).value == p
    ensures Rebuild(record).Ok? <==> record.proposal.Some? && ProposalOf(record.proposal.value) == Ok(p)
  {
    hide ProposalDigest, ProposalOf;
    if Rebuild(record).Ok? {
      DigestIdentifiesProposal(Rebuild(record).value, p);
    }
  }

  // ---------------------------------------------------------- policy digest

  function TextOrNull(t: Option<string>): Value {
    if t.Some? then Str(t.value) else Null
  }

  function LayerText(layer: PolicyLayer): string {
    match layer
    case Regulatory => "regulatory"
    case Organizational => "organizational"
    case Task => "task"
  }

  function EffectText(effect: PolicyEffect): string {
    match effect
    case Allow => "ALLOW"
    case Block => "BLOCK"
    case RequireApproval => "REQUIRE_APPROVAL"
  }

  function Texts(items: seq<string>): seq<Value> {
    seq(|items|, i requires 0 <= i < |items| => Str(items[i]))
  }

  function EvaluationDoc(e: PolicyEvaluation): Value {
    Dict(map[
      "policy_id" := Str(e.policyId),
      "policy_version" := Str(e.policyVersion),
      "layer" := Str(LayerText(e.layer)),
      "effect" := Str(EffectText(e.effect)),
      "rationale_code" := Str(e.rationaleCode),
      "runtime_id" := TextOrNull(e.runtimeId),
      "native_verdict" := TextOrNull(e.nativeVerdict),
      "required_controls" := List(Texts(e.requiredControls)),
      "evidence_artifact" := TextOrNull(e.evidenceArtifact)])
  }

  function EvaluationDocs(evaluations: seq<PolicyEvaluation>): seq<Value> {
    seq(|evaluations|, i requires 0 <= i < |evaluations| => EvaluationDoc(evaluations[i]))
  }

  /** `_policy_document`. */
  function PolicyDocument(evaluations: seq<PolicyEvaluation>): Value {
    Dict(map["evaluations" := List(EvaluationDocs(evaluations))])
  }

  lemma EvaluationDocAccepted(e: PolicyEvaluation)
    ensures Accepted(EvaluationDoc(e))
  {
    assert Accepted(List(Texts(e.requiredControls)));
    assert Accepted(TextOrNull(e.runtimeId)) && Accepted(TextOrNull(e.nativeVerdict));
    assert Accepted(TextOrNull(e.evidenceArtifact));
  }

  lemma PolicyDocumentAccepted(evaluations: seq<PolicyEvaluation>)
    ensures Accepted(PolicyDocument(evaluations))
    ensures ArtifactDigest(PolicyDocument(evaluations)).Ok?
    ensures Ok(ArtifactDigest(PolicyDocument(evaluations)).value.preimage) == Canonicalize(PolicyDocument(evaluations))
  {
    hide EvaluationDoc;
    var docs := EvaluationDocs(evaluations);
    forall i | 0 <= i < |docs| ensures Accepted(docs[i]) {
      EvaluationDocAccepted(evaluations[i]);
    }
    assert Accepted(List(docs));
    var m := PolicyDocument(evaluations).members;
    assert m - {"proof"} == m;
  }

  function PolicyDigest(evaluations: seq<PolicyEvaluation>): Digest {
    PolicyDocumentAccepted(evaluations);
    ArtifactDigest(PolicyDocument(evaluations)).value
  }

  lemma TextsTell(a: seq<string>, b: seq<string>)
    requires Texts(a) == Texts(b)
    ensures a == b
  {
    assert |a| == |Texts(a)| == |Texts(b)| == |b|;
    forall i | 0 <= i < |a| ensures a[i] == b[i] {
      assert Texts(a)[i] == Texts(b)[i];
    }
  }

  lemma LayerEffectTell(d: PolicyEvaluation, e: PolicyEvaluation)
    requires LayerText(d.layer) == LayerText(e.layer) && EffectText(d.effect) == EffectText(e.effect)
    ensures d.layer == e.layer && d.effect == e.effect
  {
    assert LayerText(d.layer)[0] == LayerText(e.layer)[0];
    assert EffectText(d.effect)[0] == EffectText(e.effect)[0];
  }

  lemma EvaluationDocTells(d: PolicyEvaluation, e: PolicyEvaluation)
    requires EvaluationDoc(d) == EvaluationDoc(e)
    ensures d == e
  {
    hide LayerText, EffectText, Texts;
    var a, b := EvaluationDoc(d).members, EvaluationDoc(e).members;
    assert a["policy_id"] == b["policy_id"] && a["policy_version"] == b["policy_version"];
    assert a["layer"] == b["layer"] && a["effect"] == b["effect"];
    assert a["rationale_code"] == b["rationale_code"] && a["runtime_id"] == b["runtime_id"];
    assert a["native_verdict"] == b["native_verdict"] && a["evidence_artifact"] == b["evidence_artifact"];
    assert a["required_controls"] == b["required_controls"];
    LayerEffectTell(d, e);
    TextsTell(d.requiredControls, e.requiredControls);
  }

  /** The policy snapshot digest in a record pins down every report, in order. */
  lemma PolicyDigestIdentifies(a: seq<PolicyEvaluation>, b: seq<PolicyEvaluation>)
    ensures PolicyDigest(a) == PolicyDigest(b) <==> a == b
  {
    hide EvaluationDoc, Canonicalize, Accepted, ArtifactDigest;
    PolicyDocumentAccepted(a);
    PolicyDocumentAccepted(b);
    CanonicalBytesIdentify(PolicyDocument(a), PolicyDocument(b));
    if PolicyDigest(a) == PolicyDigest(b) {
      assert PolicyDocument(a).members["evaluations"] == PolicyDocument(b).members["evaluations"];
      assert |a| == |EvaluationDocs(a)| == |EvaluationDocs(b)| == |b|;
      forall i | 0 <= i < |a| ensures a[i] == b[i] {
        assert EvaluationDocs(a)[i] == EvaluationDocs(b)[i];
        EvaluationDocTells(a[i], b[i]);
      }
    }
  }

  // ------------------------------------------------------------- controls

  function ControlSet(evaluations: seq<PolicyEvaluation>): set<string> {
    set i, c | 0 <= i < |evaluations| && c in evaluations[i].requiredControls :: c
  }

  /** The controls of the kernel and of every report, without repeats, sorted. */
  function Controls(kernel: seq<string>, evaluations: seq<PolicyEvaluation>): seq<string> {
    Sorted(CodePoint, (set c | c in kernel) + ControlSet(evaluations))
  }

  // --------------------------------------------------------------- finish

  const RECEIPT_PREFIX := "urn:gcp:receipt:"

  /** The record `_finish` stores. */
  function Finished(gatewayId: string, graphDigest: Digest, record: ActionRecord, state: ActionState,
                    decision: RuntimeDecision, controls: seq<string>, reasons: seq<string>,
                    policyDigest: Option<Digest>, result: Option<ConnectorResult>): ActionRecord
  {
    var reference := if result.Some? then result.value.resultReference else None;
    var digest := if result.Some? then result.value.resultDigest else None;
    var receipt := Receipt(RECEIPT_PREFIX + record.actionId, gatewayId, record.actionId, record.proposalDigest, state,
                           decision, controls, reasons, graphDigest, policyDigest, reference, digest);
    record.(state := state, decision := Some(decision), controls := controls, reasonCodes := reasons,
            graphDigest := Some(graphDigest), policyDigest := policyDigest, resultReference := reference,
            resultDigest := digest, receipt := Some(receipt))
  }

  /** `_apply_connector_result`. */
  function Applied(gatewayId: string, graphDigest: Digest, record: ActionRecord, result: ConnectorResult): ActionRecord {
    var decision := if record.decision.Some? then record.decision.value else AllowAction;
    match result.outcome
    case EffectCommitted =>
      Finished(gatewayId, graphDigest, record, Committed, decision, record.controls, record.reasonCodes,
               record.policyDigest, Some(result))
    case EffectUnknown =>
      Finished(gatewayId, graphDigest, record, OutcomeUnknown, decision, record.controls,
               UNKNOWN_REASONS, record.policyDigest, Some(result))
    case EffectNotCommitted =>
      Finished(gatewayId, graphDigest, record, Failed, BlockAction, record.controls,
               ["GCP_CONNECTOR_NOT_COMMITTED"], record.policyDigest, Some(result))
  }

  /** A record's receipt, when there is one, says what the record says. */
  ghost predicate ReceiptMatches(record: ActionRecord) {
    record.receipt.Some? ==>
      var r := record.receipt.value;
      && r.actionId == record.actionId && r.proposalDigest == record.proposalDigest && r.state == record.state
      && Some(r.decision) == record.decision && r.controls == record.controls && r.reasonCodes == record.reasonCodes
      && Some(r.graphDigest) == record.graphDigest && r.policyDigest == record.policyDigest
      && r.resultReference == record.resultReference && r.resultDigest == record.resultDigest
  }
}

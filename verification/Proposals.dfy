/** Action proposals, their documents and digests (policy.py, gateway.py). */
module Proposals {
  import opened Prelude
  import opened Canonical

  datatype Proposal = Proposal(
    actionId: string,
    action: string,
    resource: string,
    parametersDigest: string,
    metadata: map<string, Value>)

  /** `_proposal_document`. */
  function ProposalDocument(p: Proposal): Value {
    Dict(map[
      "action_id" := Str(p.actionId),
      "action" := Str(p.action),
      "resource" := Str(p.resource),
      "parameters_digest" := Str(p.parametersDigest),
      "metadata" := Dict(p.metadata)])
  }

  /** It raises when the metadata holds a value outside the canonical domain. */
  function ProposalDigest(p: Proposal): Result<Digest, ErrorCode> {
    ArtifactDigest(ProposalDocument(p))
  }

  lemma DocumentIdentifiesProposal(p: Proposal, q: Proposal)
    ensures ProposalDocument(p) == ProposalDocument(q) <==> p == q
  {
    var a, b := ProposalDocument(p).members, ProposalDocument(q).members;
    if a == b {
      assert a["action_id"] == b["action_id"] && a["action"] == b["action"];
      assert a["resource"] == b["resource"] && a["parameters_digest"] == b["parameters_digest"];
      assert a["metadata"] == b["metadata"];
    }
  }

  lemma DocumentHasNoProof(p: Proposal)
    ensures ProposalDocument(p).members - {"proof"} == ProposalDocument(p).members
  {
  }

  /** A digest determines the proposal it was computed from. */
  lemma DigestIdentifiesProposal(p: Proposal, q: Proposal)
    requires ProposalDigest(p).Ok? && ProposalDigest(p) == ProposalDigest(q)
    ensures p == q
  {
    hide ArtifactDigest;
    DigestIdentifiesContent(ProposalDocument(p), ProposalDocument(q));
    DocumentHasNoProof(p);
    DocumentHasNoProof(q);
    assert ProposalDocument(p) == ProposalDocument(q);
    DocumentIdentifiesProposal(p, q);
  }

  /** Digests exist exactly for proposals whose metadata is in the canonical domain. */
  lemma DigestExistsIff(p: Proposal)
    ensures ProposalDigest(p).Ok? <==> Accepted(Dict(p.metadata))
  {
    hide Canonicalize;
    DigestIdentifiesContent(ProposalDocument(p), Null);
    var a := ProposalDocument(p).members;
    assert a - {"proof"} == a;
    assert a["metadata"] == Dict(p.metadata);
    if Accepted(Dict(p.metadata)) {
      assert forall k :: k in a ==> Accepted(a[k]);
    }
  }

  function TextAt(members: map<string, Value>, key: string): Option<string> {
    if key in members && members[key].Str? then Some(members[key].s) else None
  }

  const KEY_ERROR := OtherCode("KeyError")

  /** The reading half of `_proposal_from_record`; a missing member raises `KeyError`. */
  function ProposalOf(doc: Value): Result<Proposal, ErrorCode> {
    if !doc.Dict? then Err(ActionStateInvalid)
    else
      var m := doc.members;
      var id, action := TextAt(m, "action_id"), TextAt(m, "action");
      var resource, parameters := TextAt(m, "resource"), TextAt(m, "parameters_digest");
      var metadata := if "metadata" in m then m["metadata"] else Dict(map[]);
      if id.None? || action.None? || resource.None? || parameters.None? || !metadata.Dict? then Err(KEY_ERROR)
      else Ok(Proposal(id.value, action.value, resource.value, parameters.value, metadata.members))
  }

  lemma ProposalOfDocument(p: Proposal)
    ensures ProposalOf(ProposalDocument(p)) == Ok(p)
    ensures ProposalOf(Dict(ProposalDocument(p).members - {"metadata"})) == Ok(p.(metadata := map[]))
  {
    var m := ProposalDocument(p).members;
    var bare := m - {"metadata"};
    assert bare["action_id"] == m["action_id"] && bare["action"] == m["action"];
    assert bare["resource"] == m["resource"] && bare["parameters_digest"] == m["parameters_digest"];
    assert m["action_id"] == Str(p.actionId) && m["action"] == Str(p.action);
    assert m["resource"] == Str(p.resource) && m["parameters_digest"] == Str(p.parametersDigest);
    assert m["metadata"] == Dict(p.metadata);
  }
}

/** `verify_transport_envelope` step by step. */
module TransportRuntime {
  import opened Prelude
  import opened Canonical
  import opened KernelRuntime
  import opened Transport

  /** `verify_transport_envelope`. */
  method VerifyTransportEnvelope(t: Terms, envelope: Value, registry: UseRegistry) returns (r: Result<VerifiedTransport, ErrorCode>)
    modifies registry
    ensures (registry.counts, r) == VerifyEnvelope(t, old(registry.counts), envelope)
  {
    hide CheckHeader, CheckProof, CheckTimes, ReadProposal, ReadTransition, ArtifactDigest;
    var header := CheckHeader(t, envelope);
    if header.Err? {
      return Err(header.error);
    }
    HeaderShape(t, envelope);
    var m := envelope.members;
    var proof := CheckProof(t, envelope, header.value.0.runtimeId);
    if proof.Err? {
      return Err(proof.error);
    }
    var times := CheckTimes(t, m["created_at"], m["expires_at"]);
    if times.Err? {
      return Err(times.error);
    }
    var proposal := ReadProposal(m["proposal"]);
    if proposal.Err? {
      return Err(proposal.error);
    }
    if !m["lineage"].List? || m["lineage"].items == [] {
      return Err(TransportInvalid);
    }
    var transitions := CollectTransitions(m["lineage"].items);
    if transitions.Err? {
      return Err(transitions.error);
    }
    CheckedProofHasDigest(t, envelope, header.value.0.runtimeId);
    ExaminedHasNonce(t, envelope);
    var spent := registry.Commit(NonceOf(envelope), Some(1));
    if spent.Err? {
      return Err(spent.error);
    }
    return Ok(VerifiedTransport(envelope, proposal.value, transitions.value, header.value.0, header.value.1,
                                ArtifactDigest(envelope).value));
  }

  /** The loop that appends the transitions. */
  method CollectTransitions(items: seq<Value>) returns (r: Result<seq<Delegated>, ErrorCode>)
    ensures r == ReadTransitions(items)
  {
    var transitions: seq<Delegated> := [];
    for i := 0 to |items|
      invariant ReadTransitions(items[..i]) == Ok(transitions)
    {
      assert items[..i + 1][..i] == items[..i];
      var item := ReadTransition(items[i]);
      if item.Err? {
        ErrorRemains(items, i + 1);
        return Err(item.error);
      }
      transitions := transitions + [item.value];
    }
    assert items[..|items|] == items;
    return Ok(transitions);
  }

  lemma {:induction false} ErrorRemains(items: seq<Value>, n: nat)
    requires n <= |items| && ReadTransitions(items[..n]).Err?
    ensures ReadTransitions(items) == ReadTransitions(items[..n])
    decreases |items|
  {
    hide ReadTransition;
    if n == |items| {
      assert items[..n] == items;
    } else {
      var front := items[..|items| - 1];
      assert front[..n] == items[..n];
      ErrorRemains(front, n);
    }
  }
}

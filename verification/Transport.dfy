/** transport.py: a signed envelope that carries one proposal and its delegation lineage from one
    framework to another. */
module Transport {
  import opened Prelude
  import opened Unicode
  import opened Canonical
  import opened Proposals
  import opened Kernel

  // -------------------------------------------------------------- signatures

  datatype Key = Ed25519(id: nat)

  /** Ed25519 over digests, with the proof value in base64url. */
  datatype Scheme = Scheme(sign: (Key, Digest) -> seq<byte>, encode: seq<byte> -> string, decode: string -> Option<seq<byte>>)

  /** What was encoded decodes, and one signature fits one key and one digest only. */
  ghost predicate Ideal(s: Scheme) {
    && (forall b :: s.decode(s.encode(b)) == Some(b))
    && (forall k, d, k', d' :: s.sign(k, d) == s.sign(k', d') ==> k == k' && d == d')
  }

  const PROOF_TYPE := Str("DataIntegrityProof")
  const CRYPTOSUITE := Str("eddsa-jcs-2022")

  function ProofDocument(method_: string, created: string, value: string): Value {
    Dict(map[
      "type" := PROOF_TYPE,
      "cryptosuite" := CRYPTOSUITE,
      "verification_method" := Str(method_),
      "created" := Str(created),
      "proof_purpose" := Str("authentication"),
      "proof_value" := Str(value)])
  }

  /** `verify_artifact`. */
  function VerifyArtifact(s: Scheme, keys: map<string, Key>, artifact: Value): Result<(), ErrorCode>
    requires artifact.Dict?
  {
    var m := artifact.members;
    if "proof" !in m || !m["proof"].Dict? then Err(InvalidSignature)
    else
      var proof := m["proof"].members;
      var method_, value := TextAt(proof, "verification_method"), TextAt(proof, "proof_value");
      if "type" !in proof || "cryptosuite" !in proof || proof["type"] != PROOF_TYPE || proof["cryptosuite"] != CRYPTOSUITE
      then Err(UnsupportedSemantics)
      else if method_.None? || value.None? then Err(InvalidSignature)
      else if method_.value !in keys then Err(UnknownVerificationMethod)
      else if s.decode(value.value).None? then Err(InvalidSignature)
      else
        match ArtifactDigest(artifact)
        case Err(e) => Err(e)
        case Ok(digest) =>
          if s.decode(value.value).value == s.sign(keys[method_.value], digest) then Ok(()) else Err(InvalidSignature)
  }

  // --------------------------------------------------------------- envelopes

  /** The members of an identity, as the envelope gives them: of any type. */
  datatype FrameworkIdentity = FrameworkIdentity(framework: Value, runtimeId: Value)

  /** `ActionProposal(...)` filled with whatever the envelope holds. */
  datatype RawProposal = RawProposal(actionId: Value, action: Value, resource: Value, parametersDigest: Value, metadata: Value)

  /** `DelegationTransition`, still as documents. */
  datatype Delegated = Delegated(parent: Value, child: Value, proof: Value)

  datatype VerifiedTransport = VerifiedTransport(
    envelope: Value,
    proposal: RawProposal,
    transitions: seq<Delegated>,
    source: FrameworkIdentity,
    destination: FrameworkIdentity,
    digest: Digest)

  const TRANSPORT_PROFILE := Str("gcp-cross-framework-0.1")

  function Identity(framework: string, runtimeId: string): FrameworkIdentity {
    FrameworkIdentity(Str(framework), Str(runtimeId))
  }

  function IdentityDocument(i: FrameworkIdentity): Value {
    Dict(map["framework" := i.framework, "runtime_id" := i.runtimeId])
  }

  function Raw(p: Proposal): RawProposal {
    RawProposal(Str(p.actionId), Str(p.action), Str(p.resource), Str(p.parametersDigest), Dict(p.metadata))
  }

  function RawMembers(p: RawProposal): Value {
    Dict(map[
      "action_id" := p.actionId,
      "action" := p.action,
      "resource" := p.resource,
      "parameters_digest" := p.parametersDigest,
      "metadata" := p.metadata])
  }

  function TransitionDocument(t: Delegated): Value {
    Dict(map["parent" := t.parent, "child" := t.child, "delegation_proof" := t.proof])
  }

  function LineageDocument(transitions: seq<Delegated>): seq<Value> {
    seq(|transitions|, i requires 0 <= i < |transitions| => TransitionDocument(transitions[i]))
  }

  /** The signed content: every member but the proof. */
  datatype Content = Content(
    transportId: Value,
    source: FrameworkIdentity,
    destination: FrameworkIdentity,
    proposal: RawProposal,
    transitions: seq<Delegated>,
    createdAt: Value,
    expiresAt: Value,
    nonce: Value)

  function ContentMembers(c: Content): map<string, Value> {
    map[
      "gcp_version" := Str("0.1"),
      "transport_profile" := TRANSPORT_PROFILE,
      "transport_id" := c.transportId,
      "source" := IdentityDocument(c.source),
      "destination" := IdentityDocument(c.destination),
      "proposal" := RawMembers(c.proposal),
      "lineage" := List(LineageDocument(c.transitions)),
      "created_at" := c.createdAt,
      "expires_at" := c.expiresAt,
      "nonce" := c.nonce]
  }

  /** What a sender passes to `build_transport_envelope`. */
  datatype Request = Request(
    transportId: string,
    sourceFramework: string,
    sourceRuntime: string,
    destinationFramework: string,
    destinationRuntime: string,
    proposal: Proposal,
    transitions: seq<Delegated>,
    createdAt: string,
    expiresAt: string,
    nonce: string)

  function ContentOf(r: Request): Content {
    Content(Str(r.transportId), Identity(r.sourceFramework, r.sourceRuntime),
            Identity(r.destinationFramework, r.destinationRuntime), Raw(r.proposal), r.transitions,
            Str(r.createdAt), Str(r.expiresAt), Str(r.nonce))
  }

  /** `build_transport_envelope`; `clock` is read when `created_at` is empty. */
  function BuildEnvelope(s: Scheme, r: Request, key: Key, method_: string, clock: string): Result<Value, ErrorCode> {
    if r.transitions == [] then Err(TransportInvalid)
    else
      var content := ContentMembers(ContentOf(r));
      match ArtifactDigest(Dict(content))
      case Err(e) => Err(e)
      case Ok(digest) =>
        var created := if r.createdAt == "" then clock else r.createdAt;
        Ok(Dict(content["proof" := ProofDocument(method_, created, s.encode(s.sign(key, digest)))]))
  }

  // ------------------------------------------------------------ verification

  /** What the receiver brings: keys, who may send, where it is, its clock. `parse` is
      `datetime.fromisoformat` on texts that carry a timezone. */
  datatype Terms = Terms(
    scheme: Scheme,
    keys: map<string, Key>,
    sources: map<string, set<string>>,
    destination: FrameworkIdentity,
    framework: Option<string>,
    now: int,
    maximumLifetime: int,
    parse: string -> Option<int>)

  const ENVELOPE_KEYS := {
    "gcp_version", "transport_profile", "transport_id", "source", "destination",
    "proposal", "lineage", "created_at", "expires_at", "nonce", "proof"}
  const IDENTITY_KEYS := {"framework", "runtime_id"}
  const PROPOSAL_KEYS := {"action_id", "action", "resource", "parameters_digest", "metadata"}
  const TRANSITION_KEYS := {"parent", "child", "delegation_proof"}

  /** A mapping that passes `_require_keys`. */
  predicate HasKeys(v: Value, keys: set<string>) {
    v.Dict? && v.members.Keys == keys
  }

  predicate NonEmptyText(v: Value) {
    v.Str? && v.s != ""
  }

  function IdentityOf(v: Value): FrameworkIdentity
    requires HasKeys(v, IDENTITY_KEYS)
  {
    FrameworkIdentity(v.members["framework"], v.members["runtime_id"])
  }

  const TYPE_ERROR := OtherCode("TypeError")

  /** `method not in authorized_sources.get(source.runtime_id, ())`; a list or dict cannot be a key. */
  function MaySend(t: Terms, runtimeId: Value, method_: Option<string>): Result<(), ErrorCode> {
    if runtimeId.List? || runtimeId.Dict? || runtimeId.ForeignKeyDict? then Err(TYPE_ERROR)
    else if runtimeId.Str? && method_.Some? && Authorized(t.sources, runtimeId.s, method_.value) then Ok(())
    else Err(TransportSourceUntrusted)
  }

  /** The checks up to the identities. */
  function CheckHeader(t: Terms, envelope: Value): Result<(FrameworkIdentity, FrameworkIdentity), ErrorCode> {
    if !HasKeys(envelope, ENVELOPE_KEYS) then Err(TransportInvalid)
    else
      var m := envelope.members;
      if m["gcp_version"] != Str("0.1") || m["transport_profile"] != TRANSPORT_PROFILE then Err(TransportInvalid)
      else if !NonEmptyText(m["transport_id"]) || !NonEmptyText(m["nonce"]) then Err(TransportInvalid)
      else if !HasKeys(m["source"], IDENTITY_KEYS) || !HasKeys(m["destination"], IDENTITY_KEYS) then Err(TransportInvalid)
      else
        var source, destination := IdentityOf(m["source"]), IdentityOf(m["destination"]);
        if t.framework.Some? && source.framework != Str(t.framework.value) then Err(TransportSourceUntrusted)
        else if destination != t.destination then Err(TransportDestinationMismatch)
        else Ok((source, destination))
  }

  /** Who signed it, and whether the signature holds. */
  function CheckProof(t: Terms, envelope: Value, runtimeId: Value): Result<(), ErrorCode>
    requires envelope.Dict? && "proof" in envelope.members
  {
    var proof := envelope.members["proof"];
    if !proof.Dict? then Err(TransportInvalid)
    else
      var sender := MaySend(t, runtimeId, TextAt(proof.members, "verification_method"));
      if sender.Err? then sender else VerifyArtifact(t.scheme, t.keys, envelope)
  }

  /** `_parse_time`. */
  function TimeOf(t: Terms, v: Value): Result<int, ErrorCode> {
    if !v.Str? then Err(TransportInvalid)
    else
      match t.parse(v.s)
      case None => Err(TransportInvalid)
      case Some(time) => Ok(time)
  }

  predicate Timely(t: Terms, created: int, expires: int) {
    created <= t.now < expires && created < expires && expires - created <= t.maximumLifetime
  }

  function CheckTimes(t: Terms, createdAt: Value, expiresAt: Value): Result<(), ErrorCode> {
    var created, expires := TimeOf(t, createdAt), TimeOf(t, expiresAt);
    if created.Err? then Err(created.error)
    else if expires.Err? then Err(expires.error)
    else if !Timely(t, created.value, expires.value) then Err(TransportExpired)
    else Ok(())
  }

  function ReadProposal(v: Value): Result<RawProposal, ErrorCode> {
    if !HasKeys(v, PROPOSAL_KEYS) then Err(TransportInvalid)
    else
      var m := v.members;
      Ok(RawProposal(m["action_id"], m["action"], m["resource"], m["parameters_digest"], m["metadata"]))
  }

  function ReadTransition(v: Value): Result<Delegated, ErrorCode> {
    if !HasKeys(v, TRANSITION_KEYS) then Err(TransportInvalid)
    else Ok(Delegated(v.members["parent"], v.members["child"], v.members["delegation_proof"]))
  }

  function ReadTransitions(items: seq<Value>): Result<seq<Delegated>, ErrorCode> {
    if items == [] then Ok([])
    else
      var front := ReadTransitions(items[..|items| - 1]);
      if front.Err? then front
      else
        var last := ReadTransition(items[|items| - 1]);
        if last.Err? then Err(last.error) else Ok(front.value + [last.value])
  }

  function ReadLineage(v: Value): Result<seq<Delegated>, ErrorCode> {
    if !v.List? || v.items == [] then Err(TransportInvalid) else ReadTransitions(v.items)
  }

  /** Everything `verify_transport_envelope` does before it spends the nonce. */
  function Examine(t: Terms, envelope: Value): Result<VerifiedTransport, ErrorCode> {
    var header := CheckHeader(t, envelope);
    if header.Err? then Err(header.error)
    else
      var (source, destination) := header.value;
      var m := envelope.members;
      var proof := CheckProof(t, envelope, source.runtimeId);
      if proof.Err? then Err(proof.error)
      else
        var times := CheckTimes(t, m["created_at"], m["expires_at"]);
        if times.Err? then Err(times.error)
        else
          var proposal := ReadProposal(m["proposal"]);
          if proposal.Err? then Err(proposal.error)
          else
            var transitions := ReadLineage(m["lineage"]);
            if transitions.Err? then Err(transitions.error)
            else
              CheckedProofHasDigest(t, envelope, source.runtimeId);
              Ok(VerifiedTransport(envelope, proposal.value, transitions.value, source, destination,
                                   ArtifactDigest(envelope).value))
  }

  lemma CheckedProofHasDigest(t: Terms, envelope: Value, runtimeId: Value)
    requires envelope.Dict? && "proof" in envelope.members && CheckProof(t, envelope, runtimeId).Ok?
    ensures ArtifactDigest(envelope).Ok?
  {
    hide ArtifactDigest;
  }

  /** `verify_transport_envelope`: the nonce is spent last. */
  function VerifyEnvelope(t: Terms, counts: map<string, nat>, envelope: Value): (map<string, nat>, Result<VerifiedTransport, ErrorCode>) {
    match Examine(t, envelope)
    case Err(e) => (counts, Err(e))
    case Ok(verified) =>
      ExaminedHasNonce(t, envelope);
      var (counts', spent) := UseCommit(counts, NonceOf(envelope), Some(1));
      match spent
      case Err(e) => (counts', Err(e))
      case Ok(_) => (counts', Ok(verified))
  }

  lemma ExaminedHasNonce(t: Terms, envelope: Value)
    requires Examine(t, envelope).Ok?
    ensures HasNonce(envelope)
  {
    hide CheckProof, CheckTimes, ReadProposal, ReadLineage;
  }

  predicate HasNonce(envelope: Value) {
    envelope.Dict? && "nonce" in envelope.members && NonEmptyText(envelope.members["nonce"])
  }

  function NonceOf(envelope: Value): string
    requires HasNonce(envelope)
  {
    envelope.members["nonce"].s
  }

  // ------------------------------------------------- what acceptance means

  /** Both times can be read; the envelope has been made, has not expired, and does not live longer than the
      receiver permits. */
  ghost predicate InWindow(t: Terms, createdAt: Value, expiresAt: Value) {
    exists created, expires :: Written(t, createdAt, created) && Written(t, expiresAt, expires) &&
      created <= t.now && t.now < expires && expires <= created + t.maximumLifetime
  }

  ghost predicate Written(t: Terms, v: Value, time: int) {
    v.Str? && t.parse(v.s) == Some(time)
  }

  lemma TimesIff(t: Terms, createdAt: Value, expiresAt: Value)
    ensures CheckTimes(t, createdAt, expiresAt).Ok? <==> InWindow(t, createdAt, expiresAt)
  {
    var created, expires := TimeOf(t, createdAt), TimeOf(t, expiresAt);
    if created.Ok? && expires.Ok? {
      assert Written(t, createdAt, created.value) && Written(t, expiresAt, expires.value);
    }
  }

  /** The receiver accepts this content, apart from the signature. */
  ghost predicate Admissible(t: Terms, c: Content) {
    && NonEmptyText(c.transportId) && NonEmptyText(c.nonce)
    && c.destination == t.destination
    && (t.framework.Some? ==> c.source.framework == Str(t.framework.value))
    && InWindow(t, c.createdAt, c.expiresAt)
    && c.transitions != []
  }

  /** The proof is a signature over this content by a method allowed to send for its source. */
  ghost predicate SignedFor(t: Terms, c: Content, proof: Value) {
    && proof.Dict? && "type" in proof.members && "cryptosuite" in proof.members
    && proof.members["type"] == PROOF_TYPE && proof.members["cryptosuite"] == CRYPTOSUITE
    && var method_, value := TextAt(proof.members, "verification_method"), TextAt(proof.members, "proof_value");
       && method_.Some? && value.Some? && c.source.runtimeId.Str?
       && Authorized(t.sources, c.source.runtimeId.s, method_.value)
       && method_.value in t.keys
       && ArtifactDigest(Dict(ContentMembers(c))).Ok?
       && t.scheme.decode(value.value) == Some(t.scheme.sign(t.keys[method_.value], ArtifactDigest(Dict(ContentMembers(c))).value))
  }

  function EnvelopeOf(c: Content, proof: Value): (v: Value)
    ensures v.Dict?
  {
    Dict(ContentMembers(c)["proof" := proof])
  }

  lemma EnvelopeParts(c: Content, proof: Value)
    ensures EnvelopeOf(c, proof).members.Keys == ENVELOPE_KEYS
    ensures EnvelopeOf(c, proof).members - {"proof"} == ContentMembers(c)
    ensures ContentMembers(c) - {"proof"} == ContentMembers(c)
    ensures ArtifactDigest(EnvelopeOf(c, proof)) == ArtifactDigest(Dict(ContentMembers(c)))
  {
    hide Canonicalize;
    assert EnvelopeOf(c, proof).members - {"proof"} == ContentMembers(c);
    assert ContentMembers(c) - {"proof"} == ContentMembers(c);
  }

  lemma MembersAre(c: Content, proof: Value)
    ensures var m := EnvelopeOf(c, proof).members;
      && m.Keys == ENVELOPE_KEYS
      && m["gcp_version"] == Str("0.1") && m["transport_profile"] == TRANSPORT_PROFILE
      && m["transport_id"] == c.transportId && m["nonce"] == c.nonce
      && m["source"] == IdentityDocument(c.source) && m["destination"] == IdentityDocument(c.destination)
      && m["proposal"] == RawMembers(c.proposal) && m["lineage"] == List(LineageDocument(c.transitions))
      && m["created_at"] == c.createdAt && m["expires_at"] == c.expiresAt && m["proof"] == proof
  {
    hide EnvelopeOf, ContentMembers, IdentityDocument, RawMembers, LineageDocument;
    EnvelopeParts(c, proof);
    HeadMembers(c, proof);
    BodyMembers(c, proof);
  }

  lemma HeadMembers(c: Content, proof: Value)
    ensures var m := EnvelopeOf(c, proof).members;
      && "gcp_version" in m && m["gcp_version"] == Str("0.1")
      && "transport_profile" in m && m["transport_profile"] == TRANSPORT_PROFILE
      && "transport_id" in m && m["transport_id"] == c.transportId
      && "source" in m && m["source"] == IdentityDocument(c.source)
      && "destination" in m && m["destination"] == IdentityDocument(c.destination)
  {
    hide IdentityDocument, RawMembers, LineageDocument;
  }

  lemma BodyMembers(c: Content, proof: Value)
    ensures var m := EnvelopeOf(c, proof).members;
      && "proposal" in m && m["proposal"] == RawMembers(c.proposal)
      && "lineage" in m && m["lineage"] == List(LineageDocument(c.transitions))
      && "created_at" in m && m["created_at"] == c.createdAt
      && "expires_at" in m && m["expires_at"] == c.expiresAt
      && "nonce" in m && m["nonce"] == c.nonce && "proof" in m && m["proof"] == proof
  {
    hide IdentityDocument, RawMembers, LineageDocument;
  }

  lemma {:induction false} ReadOfLineage(transitions: seq<Delegated>)
    ensures ReadTransitions(LineageDocument(transitions)) == Ok(transitions)
  {
    if transitions == [] {
    } else {
      var n := |transitions| - 1;
      ReadOfLineage(transitions[..n]);
      assert LineageDocument(transitions)[..n] == LineageDocument(transitions[..n]);
      assert LineageDocument(transitions)[n] == TransitionDocument(transitions[n]);
      ReadOfTransition(transitions[n]);
      assert transitions[..n] + [transitions[n]] == transitions;
    }
  }

  lemma ReadOfTransition(d: Delegated)
    ensures ReadTransition(TransitionDocument(d)) == Ok(d)
  {
    assert TransitionDocument(d).members.Keys == TRANSITION_KEYS;
  }

  lemma {:induction false} LineageOfRead(items: seq<Value>)
    requires ReadTransitions(items).Ok?
    ensures LineageDocument(ReadTransitions(items).value) == items
    ensures |ReadTransitions(items).value| == |items|
  {
    if items != [] {
      var n := |items| - 1;
      LineageOfRead(items[..n]);
      TransitionOfRead(items[n]);
      assert items == items[..n] + [items[n]];
    }
  }

  lemma TransitionOfRead(v: Value)
    requires ReadTransition(v).Ok?
    ensures TransitionDocument(ReadTransition(v).value) == v
  {
    assert TransitionDocument(ReadTransition(v).value).members == v.members;
  }

  lemma IdentityOfRead(v: Value)
    requires HasKeys(v, IDENTITY_KEYS)
    ensures IdentityDocument(IdentityOf(v)) == v
  {
    assert IdentityDocument(IdentityOf(v)).members == v.members;
  }

  lemma ProposalOfRead(v: Value)
    requires ReadProposal(v).Ok?
    ensures RawMembers(ReadProposal(v).value) == v
  {
    assert RawMembers(ReadProposal(v).value).members == v.members;
  }

  lemma ReadOfParts(c: Content)
    ensures HasKeys(IdentityDocument(c.source), IDENTITY_KEYS) && IdentityOf(IdentityDocument(c.source)) == c.source
    ensures HasKeys(IdentityDocument(c.destination), IDENTITY_KEYS) && IdentityOf(IdentityDocument(c.destination)) == c.destination
    ensures ReadProposal(RawMembers(c.proposal)) == Ok(c.proposal)
    ensures c.transitions != [] ==> ReadLineage(List(LineageDocument(c.transitions))) == Ok(c.transitions)
    ensures c.transitions == [] ==> ReadLineage(List(LineageDocument(c.transitions))).Err?
  {
    ReadOfLineage(c.transitions);
    assert RawMembers(c.proposal).members.Keys == PROPOSAL_KEYS;
  }

  /** An accepted envelope is an envelope around the content that was read from it. */
  lemma ContentOfEnvelope(t: Terms, envelope: Value) returns (c: Content)
    requires Examine(t, envelope).Ok?
    ensures envelope.Dict? && "proof" in envelope.members && envelope == EnvelopeOf(c, envelope.members["proof"])
    ensures var v := Examine(t, envelope).value;
      c.source == v.source && c.destination == v.destination && c.proposal == v.proposal && c.transitions == v.transitions
  {
    hide CheckProof, CheckTimes, CheckHeader, ReadLineage, ReadProposal, EnvelopeOf;
    var v := Examine(t, envelope).value;
    HeaderShape(t, envelope);
    var m := envelope.members;
    c := Content(m["transport_id"], v.source, v.destination, v.proposal, v.transitions, m["created_at"], m["expires_at"], m["nonce"]);
    ProposalOfRead(m["proposal"]);
    LineageOfReadValue(m["lineage"]);
    MembersAre(c, m["proof"]);
    SameMembers(m, EnvelopeOf(c, m["proof"]).members);
  }

  lemma HeaderShape(t: Terms, envelope: Value)
    requires CheckHeader(t, envelope).Ok?
    ensures HasKeys(envelope, ENVELOPE_KEYS)
    ensures var m := envelope.members;
      && m["gcp_version"] == Str("0.1") && m["transport_profile"] == TRANSPORT_PROFILE
      && m["source"] == IdentityDocument(CheckHeader(t, envelope).value.0)
      && m["destination"] == IdentityDocument(CheckHeader(t, envelope).value.1)
  {
    hide IdentityDocument;
    IdentityOfRead(envelope.members["source"]);
    IdentityOfRead(envelope.members["destination"]);
  }

  lemma LineageOfReadValue(v: Value)
    requires ReadLineage(v).Ok?
    ensures v == List(LineageDocument(ReadLineage(v).value))
  {
    LineageOfRead(v.items);
  }

  lemma SameMembers(m: map<string, Value>, n: map<string, Value>)
    requires m.Keys == ENVELOPE_KEYS && n.Keys == ENVELOPE_KEYS
    requires m["gcp_version"] == n["gcp_version"] && m["transport_profile"] == n["transport_profile"]
    requires m["transport_id"] == n["transport_id"] && m["nonce"] == n["nonce"]
    requires m["source"] == n["source"] && m["destination"] == n["destination"]
    requires m["proposal"] == n["proposal"] && m["lineage"] == n["lineage"]
    requires m["created_at"] == n["created_at"] && m["expires_at"] == n["expires_at"] && m["proof"] == n["proof"]
    ensures m == n
  {
    forall k | k in m ensures k in n && m[k] == n[k] {
      assert k in ENVELOPE_KEYS;
    }
  }

  lemma CheckedProofIff(t: Terms, c: Content, proof: Value)
    ensures CheckProof(t, EnvelopeOf(c, proof), c.source.runtimeId).Ok? <==> SignedFor(t, c, proof)
  {
    hide ArtifactDigest, ContentMembers;
    EnvelopeParts(c, proof);
  }

  /** Acceptance, both directions: an envelope passes exactly when its content is admissible and its
      proof signs that content for its source; what comes out is that content. */
  lemma ExamineIff(t: Terms, c: Content, proof: Value)
    ensures var r := Examine(t, EnvelopeOf(c, proof));
      && (r.Ok? <==> Admissible(t, c) && SignedFor(t, c, proof))
      && (r.Ok? ==> ArtifactDigest(Dict(ContentMembers(c))).Ok?)
      && (r.Ok? ==> r.value == VerifiedTransport(EnvelopeOf(c, proof), c.proposal, c.transitions, c.source, c.destination,
                                               ArtifactDigest(Dict(ContentMembers(c))).value))
  {
    hide ArtifactDigest, CheckProof, SignedFor, CheckTimes, ReadProposal, ReadLineage, RawMembers, LineageDocument,
         IdentityDocument, CheckHeader, EnvelopeOf, ContentMembers, InWindow;
    EnvelopeParts(c, proof);
    MembersAre(c, proof);
    ReadOfParts(c);
    CheckedProofIff(t, c, proof);
    TimesIff(t, c.createdAt, c.expiresAt);
    if SignedFor(t, c, proof) {
      SignedHasDigest(t, c, proof);
    }
    HeaderIff(t, c, proof);
  }

  lemma SignedHasDigest(t: Terms, c: Content, proof: Value)
    requires SignedFor(t, c, proof)
    ensures ArtifactDigest(Dict(ContentMembers(c))).Ok?
  {
  }

  lemma HeaderIff(t: Terms, c: Content, proof: Value)
    ensures var r := CheckHeader(t, EnvelopeOf(c, proof));
      && (r.Ok? <==> NonEmptyText(c.transportId) && NonEmptyText(c.nonce) && c.destination == t.destination
                     && (t.framework.Some? ==> c.source.framework == Str(t.framework.value)))
      && (r.Ok? ==> r.value == (c.source, c.destination))
  {
    hide RawMembers, LineageDocument, IdentityDocument, EnvelopeOf;
    MembersAre(c, proof);
    ReadOfParts(c);
  }

  /** Round trip: an envelope built for a receiver is accepted exactly under these conditions, and the
      receiver then holds the very proposal, lineage and identities the sender put in. */
  lemma BuiltIsAcceptedIff(t: Terms, counts: map<string, nat>, r: Request, key: Key, method_: string, clock: string)
    requires Ideal(t.scheme) && BuildEnvelope(t.scheme, r, key, method_, clock).Ok?
    ensures var envelope := BuildEnvelope(t.scheme, r, key, method_, clock).value;
      var out := VerifyEnvelope(t, counts, envelope).1;
      && (out.Ok? <==>
            && Admissible(t, ContentOf(r))
            && Authorized(t.sources, r.sourceRuntime, method_)
            && method_ in t.keys && t.keys[method_] == key
            && CountOf(counts, r.nonce) == 0)
      && (out.Ok? ==>
            && out.value.proposal == Raw(r.proposal)
            && out.value.transitions == r.transitions
            && out.value.source == Identity(r.sourceFramework, r.sourceRuntime)
            && out.value.destination == Identity(r.destinationFramework, r.destinationRuntime))
  {
    hide ArtifactDigest, ContentMembers, Examine, Admissible;
    var c := ContentOf(r);
    var digest := ArtifactDigest(Dict(ContentMembers(c))).value;
    var created := if r.createdAt == "" then clock else r.createdAt;
    var proof := ProofDocument(method_, created, t.scheme.encode(t.scheme.sign(key, digest)));
    assert BuildEnvelope(t.scheme, r, key, method_, clock).value == EnvelopeOf(c, proof);
    ExamineIff(t, c, proof);
    assert NonceIs(c, proof, r.nonce) by {
      NonceOfContent(c, proof, r.nonce);
    }
    BuiltIsSigned(t, c, key, method_, created);
  }

  ghost predicate NonceIs(c: Content, proof: Value, nonce: string) {
    EnvelopeOf(c, proof).members["nonce"] == Str(nonce)
  }

  lemma NonceOfContent(c: Content, proof: Value, nonce: string)
    requires c.nonce == Str(nonce)
    ensures NonceIs(c, proof, nonce)
  {
  }

  lemma BuiltIsSigned(t: Terms, c: Content, key: Key, method_: string, created: string)
    requires Ideal(t.scheme) && ArtifactDigest(Dict(ContentMembers(c))).Ok?
    ensures var digest := ArtifactDigest(Dict(ContentMembers(c))).value;
      SignedFor(t, c, ProofDocument(method_, created, t.scheme.encode(t.scheme.sign(key, digest)))) <==>
      c.source.runtimeId.Str? && Authorized(t.sources, c.source.runtimeId.s, method_) && method_ in t.keys && t.keys[method_] == key
  {
    hide ArtifactDigest, ContentMembers;
    var digest := ArtifactDigest(Dict(ContentMembers(c))).value;
    var proof := ProofDocument(method_, created, t.scheme.encode(t.scheme.sign(key, digest))).members;
    assert proof["verification_method"] == Str(method_) && proof["proof_value"] == Str(t.scheme.encode(t.scheme.sign(key, digest)));
    assert proof["type"] == PROOF_TYPE && proof["cryptosuite"] == CRYPTOSUITE;
  }

  lemma BuiltNonce(s: Scheme, r: Request, key: Key, method_: string, clock: string)
    requires BuildEnvelope(s, r, key, method_, clock).Ok?
    ensures var e := BuildEnvelope(s, r, key, method_, clock).value;
      e.Dict? && "nonce" in e.members && e.members["nonce"] == Str(r.nonce)
  {
    hide ArtifactDigest;
    var c := ContentOf(r);
    var e := BuildEnvelope(s, r, key, method_, clock).value;
    BodyMembers(c, e.members["proof"]);
    assert e == EnvelopeOf(c, e.members["proof"]);
  }

  /** Content of accepted parts can be signed. */
  lemma BuiltHasDigest(r: Request)
    requires ProposalDigest(r.proposal).Ok?
    requires forall d :: d in r.transitions ==> Accepted(d.parent) && Accepted(d.child) && Accepted(d.proof)
    ensures ArtifactDigest(Dict(ContentMembers(ContentOf(r)))).Ok?
  {
    hide ProposalDigest, ArtifactDigest;
    var c := ContentOf(r);
    DigestExistsIff(r.proposal);
    PartsAccepted(c);
    EnvelopeParts(c, Null);
    var m := ContentMembers(c);
    LineageAccepted(r.transitions);
    ContentAccepted(c);
    DigestIdentifiesContent(Dict(m), Null);
  }

  lemma PartsAccepted(c: Content)
    requires c.source.framework.Str? && c.source.runtimeId.Str? && c.destination.framework.Str? && c.destination.runtimeId.Str?
    requires c.proposal.actionId.Str? && c.proposal.action.Str? && c.proposal.resource.Str? && c.proposal.parametersDigest.Str?
    requires Accepted(c.proposal.metadata)
    ensures Accepted(IdentityDocument(c.source)) && Accepted(IdentityDocument(c.destination)) && Accepted(RawMembers(c.proposal))
  {
  }

  lemma LineageAccepted(transitions: seq<Delegated>)
    requires forall d :: d in transitions ==> Accepted(d.parent) && Accepted(d.child) && Accepted(d.proof)
    ensures Accepted(List(LineageDocument(transitions)))
  {
    forall i | 0 <= i < |transitions| ensures Accepted(TransitionDocument(transitions[i])) {
      assert transitions[i] in transitions;
    }
  }

  lemma ContentAccepted(c: Content)
    requires c.transportId.Str? && c.createdAt.Str? && c.expiresAt.Str? && c.nonce.Str?
    requires Accepted(IdentityDocument(c.source)) && Accepted(IdentityDocument(c.destination)) && Accepted(RawMembers(c.proposal))
    requires Accepted(List(LineageDocument(c.transitions)))
    ensures Accepted(Dict(ContentMembers(c)))
  {
    hide IdentityDocument, RawMembers, LineageDocument;
    var m := ContentMembers(c);
    forall k | k in m ensures Accepted(m[k]) {
    }
  }

  /** Nothing can be changed after signing: an accepted envelope that carries the signature of a built
      one has the content of the built one, so the receiver acts on what the sender sent. */
  lemma SignaturePinsContent(t: Terms, r: Request, key: Key, method_: string, clock: string, envelope: Value)
    requires Ideal(t.scheme) && BuildEnvelope(t.scheme, r, key, method_, clock).Ok?
    requires Examine(t, envelope).Ok?
    requires SignatureOf(t.scheme, envelope) == SignatureOf(t.scheme, BuildEnvelope(t.scheme, r, key, method_, clock).value)
    ensures envelope.members - {"proof"} == ContentMembers(ContentOf(r))
    ensures Examine(t, envelope).value.proposal == Raw(r.proposal)
    ensures Examine(t, envelope).value.transitions == r.transitions
    ensures Examine(t, envelope).value.source == Identity(r.sourceFramework, r.sourceRuntime)
  {
    hide ArtifactDigest, ContentMembers, Examine, Admissible;
    var c := ContentOfEnvelope(t, envelope);
    var proof := envelope.members["proof"];
    ExamineIff(t, c, proof);
    EnvelopeParts(c, proof);
    var sent := ContentOf(r);
    EnvelopeParts(sent, Null);
    var a, b := ArtifactDigest(Dict(ContentMembers(c))), ArtifactDigest(Dict(ContentMembers(sent)));
    assert a == b;
    DigestIdentifiesContent(Dict(ContentMembers(c)), Dict(ContentMembers(sent)));
    assert ContentMembers(c) == ContentMembers(sent);
    ContentDetermined(c, sent);
  }

  /** The signature an envelope carries, whichever of its texts is used. */
  function SignatureOf(s: Scheme, envelope: Value): Option<seq<byte>> {
    if envelope.Dict? && "proof" in envelope.members && envelope.members["proof"].Dict?
    then
      var value := TextAt(envelope.members["proof"].members, "proof_value");
      if value.None? then None else s.decode(value.value)
    else None
  }

  lemma ContentDetermined(a: Content, b: Content)
    requires ContentMembers(a) == ContentMembers(b)
    ensures a == b
  {
    var m, n := ContentMembers(a), ContentMembers(b);
    ReadOfParts(a);
    ReadOfParts(b);
    assert m["transport_id"] == n["transport_id"] && m["nonce"] == n["nonce"];
    assert m["created_at"] == n["created_at"] && m["expires_at"] == n["expires_at"];
    assert m["source"] == n["source"] && m["destination"] == n["destination"];
    assert m["proposal"] == n["proposal"];
    assert m["lineage"] == n["lineage"];
    ReadOfLineage(a.transitions);
    ReadOfLineage(b.transitions);
  }

  // -------------------------------------------------------------- the registry

  datatype Arrival = Arrival(terms: Terms, envelope: Value)

  /** The registry after a run of verifications, whoever performs them. */
  function CountsAfter(counts: map<string, nat>, arrivals: seq<Arrival>): map<string, nat> {
    if arrivals == [] then counts
    else
      var last := arrivals[|arrivals| - 1];
      VerifyEnvelope(last.terms, CountsAfter(counts, arrivals[..|arrivals| - 1]), last.envelope).0
  }

  predicate AcceptedAt(counts: map<string, nat>, arrivals: seq<Arrival>, i: nat)
    requires i < |arrivals|
  {
    VerifyEnvelope(arrivals[i].terms, CountsAfter(counts, arrivals[..i]), arrivals[i].envelope).1.Ok?
  }

  /** One verification: a rejection leaves the registry as it was; an acceptance spends a nonce that
      was unspent, and nothing else. */
  lemma VerificationSpends(t: Terms, counts: map<string, nat>, envelope: Value)
    ensures var (after, r) := VerifyEnvelope(t, counts, envelope);
      && (r.Err? ==> after == counts)
      && (r.Ok? ==> HasNonce(envelope) && CountOf(counts, NonceOf(envelope)) == 0 && after == counts[NonceOf(envelope) := 1])
  {
    hide Examine;
    if Examine(t, envelope).Ok? {
      ExaminedHasNonce(t, envelope);
    }
  }

  lemma {:induction false} SpentStaysSpent(counts: map<string, nat>, arrivals: seq<Arrival>, i: nat, nonce: string)
    requires i <= |arrivals| && CountOf(CountsAfter(counts, arrivals[..i]), nonce) >= 1
    ensures CountOf(CountsAfter(counts, arrivals), nonce) >= 1
    decreases |arrivals|
  {
    hide VerifyEnvelope;
    if i == |arrivals| {
      assert arrivals[..i] == arrivals;
    } else {
      var n := |arrivals| - 1;
      assert arrivals[..n][..i] == arrivals[..i];
      SpentStaysSpent(counts, arrivals[..n], i, nonce);
      VerificationSpends(arrivals[n].terms, CountsAfter(counts, arrivals[..n]), arrivals[n].envelope);
    }
  }

  /** Over any run, on any registry, no nonce is accepted twice: two accepted envelopes differ. */
  lemma NonceAcceptedOnce(counts: map<string, nat>, arrivals: seq<Arrival>, i: nat, j: nat)
    requires i < j < |arrivals| && AcceptedAt(counts, arrivals, i) && AcceptedAt(counts, arrivals, j)
    ensures HasNonce(arrivals[i].envelope) && HasNonce(arrivals[j].envelope)
    ensures NonceOf(arrivals[i].envelope) != NonceOf(arrivals[j].envelope)
  {
    hide VerifyEnvelope;
    VerificationSpends(arrivals[i].terms, CountsAfter(counts, arrivals[..i]), arrivals[i].envelope);
    VerificationSpends(arrivals[j].terms, CountsAfter(counts, arrivals[..j]), arrivals[j].envelope);
    var first := arrivals[..i + 1];
    assert first[..i] == arrivals[..i] && first[i] == arrivals[i];
    assert CountOf(CountsAfter(counts, first), NonceOf(arrivals[i].envelope)) == 1;
    assert arrivals[..j][..i + 1] == first;
    SpentStaysSpent(counts, arrivals[..j], i + 1, NonceOf(arrivals[i].envelope));
  }
}

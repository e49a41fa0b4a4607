/** The receiving boundary of google_adk.py, and what one envelope can bring about through it. */
module GoogleAdk {
  import opened Prelude
  import opened Canonical
  import opened PythonEquality
  import opened Proposals
  import opened Revocation
  import opened Delegation
  import opened ChainAuthority
  import opened Kernel
  import opened KernelRuntime
  import opened Transport
  import opened TransportMatch
  import opened TransportRuntime
  import opened Records
  import opened GatewayMachine
  import opened GatewayInvariant
  import opened GatewayTheorems

  const TRANSPORT_CONTROLS := [
    "GCP_CROSS_FRAMEWORK_TRANSPORT_VERIFIED",
    "GCP_SOURCE_OPENAI_HANDOFF_VERIFIED",
    "GCP_DESTINATION_GOOGLE_ADK_BOUNDARY_VERIFIED"]

  /** The `kernel` closure: the proposal must be the transported one before the lineage is consulted. */
  function KernelCall(transported: RawProposal, k: Leaf, transitions: seq<Transition>, st: KernelState, call: Kernel.Call)
    : (KernelState, Result<seq<string>, ErrorCode>)
  {
    match Match(call.proposal, transported)
    case Err(e) => (st, Err(e))
    case Ok(_) =>
      var (st', r) := DelegatedCall(k, transitions, st, call);
      match r
      case Err(e) => (st', Err(e))
      case Ok(controls) => (st', Ok(TRANSPORT_CONTROLS + controls))
  }

  function ReadAll(read: Delegated -> Transition, transitions: seq<Delegated>): (r: seq<Transition>)
    ensures |r| == |transitions|
  {
    seq(|transitions|, i requires 0 <= i < |transitions| => read(transitions[i]))
  }

  /** `accept`: the nonce is spent before the lineage's shape is looked at. */
  function AcceptOf(trust: Trust, read: Delegated -> Transition, t: Terms, counts: map<string, nat>, envelope: Value)
    : (map<string, nat>, Result<VerifiedTransport, ErrorCode>)
  {
    var (after, verified) := VerifyEnvelope(t, counts, envelope);
    match verified
    case Err(e) => (after, Err(e))
    case Ok(v) => (after, if Continuous(trust, ReadAll(read, v.transitions)) then Ok(v) else Err(ParentMismatch))
  }

  // ----------------------------------------------------------------- objects

  /** `AcceptedADKDelegation`: the verified transport with its kernel. */
  class AcceptedDelegation {
    const verified: VerifiedTransport
    const lineage: DelegatedCapsuleActionVerifier

    constructor (verified: VerifiedTransport, lineage: DelegatedCapsuleActionVerifier)
      ensures this.verified == verified && this.lineage == lineage
    {
      this.verified, this.lineage := verified, lineage;
    }

    method Kernel(call: Kernel.Call) returns (r: Result<seq<string>, ErrorCode>)
      modifies lineage.leaf, lineage.leaf.revocations, lineage.leaf.uses
      ensures (lineage.leaf.State(), r) ==
        KernelCall(verified.proposal, lineage.leaf.leaf, lineage.transitions, old(lineage.leaf.State()), call)
    {
      hide Match, DelegatedCall;
      var same := Match(call.proposal, verified.proposal);
      if same.Err? {
        return Err(same.error);
      }
      var controls := lineage.Verify(call);
      if controls.Err? {
        return Err(controls.error);
      }
      return Ok(TRANSPORT_CONTROLS + controls.value);
    }
  }

  const GOOGLE_ADK_FRAMEWORK := "google-adk-python"
  const SOURCE_FRAMEWORK := "openai-agents-python"

  /** Ten minutes, in microseconds. */
  const MAXIMUM_LIFETIME := 600_000_000

  class GoogleADKGovernanceBoundary {
    const runtimeId: string
    const presenter: string
    const scheme: Scheme
    const keys: map<string, Key>
    const sources: map<string, set<string>>
    const parse: string -> Option<int>
    const trust: Trust
    /** Reads a transition's documents; what they must look like is checked when the kernel is called. */
    const read: Delegated -> Transition
    const revocations: RevocationEvaluator
    const replay: UseRegistry

    constructor (runtimeId: string, presenter: string, scheme: Scheme, keys: map<string, Key>,
                 sources: map<string, set<string>>, parse: string -> Option<int>, trust: Trust,
                 read: Delegated -> Transition, revocations: RevocationEvaluator, replay: UseRegistry)
      ensures this.runtimeId == runtimeId && this.presenter == presenter && this.scheme == scheme && this.keys == keys
      ensures this.sources == sources && this.parse == parse && this.trust == trust && this.read == read
      ensures this.revocations == revocations && this.replay == replay
    {
      this.runtimeId, this.presenter, this.scheme, this.keys := runtimeId, presenter, scheme, keys;
      this.sources, this.parse, this.trust, this.read := sources, parse, trust, read;
      this.revocations, this.replay := revocations, replay;
    }

    function TermsAt(now: int): Terms {
      Terms(scheme, keys, sources, Identity(GOOGLE_ADK_FRAMEWORK, runtimeId), Some(SOURCE_FRAMEWORK), now,
            MAXIMUM_LIFETIME, parse)
    }

    method Accept(envelope: Value, now: int) returns (r: Result<AcceptedDelegation, ErrorCode>)
      modifies replay
      ensures var (counts, accepted) := AcceptOf(trust, read, TermsAt(now), old(replay.counts), envelope);
        && replay.counts == counts
        && (accepted.Err? ==> r == Err(accepted.error))
        && (accepted.Ok? ==> r.Ok? && r.value.verified == accepted.value)
      ensures r.Ok? ==>
        && fresh(r.value) && fresh(r.value.lineage) && fresh(r.value.lineage.leaf) && fresh(r.value.lineage.leaf.uses)
        && r.value.lineage.transitions == ReadAll(read, r.value.verified.transitions)
        && r.value.lineage.leaf.actionBindings == map[] && r.value.lineage.leaf.uses.counts == map[]
        && var leaf := r.value.lineage.leaf.leaf;
           && LeafOf(leaf, r.value.lineage.transitions) && leaf.trust == trust && leaf.presenter == presenter
           && !leaf.allowOffline && leaf.verifiers == map[] && r.value.lineage.leaf.revocations == revocations
    {
      hide VerifyEnvelope, Continuous;
      ghost var before := replay.counts;
      var verified := VerifyTransportEnvelope(TermsAt(now), envelope, replay);
      if verified.Err? {
        return Err(verified.error);
      }
      VerifiedHasTransitions(TermsAt(now), before, envelope);
      var uses := new UseRegistry();
      var lineage := DelegatedCapsuleActionVerifier.Open(
        ReadAll(read, verified.value.transitions), trust, presenter, false, map[], revocations, uses);
      if lineage.Err? {
        return Err(lineage.error);
      }
      var accepted := new AcceptedDelegation(verified.value, lineage.value);
      return Ok(accepted);
    }
  }

  lemma VerifiedHasTransitions(t: Terms, counts: map<string, nat>, envelope: Value)
    requires VerifyEnvelope(t, counts, envelope).1.Ok?
    ensures VerifyEnvelope(t, counts, envelope).1.value.transitions != []
  {
    hide Examine, SignedFor, ContentMembers, ArtifactDigest;
    var c := ContentOfEnvelope(t, envelope);
    ExamineIff(t, c, envelope.members["proof"]);
  }

  /** The controls a governed call reports: transport, capsule, lineage, in this order. */
  lemma ControlsReported(transported: RawProposal, k: Leaf, transitions: seq<Transition>, st: KernelState, call: Kernel.Call)
    requires KernelCall(transported, k, transitions, st, call).1.Ok?
    ensures KernelCall(transported, k, transitions, st, call).1.value == [
      "GCP_CROSS_FRAMEWORK_TRANSPORT_VERIFIED",
      "GCP_SOURCE_OPENAI_HANDOFF_VERIFIED",
      "GCP_DESTINATION_GOOGLE_ADK_BOUNDARY_VERIFIED",
      "GCP_CAPSULE_SCHEMA_VERIFIED",
      "GCP_CAPSULE_SIGNATURE_VERIFIED",
      "GCP_CAPSULE_AUTHORITY_VERIFIED",
      "GCP_REVOCATION_FRESHNESS_VERIFIED",
      "GCP_OBLIGATIONS_VERIFIED",
      "GCP_DELEGATION_LINEAGE_VERIFIED"]
  {
    hide Match, LeafChecks, CheckLineage;
  }

  // ------------------------------------------------- refused, but spent

  /** `accept` refuses an envelope and yet spends its nonce exactly when the envelope verifies and its
      lineage is not continuous; after that nobody can have it accepted. */
  lemma RefusedButSpentIff(trust: Trust, read: Delegated -> Transition, t: Terms, counts: map<string, nat>, envelope: Value)
    ensures var (after, r) := AcceptOf(trust, read, t, counts, envelope);
      && (r.Err? && after != counts <==>
            VerifyEnvelope(t, counts, envelope).1.Ok?
            && !Continuous(trust, ReadAll(read, VerifyEnvelope(t, counts, envelope).1.value.transitions)))
      && (r.Err? && after != counts ==> r.error == ParentMismatch && forall t' :: VerifyEnvelope(t', after, envelope).1.Err?)
  {
    hide VerifyEnvelope, Continuous;
    VerificationSpends(t, counts, envelope);
    var after := VerifyEnvelope(t, counts, envelope).0;
    if after != counts {
      assert CountOf(after, NonceOf(envelope)) == 1 && CountOf(counts, NonceOf(envelope)) == 0;
      forall t' ensures VerifyEnvelope(t', after, envelope).1.Err? {
        VerificationSpends(t', after, envelope);
      }
    }
  }

  /** Two transitions that do not meet, in an otherwise sound envelope, for any receiver and sender. */
  lemma DiscontinuousIsSpent(trust: Trust, read: Delegated -> Transition, t: Terms, r: Request, key: Key, method_: string)
    requires Ideal(t.scheme) && ProposalDigest(r.proposal).Ok?
    requires |r.transitions| == 2 && forall d :: d in r.transitions ==> Accepted(d.parent) && Accepted(d.child) && Accepted(d.proof)
    requires trust.hash(read(r.transitions[0]).child.body) != trust.hash(read(r.transitions[1]).parent.body)
    requires Admissible(t, ContentOf(r)) && Kernel.Authorized(t.sources, r.sourceRuntime, method_)
    requires method_ in t.keys && t.keys[method_] == key
    ensures var built := BuildEnvelope(t.scheme, r, key, method_, r.createdAt);
      built.Ok? && AcceptOf(trust, read, t, map[], built.value) == (map[r.nonce := 1], Err(ParentMismatch))
  {
    hide VerifyEnvelope, Admissible, ProposalDigest, ContentMembers, ArtifactDigest, Accepted;
    BuiltHasDigest(r);
    var built := BuildEnvelope(t.scheme, r, key, method_, r.createdAt);
    BuiltIsAcceptedIff(t, map[], r, key, method_, r.createdAt);
    VerificationSpends(t, map[], built.value);
    BuiltNonce(t.scheme, r, key, method_, r.createdAt);
    var lineage := ReadAll(read, r.transitions);
    assert lineage[0] == read(r.transitions[0]) && lineage[1] == read(r.transitions[1]);
    assert !Continuous(trust, lineage) by {
      assert trust.hash(lineage[0].child.body) != trust.hash(lineage[0 + 1].parent.body);
    }
  }

  // ------------------------------------------------------ one envelope, one effect

  /** The kernel lets through nothing but the transported proposal, and only when the lineage does. */
  lemma KernelLetsThrough(transported: RawProposal, k: Leaf, transitions: seq<Transition>, st: KernelState, call: Kernel.Call)
    ensures var (st', r) := KernelCall(transported, k, transitions, st, call);
      && (r.Ok? <==> Match(call.proposal, transported).Ok? && DelegatedCall(k, transitions, st, call).1.Ok?)
      && (Match(call.proposal, transported).Err? ==> st' == st)
  {
    hide Match, DelegatedCall;
  }

  /** Every answer in the log came from this kernel, in some state, at some time. */
  ghost predicate Served(transported: RawProposal, k: Leaf, transitions: seq<Transition>, log: seq<Consultation>) {
    forall c :: c in log && c.kernel.Returns? ==> CameFrom(transported, k, transitions, c)
  }

  ghost predicate CameFrom(transported: RawProposal, k: Leaf, transitions: seq<Transition>, c: Consultation)
    requires c.kernel.Returns?
  {
    exists st, call: Kernel.Call ::
      call.proposal == c.proposal && KernelCall(transported, k, transitions, st, call).1 == Ok(c.kernel.value)
  }

  lemma ServedMatches(transported: RawProposal, k: Leaf, transitions: seq<Transition>, c: Consultation)
    requires c.kernel.Returns? && CameFrom(transported, k, transitions, c)
    ensures Match(c.proposal, transported).Ok?
  {
    hide Match, DelegatedCall;
    var st, call: Kernel.Call :| call.proposal == c.proposal && KernelCall(transported, k, transitions, st, call).1 == Ok(c.kernel.value);
    KernelLetsThrough(transported, k, transitions, st, call);
  }

  /** A gateway behind an accepted kernel, fresh store and connector, any interleaving of operations,
      crashes and recoveries: at most one effect in all, and it is for a proposal that matches the
      transported one. */
  lemma OneEnvelopeOneEffect(cfg: Config, s: State, transported: RawProposal, k: Leaf, transitions: seq<Transition>)
    requires Reachable(cfg, s) && Served(transported, k, transitions, s.log)
    ensures |s.landed + s.inFlight| <= 1
    ensures forall e: Effect :: e in s.landed + s.inFlight ==>
      Match(e.proposal, transported).Ok? && transported.actionId == Str(e.actionId)
  {
    hide Reachable, Match, CameFrom;
    forall e: Effect | e in s.landed + s.inFlight
      ensures Match(e.proposal, transported).Ok? && transported.actionId == Str(e.actionId)
    {
      EffectMatches(cfg, s, e, transported, k, transitions);
    }
    AtMostOnce(cfg, s);
    OneIdOneEffect(s.landed, s.inFlight);
  }

  lemma EffectMatches(cfg: Config, s: State, e: Effect, transported: RawProposal, k: Leaf, transitions: seq<Transition>)
    requires Reachable(cfg, s) && Served(transported, k, transitions, s.log) && e in s.landed + s.inFlight
    ensures Match(e.proposal, transported).Ok? && transported.actionId == Str(e.actionId)
  {
    hide Reachable, Match, CameFrom, ReachAnswer, Evidence, Bound;
    EffectsAreAuthorised(cfg, s, e);
    CellId(cfg, s, e.actionId, e.proposal);
    var c :| c in s.log && Authorises(cfg, c, e.proposal);
    ServedMatches(transported, k, transitions, c);
    MatchIff(e.proposal, transported);
  }

  lemma OneIdOneEffect(landed: multiset<Effect>, inFlight: multiset<Effect>)
    requires forall id :: AtMostOne(landed, inFlight, id)
    requires forall e: Effect, f: Effect :: e in landed + inFlight && f in landed + inFlight ==> e.actionId == f.actionId
    ensures |landed + inFlight| <= 1
  {
    var all := landed + inFlight;
    if |all| > 0 {
      var e :| e in all;
      assert AtMostOne(landed, inFlight, e.actionId);
      forall f: Effect ensures all[f] == (multiset{e})[f] {
      }
      assert all == multiset{e};
    }
  }

  /** The effect is for exactly the proposal the sender wrote, if its metadata holds no boolean and
      neither 0 nor 1. */
  lemma EffectIsTheTransported(cfg: Config, s: State, e: Effect, sent: Proposal, k: Leaf, transitions: seq<Transition>)
    requires Reachable(cfg, s) && Served(Raw(sent), k, transitions, s.log) && e in s.landed + s.inFlight
    requires ProposalDigest(sent).Ok? && Bitless(Dict(sent.metadata))
    ensures e == Effect(sent.actionId, sent)
  {
    hide Reachable, Match, Served, Bitless, ProposalDigest, Accepted;
    EffectMatches(cfg, s, e, Raw(sent), k, transitions);
    EffectsAreAuthorised(cfg, s, e);
    DigestibleMatchIsExactIff(sent);
  }

  /** The call that let the effect's proposal through. */
  ghost predicate LetThrough(k: Leaf, transitions: seq<Transition>, st: KernelState, call: Kernel.Call, p: Proposal) {
    call.proposal == p && DelegatedCall(k, transitions, st, call).1.Ok?
  }

  lemma EffectWasLetThrough(cfg: Config, s: State, e: Effect, transported: RawProposal, k: Leaf, transitions: seq<Transition>)
    returns (st: KernelState, call: Kernel.Call)
    requires Reachable(cfg, s) && Served(transported, k, transitions, s.log) && e in s.landed + s.inFlight
    ensures LetThrough(k, transitions, st, call, e.proposal)
  {
    hide Reachable, Match, DelegatedCall, KernelCall, ReachAnswer, Evidence, Bound;
    EffectsAreAuthorised(cfg, s, e);
    var c :| c in s.log && Authorises(cfg, c, e.proposal);
    assert CameFrom(transported, k, transitions, c);
    st, call :| call.proposal == c.proposal && KernelCall(transported, k, transitions, st, call).1 == Ok(c.kernel.value);
    KernelLetsThrough(transported, k, transitions, st, call);
  }

  /** Every effect behind an accepted kernel lies within the transported lineage: some grant of every capsule
      allows it, and where the capsules above the leaf are disciplined every capsule permits it; each capsule
      was valid at the time and its mandatory pre-action obligations were answered for. */
  lemma EffectsWithinLineage(cfg: Config, s: State, e: Effect, transported: RawProposal, k: Leaf, transitions: seq<Transition>)
    returns (st: KernelState, call: Kernel.Call)
    requires Reachable(cfg, s) && Served(transported, k, transitions, s.log) && e in s.landed + s.inFlight
    requires LeafOf(k, transitions) && Injective(k.trust.hash) && Continuous(k.trust, transitions)
    ensures LetThrough(k, transitions, st, call, e.proposal) && Chain(k.trust.hash, Lineage(transitions))
    ensures forall i :: 0 <= i < |Lineage(transitions)| ==>
      && CapsuleAllows(k.verifiers, Lineage(transitions)[i], e.proposal)
      && AllAnswered(Lineage(transitions)[i], k.capsule.body, call)
      && Lineage(transitions)[i].notBefore <= call.now < Lineage(transitions)[i].expiresAt
    ensures Disciplined(k.verifiers, Lineage(transitions)) ==>
      forall i :: 0 <= i < |Lineage(transitions)| ==> CapsulePermits(k.verifiers, Lineage(transitions)[i], e.proposal)
  {
    hide Reachable, Served, DelegatedCall, Chain, CapsulePermits, CapsuleAllows, Disciplined, Continuous, Injective, AllAnswered;
    st, call := EffectWasLetThrough(cfg, s, e, transported, k, transitions);
    DelegatedCallIsSound(k, transitions, st, call);
  }

  /** The boundary registers no constraint verifier, so behind it every effect is permitted by every capsule if
      no grant above the leaf is critical, and otherwise still matches a grant of each in action and resource. */
  lemma EffectsBehindTheBoundary(cfg: Config, s: State, e: Effect, transported: RawProposal, k: Leaf, transitions: seq<Transition>, i: nat)
    requires Reachable(cfg, s) && Served(transported, k, transitions, s.log) && e in s.landed + s.inFlight
    requires LeafOf(k, transitions) && Injective(k.trust.hash) && Continuous(k.trust, transitions) && k.verifiers == map[]
    requires i < |Lineage(transitions)|
    ensures exists j :: 0 <= j < |Lineage(transitions)[i].authority| && MatchesGrant(Lineage(transitions)[i].authority[j], e.proposal)
    ensures (forall n, g: Grant, c: Constraint :: 0 <= n < |transitions| && g in Lineage(transitions)[n].authority && c in g.constraints ==> !c.critical)
      ==> CapsulePermits(map[], Lineage(transitions)[i], e.proposal)
  {
    hide Reachable, Served, Chain, CapsulePermits, Disciplined, Continuous, Injective, AllAnswered, AttenuationAllows, ResourceMatches;
    var st, call := EffectsWithinLineage(cfg, s, e, transported, k, transitions);
    var capsule := Lineage(transitions)[i];
    var j :| 0 <= j < |capsule.authority| && AttenuationAllows(map[], capsule.authority[j], e.proposal);
    NothingVerified(capsule.authority[j], e.proposal);
    assert MatchesGrant(capsule.authority[j], e.proposal);
    DisciplinedWithoutVerifiers(Lineage(transitions));
  }

  predicate MatchesGrant(g: Grant, p: Proposal) {
    g.action == p.action && ResourceMatches(g.resource, p.resource)
  }

  /** An envelope that arrived, and the gateway that was started for it if it was accepted. */
  datatype Delivery = Delivery(arrival: Arrival, cfg: Config, leaf: Leaf, transitions: seq<Transition>, world: State)

  function Arrivals(ds: seq<Delivery>): (r: seq<Arrival>)
    ensures |r| == |ds| && forall i :: 0 <= i < |ds| ==> r[i] == ds[i].arrival
  {
    seq(|ds|, i requires 0 <= i < |ds| => ds[i].arrival)
  }

  function Outcome(counts: map<string, nat>, ds: seq<Delivery>, i: nat): Result<VerifiedTransport, ErrorCode>
    requires i < |ds|
  {
    VerifyEnvelope(ds[i].arrival.terms, CountsAfter(counts, Arrivals(ds)[..i]), ds[i].arrival.envelope).1
  }

  /** Only an accepted envelope gets a gateway, and that gateway asks the accepted kernel. */
  ghost predicate Handled(counts: map<string, nat>, ds: seq<Delivery>, i: nat)
    requires i < |ds|
  {
    var r := Outcome(counts, ds, i);
    if r.Ok?
    then Reachable(ds[i].cfg, ds[i].world) && Served(r.value.proposal, ds[i].leaf, ds[i].transitions, ds[i].world.log)
    else ds[i].world == INIT
  }

  ghost function Effects(d: Delivery): multiset<Effect> {
    d.world.landed + d.world.inFlight
  }

  /** Over any run of one boundary and all its gateways, however often an envelope is presented: one
      effect at most bears its nonce, and it is for the proposal that envelope carries. */
  lemma OneNonceOneEffect(counts: map<string, nat>, ds: seq<Delivery>, i: nat, j: nat)
    requires i < |ds| && j < |ds| && Handled(counts, ds, i) && Handled(counts, ds, j)
    requires Effects(ds[i]) != multiset{} && Effects(ds[j]) != multiset{}
    ensures Outcome(counts, ds, i).Ok? && Outcome(counts, ds, j).Ok?
    ensures HasNonce(ds[i].arrival.envelope) && HasNonce(ds[j].arrival.envelope)
    ensures NonceOf(ds[i].arrival.envelope) == NonceOf(ds[j].arrival.envelope) ==> i == j
    ensures |Effects(ds[i])| <= 1
    ensures forall e: Effect :: e in Effects(ds[i]) ==> Match(e.proposal, Outcome(counts, ds, i).value.proposal).Ok?
  {
    hide Reachable, Match, Served, VerifyEnvelope;
    var arrivals := Arrivals(ds);
    assert AcceptedAt(counts, arrivals, i) && AcceptedAt(counts, arrivals, j);
    VerificationSpends(arrivals[i].terms, CountsAfter(counts, arrivals[..i]), arrivals[i].envelope);
    VerificationSpends(arrivals[j].terms, CountsAfter(counts, arrivals[..j]), arrivals[j].envelope);
    if i < j {
      NonceAcceptedOnce(counts, arrivals, i, j);
    } else if j < i {
      NonceAcceptedOnce(counts, arrivals, j, i);
    }
    OneEnvelopeOneEffect(ds[i].cfg, ds[i].world, Outcome(counts, ds, i).value.proposal, ds[i].leaf, ds[i].transitions);
  }
}

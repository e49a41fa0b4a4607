/** action_kernel.py and replay.py as functions: one call of the leaf verifier, one call of the
    delegated verifier, and what runs of such calls guarantee. */
module Kernel {
  import opened Prelude
  import opened Proposals
  import opened Delegation
  import opened ChainAuthority
  import opened Revocation

  datatype Proof = Proof(method_: string, value: string)

  datatype SignedCapsule = SignedCapsule(body: Capsule, proof: Proof)

  datatype DelegationProof = DelegationProof(
    parent: CapsuleRef,
    child: CapsuleRef,
    delegator: string,
    childSubject: string,
    proof: Proof)

  datatype Transition = Transition(parent: SignedCapsule, child: SignedCapsule, proof: DelegationProof)

  /** The trust configuration: digest, schema and signature checks, and who may sign what. */
  datatype Trust = Trust(
    hash: Capsule -> string,
    schemaOk: SignedCapsule -> bool,
    signature: SignedCapsule -> Result<(), ErrorCode>,
    issuers: map<string, set<string>>,
    proofSchemaOk: DelegationProof -> bool,
    proofSignature: DelegationProof -> Result<(), ErrorCode>,
    delegators: map<string, set<string>>)

  const SCHEMA_INVALID := OtherCode("GCP_SCHEMA_INVALID")

  predicate Authorized(table: map<string, set<string>>, who: string, method_: string) {
    who in table && method_ in table[who]
  }

  /** `_verify_capsule`, which is also how the leaf verifier starts. */
  function VerifyCapsule(t: Trust, c: SignedCapsule): Result<(), ErrorCode> {
    if !t.schemaOk(c) then Err(SCHEMA_INVALID)
    else if t.signature(c).Err? then t.signature(c)
    else if !Authorized(t.issuers, c.body.issuer, c.proof.method_) then Err(UnauthorizedCapsuleIssuer)
    else Ok(())
  }

  function RefOf(t: Trust, c: Capsule): CapsuleRef {
    CapsuleRef(c.capsuleId, c.taskId, t.hash(c))
  }

  /** `validate_delegation_proof`. */
  function ValidateProof(t: Trust, proof: DelegationProof, parent: Capsule, child: Capsule): Result<(), ErrorCode> {
    if proof.parent != RefOf(t, parent) || proof.child != RefOf(t, child)
       || Some(proof.delegator) != child.delegator || proof.childSubject != child.subject
    then Err(InvalidDelegationProof)
    else
      match t.proofSignature(proof)
      case Ok(_) => Ok(())
      case Err(e) =>
        if e == InvalidSignature || e == UnknownVerificationMethod then Err(InvalidDelegationProof) else Err(e)
  }

  /** One round of the delegated verifier's loop. */
  function CheckTransition(t: Trust, tr: Transition, ancestors: seq<string>): Result<(), ErrorCode> {
    var parent, child := VerifyCapsule(t, tr.parent), VerifyCapsule(t, tr.child);
    if parent.Err? then parent
    else if child.Err? then child
    else
      var link := ValidateDelegation(t.hash, tr.parent.body, tr.child.body, ancestors);
      if link.Err? then link
      else if !t.proofSchemaOk(tr.proof) then Err(SCHEMA_INVALID)
      else
        var proof := ValidateProof(t, tr.proof, tr.parent.body, tr.child.body);
        if proof.Err? then proof
        else if !Authorized(t.delegators, tr.proof.delegator, tr.proof.proof.method_) then Err(InvalidDelegationProof)
        else Ok(())
  }

  /** The loop over the lineage, with the parents' ids collected so far. */
  function CheckLineage(t: Trust, transitions: seq<Transition>, ancestors: seq<string>): Result<(), ErrorCode>
    decreases |transitions|
  {
    if transitions == [] then Ok(())
    else
      var first := CheckTransition(t, transitions[0], ancestors);
      if first.Err? then first
      else CheckLineage(t, transitions[1..], ancestors + [transitions[0].parent.body.capsuleId])
  }

  /** `_validate_chain_shape`: consecutive transitions meet in the same capsule revision. */
  predicate Continuous(t: Trust, transitions: seq<Transition>) {
    forall i :: 0 <= i < |transitions| - 1 ==>
      t.hash(transitions[i].child.body) == t.hash(transitions[i + 1].parent.body)
  }

  /** The capsules of a lineage, first to last. */
  function Lineage(transitions: seq<Transition>): (r: seq<Capsule>)
    requires transitions != []
    ensures |r| == |transitions| + 1
  {
    [transitions[0].parent.body] + seq(|transitions|, i requires 0 <= i < |transitions| => transitions[i].child.body)
  }

  ghost predicate Injective(hash: Capsule -> string) {
    forall a, b :: hash(a) == hash(b) ==> a == b
  }

  function ParentIds(transitions: seq<Transition>): (r: seq<string>)
    ensures |r| == |transitions| && forall i :: 0 <= i < |r| ==> r[i] == transitions[i].parent.body.capsuleId
  {
    seq(|transitions|, i requires 0 <= i < |transitions| => transitions[i].parent.body.capsuleId)
  }

  lemma {:induction false} LineageTransitions(t: Trust, transitions: seq<Transition>, ancestors: seq<string>, k: nat)
    requires CheckLineage(t, transitions, ancestors).Ok? && k < |transitions|
    ensures CheckTransition(t, transitions[k], ancestors + ParentIds(transitions[..k])).Ok?
    decreases |transitions|
  {
    hide CheckTransition;
    if k == 0 {
      assert ancestors + ParentIds(transitions[..0]) == ancestors;
    } else {
      var id := transitions[0].parent.body.capsuleId;
      LineageTransitions(t, transitions[1..], ancestors + [id], k - 1);
      assert ancestors + ParentIds(transitions[..k]) == (ancestors + [id]) + ParentIds(transitions[1..][..k - 1]);
    }
  }

  lemma CheckedTransition(t: Trust, tr: Transition, ancestors: seq<string>)
    requires CheckTransition(t, tr, ancestors).Ok?
    ensures VerifyCapsule(t, tr.parent).Ok? && VerifyCapsule(t, tr.child).Ok?
    ensures Link(t.hash, tr.parent.body, tr.child.body)
    ensures tr.child.body.capsuleId != tr.parent.body.capsuleId && tr.child.body.capsuleId !in ancestors
  {
    hide Link, VerifyCapsule, ValidateDelegation, ValidateProof;
    ValidatedIsLink(t.hash, tr.parent.body, tr.child.body, ancestors);
  }

  /** An accepted lineage is a chain: linked throughout, with pairwise distinct capsule ids. */
  lemma AcceptedLineageIsChain(t: Trust, transitions: seq<Transition>)
    requires transitions != [] && Injective(t.hash)
    requires Continuous(t, transitions) && CheckLineage(t, transitions, []).Ok?
    ensures Chain(t.hash, Lineage(transitions))
  {
    hide Link, CheckTransition, CheckLineage;
    var capsules := Lineage(transitions);
    forall i | 0 <= i < |transitions|
      ensures capsules[i] == transitions[i].parent.body && capsules[i + 1] == transitions[i].child.body
    {
      if i > 0 {
        assert t.hash(transitions[i - 1].child.body) == t.hash(transitions[i - 1 + 1].parent.body);
      }
    }
    forall i | 0 <= i < |capsules| - 1 ensures Link(t.hash, capsules[i], capsules[i + 1]) {
      LineageTransitions(t, transitions, [], i);
      CheckedTransition(t, transitions[i], [] + ParentIds(transitions[..i]));
    }
    forall i, j | 0 <= i < j < |capsules| ensures capsules[i].capsuleId != capsules[j].capsuleId {
      LineageTransitions(t, transitions, [], j - 1);
      var ids := [] + ParentIds(transitions[..j - 1]);
      CheckedTransition(t, transitions[j - 1], ids);
      if i < j - 1 {
        assert ids[i] == transitions[i].parent.body.capsuleId;
      }
    }
  }

  // --------------------------------------------------------- the leaf verifier

  /** What one verifier object keeps between calls. */
  datatype KernelState = KernelState(bindings: map<string, string>, counts: map<string, nat>, statuses: Cache)

  datatype Leaf = Leaf(
    trust: Trust,
    capsule: SignedCapsule,
    presenter: string,
    ancestors: seq<Capsule>,
    allowOffline: bool,
    verifiers: ConstraintVerifiers)

  /** What a call reads from outside. */
  datatype Call = Call(
    proposal: Proposal,
    now: int,
    provider: Option<Provider>,
    obligationHolds: (Obligation, Proposal) -> bool)

  const LEAF_CONTROLS := [
    "GCP_CAPSULE_SCHEMA_VERIFIED",
    "GCP_CAPSULE_SIGNATURE_VERIFIED",
    "GCP_CAPSULE_AUTHORITY_VERIFIED",
    "GCP_REVOCATION_FRESHNESS_VERIFIED",
    "GCP_OBLIGATIONS_VERIFIED"]

  predicate ObligationsHold(c: Capsule, call: Call) {
    forall i :: 0 <= i < |c.obligations| ==>
      c.obligations[i].mandatory && c.obligations[i].point == BeforeAction ==>
        call.obligationHolds(c.obligations[i], call.proposal)
  }

  /** The checks before the use is counted; only the status cache may change. */
  function LeafChecks(k: Leaf, statuses: Cache, call: Call): (Cache, Result<(), ErrorCode>) {
    var c := k.capsule.body;
    var verified := VerifyCapsule(k.trust, k.capsule);
    if verified.Err? then (statuses, verified)
    else if c.subject != k.presenter then (statuses, Err(WrongAudience))
    else if call.now < c.notBefore then (statuses, Err(CapsuleNotYetValid))
    else if call.now >= c.expiresAt then (statuses, Err(CapsuleExpired))
    else
      var (statuses', revocation) :=
        EvaluateFrom(k.trust.hash, statuses, k.ancestors + [c], call.now, call.provider, k.allowOffline);
      match revocation
      case Err(e) => (statuses', Err(e))
      case Ok(_) =>
        if !CapsulePermits(k.verifiers, c, call.proposal) then (statuses', Err(ActionNotAuthorized))
        else if !ObligationsHold(c, call) then (statuses', Err(ObligationUnsatisfied))
        else (statuses', Ok(()))
  }

  function MaxUses(r: Replay): nat {
    match r
    case SingleUse => 1
    case MultiUse(maxUses) => if maxUses.Some? then maxUses.value else 1
  }

  function CountOf(counts: map<string, nat>, id: string): nat {
    if id in counts then counts[id] else 0
  }

  /** `UseRegistry.commit`. */
  function UseCommit(counts: map<string, nat>, id: string, maxUses: Option<nat>): (map<string, nat>, Result<nat, ErrorCode>) {
    if maxUses.Some? && CountOf(counts, id) >= maxUses.value then (counts, Err(ReplayDetected))
    else (counts[id := CountOf(counts, id) + 1], Ok(CountOf(counts, id) + 1))
  }

  /** The binding of the action id, and the use it costs when it is new. */
  function Bind(k: Leaf, st: KernelState, id: string): (KernelState, Result<seq<string>, ErrorCode>) {
    var digest := k.trust.hash(k.capsule.body);
    if id in st.bindings then
      if st.bindings[id] != digest then (st, Err(ActionIdConflict)) else (st, Ok(LEAF_CONTROLS))
    else
      var (counts', used) := UseCommit(st.counts, digest, Some(MaxUses(k.capsule.body.replay)));
      match used
      case Err(e) => (st.(counts := counts'), Err(e))
      case Ok(_) => (st.(counts := counts', bindings := st.bindings[id := digest]), Ok(LEAF_CONTROLS))
  }

  /** `CapsuleActionVerifier.__call__`. */
  function LeafCall(k: Leaf, st: KernelState, call: Call): (KernelState, Result<seq<string>, ErrorCode>) {
    var (statuses', checked) := LeafChecks(k, st.statuses, call);
    match checked
    case Err(e) => (st.(statuses := statuses'), Err(e))
    case Ok(_) => Bind(k, st.(statuses := statuses'), call.proposal.actionId)
  }

  const LINEAGE_CONTROL := "GCP_DELEGATION_LINEAGE_VERIFIED"

  /** `DelegatedCapsuleActionVerifier.__call__`. */
  function DelegatedCall(k: Leaf, transitions: seq<Transition>, st: KernelState, call: Call)
    : (KernelState, Result<seq<string>, ErrorCode>)
  {
    var lineage := CheckLineage(k.trust, transitions, []);
    if lineage.Err? then (st, Err(lineage.error))
    else
      var (st', r) := LeafCall(k, st, call);
      match r
      case Err(e) => (st', Err(e))
      case Ok(controls) => (st', Ok(controls + [LINEAGE_CONTROL]))
  }

  /** The leaf verifier the delegated one builds from its transitions. */
  predicate LeafOf(k: Leaf, transitions: seq<Transition>) {
    && transitions != []
    && k.capsule == transitions[|transitions| - 1].child
    && k.ancestors == Lineage(transitions)[..|transitions|]
  }

  // ------------------------------------------------------------ what a call means

  lemma LeafReturns(k: Leaf, st: KernelState, call: Call)
    requires LeafCall(k, st, call).1.Ok?
    ensures LeafChecks(k, st.statuses, call).1.Ok?
    ensures CapsulePermits(k.verifiers, k.capsule.body, call.proposal) && ObligationsHold(k.capsule.body, call)
    ensures k.capsule.body.subject == k.presenter
    ensures k.capsule.body.notBefore <= call.now < k.capsule.body.expiresAt
    ensures EvaluateFrom(k.trust.hash, st.statuses, k.ancestors + [k.capsule.body], call.now, call.provider,
                         k.allowOffline).1.Ok?
  {
    hide VerifyCapsule, EvaluateFrom, CapsulePermits, ObligationsHold, Bind;
  }

  /** The verifier answered yes for the leaf's copy of this obligation. */
  ghost predicate Answered(leaf: Capsule, o: Obligation, call: Call) {
    exists i :: 0 <= i < |leaf.obligations| && SameObligation(leaf.obligations[i], o) && call.obligationHolds(leaf.obligations[i], call.proposal)
  }

  ghost predicate AllAnswered(c: Capsule, leaf: Capsule, call: Call) {
    forall o :: o in c.obligations && o.mandatory && o.point == BeforeAction ==> Answered(leaf, o, call)
  }

  /** The verifier treats obligations alike that Python cannot tell apart. */
  ghost predicate Uniform(call: Call) {
    forall a, b :: SameObligation(a, b) ==> call.obligationHolds(a, call.proposal) == call.obligationHolds(b, call.proposal)
  }

  /** When a delegated verifier returns, the proposal is covered by a grant of every capsule of the
      lineage, and every mandatory pre-action obligation of every capsule was answered for. */
  lemma DelegatedCallIsSound(k: Leaf, transitions: seq<Transition>, st: KernelState, call: Call)
    requires LeafOf(k, transitions) && Injective(k.trust.hash) && Continuous(k.trust, transitions)
    requires DelegatedCall(k, transitions, st, call).1.Ok?
    ensures Chain(k.trust.hash, Lineage(transitions))
    ensures Disciplined(k.verifiers, Lineage(transitions)) ==>
      forall i :: 0 <= i < |Lineage(transitions)| ==> CapsulePermits(k.verifiers, Lineage(transitions)[i], call.proposal)
    ensures forall i :: 0 <= i < |Lineage(transitions)| ==> CapsuleAllows(k.verifiers, Lineage(transitions)[i], call.proposal)
    ensures forall i :: 0 <= i < |Lineage(transitions)| ==> AllAnswered(Lineage(transitions)[i], k.capsule.body, call)
    ensures Uniform(call) ==> forall i :: 0 <= i < |Lineage(transitions)| ==> ObligationsHold(Lineage(transitions)[i], call)
    ensures forall i :: 0 <= i < |Lineage(transitions)| ==>
      Lineage(transitions)[i].notBefore <= call.now < Lineage(transitions)[i].expiresAt
    ensures |transitions| <= Lineage(transitions)[0].delegationDepth
  {
    hide LeafCall, CheckLineage, Chain, CapsulePermits, Disciplined, Continuous, Injective, LeafChecks, AllAnswered, Uniform, ObligationsHold, CapsuleAllows;
    var capsules := Lineage(transitions);
    LeafReturns(k, st, call);
    AcceptedLineageIsChain(k.trust, transitions);
    assert capsules[|capsules| - 1] == k.capsule.body;
    forall i | 0 <= i < |capsules| ensures CapsuleAllows(k.verifiers, capsules[i], call.proposal) {
      ChainAllows(k.trust.hash, k.verifiers, capsules, call.proposal, i);
    }
    if Disciplined(k.verifiers, capsules) {
      forall i | 0 <= i < |capsules| ensures CapsulePermits(k.verifiers, capsules[i], call.proposal) {
        ChainPermits(k.trust.hash, k.verifiers, capsules, call.proposal, i);
      }
    }
    forall i | 0 <= i < |capsules|
      ensures AllAnswered(capsules[i], k.capsule.body, call) && (Uniform(call) ==> ObligationsHold(capsules[i], call))
    {
      ObligationsAbove(k.trust.hash, capsules, i, call);
    }
    forall i | 0 <= i < |capsules| ensures capsules[i].notBefore <= call.now < capsules[i].expiresAt {
      WindowsAbove(k.trust.hash, capsules, i);
    }
    ChainAttenuates(k.trust.hash, capsules, |capsules| - 1);
  }

  lemma ObligationsAbove(hash: Capsule -> string, capsules: seq<Capsule>, i: nat, call: Call)
    requires Chain(hash, capsules) && i < |capsules| && ObligationsHold(capsules[|capsules| - 1], call)
    ensures AllAnswered(capsules[i], capsules[|capsules| - 1], call)
    ensures Uniform(call) ==> ObligationsHold(capsules[i], call)
  {
    hide Chain, SameObligation;
    var leaf := capsules[|capsules| - 1];
    forall o | o in capsules[i].obligations && o.mandatory && o.point == BeforeAction ensures Answered(leaf, o, call) {
      ChainObligations(hash, capsules, i, o);
      var m :| 0 <= m < |leaf.obligations| && SameObligation(leaf.obligations[m], o);
      SameKind(leaf.obligations[m], o);
    }
  }

  lemma {:induction false} WindowsAbove(hash: Capsule -> string, capsules: seq<Capsule>, i: nat)
    requires Chain(hash, capsules) && i < |capsules|
    ensures capsules[i].notBefore <= capsules[|capsules| - 1].notBefore
    ensures capsules[|capsules| - 1].expiresAt <= capsules[i].expiresAt
    decreases |capsules| - i
  {
    hide AuthorityContained, BudgetsWithin;
    if i < |capsules| - 1 {
      assert Link(hash, capsules[i], capsules[i + 1]);
      WindowsAbove(hash, capsules, i + 1);
    }
  }

  /** When it returns, every online-strict capsule of the lineage was reported live: the leaf not
      revoked, an ancestor not revoked with cascade. */
  lemma DelegatedCallSeesRevocations(k: Leaf, transitions: seq<Transition>, st: KernelState, call: Call, i: nat)
    requires LeafOf(k, transitions) && DelegatedCall(k, transitions, st, call).1.Ok?
    requires i < |Lineage(transitions)| && Lineage(transitions)[i].freshness.OnlineStrict?
    ensures ReportedClear(k.trust.hash, Lineage(transitions)[i], i == |Lineage(transitions)| - 1, call.provider)
  {
    hide LeafCall, CheckLineage, EvaluateFrom, ReportedClear, LeafChecks, CapsulePermits, ObligationsHold;
    LeafReturns(k, st, call);
    var capsules := Lineage(transitions);
    assert k.ancestors + [k.capsule.body] == capsules;
    EvaluatedOnlineIsClear(k.trust.hash, st.statuses, capsules, call.now, call.provider, k.allowOffline, i);
  }

  // ------------------------------------------------------------------- runs

  /** A verifier whose use registry nobody else writes to: the uses counted are its bound ids. */
  ghost predicate Private(k: Leaf, st: KernelState) {
    var digest := k.trust.hash(k.capsule.body);
    && (forall id :: id in st.bindings ==> st.bindings[id] == digest)
    && CountOf(st.counts, digest) == |st.bindings|
    && |st.bindings| <= MaxUses(k.capsule.body.replay)
  }

  const FRESH_KERNEL := KernelState(map[], map[], map[])

  lemma BindingsGrow(bindings: map<string, string>, id: string, digest: string)
    requires id !in bindings
    ensures |bindings[id := digest]| == |bindings| + 1
  {
    assert bindings[id := digest].Keys == bindings.Keys + {id};
    assert |bindings[id := digest].Keys| == |bindings[id := digest]|;
  }

  /** One call: a failure binds and counts nothing; a retry of a bound id costs nothing; a success
      leaves its id bound. */
  lemma CallAccounts(k: Leaf, transitions: seq<Transition>, st: KernelState, call: Call)
    requires Private(k, st)
    ensures var (st', r) := DelegatedCall(k, transitions, st, call);
      && Private(k, st')
      && (r.Err? ==> st'.bindings == st.bindings && st'.counts == st.counts)
      && (call.proposal.actionId in st.bindings ==> st'.bindings == st.bindings && st'.counts == st.counts)
      && (r.Ok? ==> call.proposal.actionId in st'.bindings)
      && st.bindings.Keys <= st'.bindings.Keys
  {
    hide CheckLineage, LeafChecks;
    var id, digest := call.proposal.actionId, k.trust.hash(k.capsule.body);
    if id !in st.bindings {
      BindingsGrow(st.bindings, id, digest);
    }
  }

  function RunCalls(k: Leaf, transitions: seq<Transition>, st: KernelState, calls: seq<Call>): KernelState {
    if calls == [] then st
    else DelegatedCall(k, transitions, RunCalls(k, transitions, st, calls[..|calls| - 1]), calls[|calls| - 1]).0
  }

  /** The action ids that some call of the run authorised. */
  ghost function AuthorisedIds(k: Leaf, transitions: seq<Transition>, st: KernelState, calls: seq<Call>): set<string> {
    if calls == [] then {}
    else
      var before := RunCalls(k, transitions, st, calls[..|calls| - 1]);
      AuthorisedIds(k, transitions, st, calls[..|calls| - 1]) +
      (if DelegatedCall(k, transitions, before, calls[|calls| - 1]).1.Ok? then {calls[|calls| - 1].proposal.actionId} else {})
  }

  lemma {:induction false} RunAccounts(k: Leaf, transitions: seq<Transition>, st: KernelState, calls: seq<Call>)
    requires Private(k, st)
    ensures Private(k, RunCalls(k, transitions, st, calls))
    ensures AuthorisedIds(k, transitions, st, calls) <= RunCalls(k, transitions, st, calls).bindings.Keys
  {
    hide Private, DelegatedCall;
    if calls != [] {
      RunAccounts(k, transitions, st, calls[..|calls| - 1]);
      CallAccounts(k, transitions, RunCalls(k, transitions, st, calls[..|calls| - 1]), calls[|calls| - 1]);
    }
  }

  /** Over any run of a fresh delegated verifier at most `max_uses` distinct action ids are authorised. */
  lemma UsesAreLimited(k: Leaf, transitions: seq<Transition>, calls: seq<Call>)
    ensures |AuthorisedIds(k, transitions, FRESH_KERNEL, calls)| <= MaxUses(k.capsule.body.replay)
    ensures RunCalls(k, transitions, FRESH_KERNEL, calls).bindings.Keys >= AuthorisedIds(k, transitions, FRESH_KERNEL, calls)
  {
    hide RunCalls, AuthorisedIds;
    RunAccounts(k, transitions, FRESH_KERNEL, calls);
    var st := RunCalls(k, transitions, FRESH_KERNEL, calls);
    SubsetSize(AuthorisedIds(k, transitions, FRESH_KERNEL, calls), st.bindings.Keys);
    assert |st.bindings.Keys| == |st.bindings|;
  }
}

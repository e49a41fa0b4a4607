/** Exactly when the two kernel verifiers return: every check they make, said of the trust configuration,
    the capsules, the proofs and the revocation records themselves. */
module KernelChecks {
  import opened Prelude
  import opened Proposals
  import opened Delegation
  import opened ChainAuthority
  import opened Revocation
  import opened LineageStatus
  import opened Kernel

  // ----------------------------------------------------------------- lineage

  /** Well formed, its signature verifies, and its issuer may issue by this method. */
  ghost predicate Authentic(t: Trust, c: SignedCapsule) {
    && t.schemaOk(c)
    && t.signature(c).Ok?
    && c.body.issuer in t.issuers && c.proof.method_ in t.issuers[c.body.issuer]
  }

  /** The proof of a transition is well formed, names these very two capsules, the delegator the child states
      and the child's subject, verifies, and was made by a method its delegator may use. */
  ghost predicate Proven(t: Trust, tr: Transition) {
    var parent, child, proof := tr.parent.body, tr.child.body, tr.proof;
    && t.proofSchemaOk(proof)
    && proof.parent == CapsuleRef(parent.capsuleId, parent.taskId, t.hash(parent))
    && proof.child == CapsuleRef(child.capsuleId, child.taskId, t.hash(child))
    && child.delegator == Some(proof.delegator) && proof.childSubject == child.subject
    && t.proofSignature(proof).Ok?
    && proof.delegator in t.delegators && proof.proof.method_ in t.delegators[proof.delegator]
  }

  /** One transition is in order. */
  ghost predicate InOrder(t: Trust, tr: Transition, ancestors: seq<string>) {
    && Authentic(t, tr.parent) && Authentic(t, tr.child)
    && MayDelegate(t.hash, tr.parent.body, tr.child.body, ancestors)
    && Proven(t, tr)
  }

  lemma CapsuleCheckIff(t: Trust, c: SignedCapsule)
    ensures VerifyCapsule(t, c).Ok? <==> Authentic(t, c)
  {
  }

  lemma TransitionCheckIff(t: Trust, tr: Transition, ancestors: seq<string>)
    ensures CheckTransition(t, tr, ancestors).Ok? <==> InOrder(t, tr, ancestors)
  {
    hide VerifyCapsule, Authentic, ValidateDelegation, MayDelegate;
    CapsuleCheckIff(t, tr.parent);
    CapsuleCheckIff(t, tr.child);
    ValidateDelegationIff(t.hash, tr.parent.body, tr.child.body, ancestors);
  }

  /** The loop over the lineage passes exactly when every transition is in order after the parents before it. */
  lemma {:induction false} LineageCheckIff(t: Trust, transitions: seq<Transition>, ancestors: seq<string>)
    ensures CheckLineage(t, transitions, ancestors).Ok? <==>
      forall k :: 0 <= k < |transitions| ==> InOrder(t, transitions[k], ancestors + ParentIds(transitions[..k]))
    decreases |transitions|
  {
    hide CheckTransition, InOrder;
    if CheckLineage(t, transitions, ancestors).Ok? {
      forall k | 0 <= k < |transitions| ensures InOrder(t, transitions[k], ancestors + ParentIds(transitions[..k])) {
        LineageTransitions(t, transitions, ancestors, k);
        TransitionCheckIff(t, transitions[k], ancestors + ParentIds(transitions[..k]));
      }
    } else {
      LineageOffence(t, transitions, ancestors);
    }
  }

  lemma {:induction false} LineageOffence(t: Trust, transitions: seq<Transition>, ancestors: seq<string>)
    requires CheckLineage(t, transitions, ancestors).Err?
    ensures exists k :: 0 <= k < |transitions| && !InOrder(t, transitions[k], ancestors + ParentIds(transitions[..k]))
    decreases |transitions|
  {
    hide CheckTransition, InOrder;
    TransitionCheckIff(t, transitions[0], ancestors);
    if CheckTransition(t, transitions[0], ancestors).Err? {
      assert ancestors + ParentIds(transitions[..0]) == ancestors;
    } else {
      var id := transitions[0].parent.body.capsuleId;
      LineageOffence(t, transitions[1..], ancestors + [id]);
      var k :| 0 <= k < |transitions[1..]| &&
        !InOrder(t, transitions[1..][k], (ancestors + [id]) + ParentIds(transitions[1..][..k]));
      assert ancestors + ParentIds(transitions[..k + 1]) == (ancestors + [id]) + ParentIds(transitions[1..][..k]);
      assert transitions[k + 1] == transitions[1..][k];
    }
  }

  // ------------------------------------------------------------------- calls

  /** After n uses one more is permitted: a first one, unless a multi-use capsule states another limit. */
  predicate OneMore(r: Replay, n: nat) {
    if r.MultiUse? && r.maxUses.Some? then n < r.maxUses.value else n == 0
  }

  /** The action id is bound to this capsule already, or it is new and a use is left. */
  ghost predicate UseLeft(k: Leaf, st: KernelState, id: string) {
    var digest := k.trust.hash(k.capsule.body);
    if id in st.bindings then st.bindings[id] == digest
    else OneMore(k.capsule.body.replay, if digest in st.counts then st.counts[digest] else 0)
  }

  /** Some grant names the proposal's action, covers its resource, and has only constraints that a registered
      verifier accepts or that are not critical. */
  ghost predicate Granted(verifiers: ConstraintVerifiers, c: Capsule, p: Proposal) {
    exists g :: g in c.authority && g.action == p.action && WithinRule(g.resource, p.resource) && Unopposed(verifiers, g, p)
  }

  predicate WithinRule(rule: ResourceRule, resource: string) {
    match rule
    case Exact(uri) => resource == uri
    case Prefix(uri) => uri <= resource
  }

  ghost predicate Unopposed(verifiers: ConstraintVerifiers, g: Grant, p: Proposal) {
    forall c :: c in g.constraints ==> if c.name in verifiers then verifiers[c.name](c, p) else !c.critical
  }

  /** Every mandatory obligation due before the action is answered for. */
  ghost predicate Obliged(c: Capsule, call: Call) {
    forall o :: o in c.obligations && o.mandatory && o.point == BeforeAction ==> call.obligationHolds(o, call.proposal)
  }

  lemma GrantedIff(verifiers: ConstraintVerifiers, c: Capsule, p: Proposal)
    ensures CapsulePermits(verifiers, c, p) <==> Granted(verifiers, c, p)
  {
    forall g: Grant ensures Permits(verifiers, g, p) <==>
      g.action == p.action && WithinRule(g.resource, p.resource) && Unopposed(verifiers, g, p)
    {
    }
    if i :| 0 <= i < |c.authority| && Permits(verifiers, c.authority[i], p) {
      assert c.authority[i] in c.authority;
    }
  }

  lemma ObligedIff(c: Capsule, call: Call)
    ensures ObligationsHold(c, call) <==> Obliged(c, call)
  {
    if Obliged(c, call) {
      forall i | 0 <= i < |c.obligations| && c.obligations[i].mandatory && c.obligations[i].point == BeforeAction
        ensures call.obligationHolds(c.obligations[i], call.proposal)
      {
        assert c.obligations[i] in c.obligations;
      }
    }
  }

  /** What the leaf's own checks demand before the use is counted. */
  ghost predicate MayAct(k: Leaf, st: KernelState, call: Call) {
    var c := k.capsule.body;
    && Authentic(k.trust, k.capsule)
    && c.subject == k.presenter
    && c.notBefore <= call.now < c.expiresAt
    && EvaluateFrom(k.trust.hash, st.statuses, k.ancestors + [c], call.now, call.provider, k.allowOffline).1.Ok?
    && Granted(k.verifiers, c, call.proposal)
    && Obliged(c, call)
  }

  lemma LeafChecksIff(k: Leaf, st: KernelState, call: Call)
    ensures LeafChecks(k, st.statuses, call).1.Ok? <==> MayAct(k, st, call)
  {
    hide VerifyCapsule, EvaluateFrom, CapsulePermits, ObligationsHold, Authentic, Granted, Obliged;
    CapsuleCheckIff(k.trust, k.capsule);
    GrantedIff(k.verifiers, k.capsule.body, call.proposal);
    ObligedIff(k.capsule.body, call);
  }

  lemma BindIff(k: Leaf, st: KernelState, statuses: Cache, id: string)
    ensures Bind(k, st.(statuses := statuses), id).1.Ok? <==> UseLeft(k, st, id)
  {
  }

  /** The leaf verifier returns exactly for an authentic capsule, presented by its subject, in its time, with its
      lineage's statuses clear, with a grant and with its obligations met, while a use is left. */
  lemma LeafCallIff(k: Leaf, st: KernelState, call: Call)
    ensures LeafCall(k, st, call).1.Ok? <==> MayAct(k, st, call) && UseLeft(k, st, call.proposal.actionId)
  {
    hide LeafChecks, MayAct, Bind, UseLeft;
    LeafChecksIff(k, st, call);
    BindIff(k, st, LeafChecks(k, st.statuses, call).0, call.proposal.actionId);
  }

  /** Every capsule of the lineage is cleared by the status cache as it stood before the call, or live. */
  ghost predicate AllCleared(k: Leaf, capsules: seq<Capsule>, statuses: Cache, call: Call) {
    forall i :: 0 <= i < |capsules| ==>
      Cleared(k.trust.hash, statuses, capsules[i], i == |capsules| - 1, call.now, call.provider, k.allowOffline)
  }

  ghost predicate LineageInOrder(t: Trust, transitions: seq<Transition>) {
    forall i :: 0 <= i < |transitions| ==> InOrder(t, transitions[i], ParentIds(transitions[..i]))
  }

  lemma LineageInOrderIff(t: Trust, transitions: seq<Transition>)
    ensures CheckLineage(t, transitions, []).Ok? <==> LineageInOrder(t, transitions)
  {
    hide InOrder, CheckLineage;
    LineageCheckIff(t, transitions, []);
    forall i | 0 <= i < |transitions| ensures [] + ParentIds(transitions[..i]) == ParentIds(transitions[..i]) {
    }
  }

  lemma ChainHasDistinctDigests(hash: Capsule -> string, capsules: seq<Capsule>)
    requires Injective(hash) && Chain(hash, capsules)
    ensures DistinctDigests(hash, capsules)
  {
    hide Link;
  }

  lemma LineageEvaluates(k: Leaf, transitions: seq<Transition>, st: KernelState, call: Call)
    requires LeafOf(k, transitions) && Injective(k.trust.hash) && Continuous(k.trust, transitions)
    requires CheckLineage(k.trust, transitions, []).Ok?
    ensures EvaluateFrom(k.trust.hash, st.statuses, k.ancestors + [k.capsule.body], call.now, call.provider, k.allowOffline).1.Ok?
        <==> AllCleared(k, Lineage(transitions), st.statuses, call)
  {
    hide CheckLineage, Chain, Injective, Continuous, EvaluateFrom, Cleared, DistinctDigests;
    var capsules := Lineage(transitions);
    assert k.ancestors + [k.capsule.body] == capsules;
    AcceptedLineageIsChain(k.trust, transitions);
    ChainHasDistinctDigests(k.trust.hash, capsules);
    DistinctEvaluationIff(k.trust.hash, st.statuses, capsules, call.now, call.provider, k.allowOffline);
  }

  /** The delegated verifier returns exactly when every transition is in order, the leaf is presented by its
      subject in its time, every capsule's status is clear, a grant permits the proposal, the leaf's
      obligations are met, and a use is left. */
  lemma DelegatedCallIff(k: Leaf, transitions: seq<Transition>, st: KernelState, call: Call)
    requires LeafOf(k, transitions) && Injective(k.trust.hash) && Continuous(k.trust, transitions)
    ensures var leaf := k.capsule.body;
      DelegatedCall(k, transitions, st, call).1.Ok? <==>
        && LineageInOrder(k.trust, transitions)
        && leaf.subject == k.presenter
        && leaf.notBefore <= call.now < leaf.expiresAt
        && AllCleared(k, Lineage(transitions), st.statuses, call)
        && Granted(k.verifiers, leaf, call.proposal)
        && Obliged(leaf, call)
        && UseLeft(k, st, call.proposal.actionId)
  {
    hide CheckLineage, LeafCall, LineageInOrder, AllCleared, Granted, Obliged, UseLeft, EvaluateFrom, Injective, Continuous,
         Authentic;
    LineageInOrderIff(k.trust, transitions);
    LeafCallIff(k, st, call);
    if CheckLineage(k.trust, transitions, []).Ok? {
      LineageEvaluates(k, transitions, st, call);
      LeafIsAuthentic(k, transitions);
    }
  }

  lemma LeafIsAuthentic(k: Leaf, transitions: seq<Transition>)
    requires LeafOf(k, transitions) && LineageInOrder(k.trust, transitions)
    ensures Authentic(k.trust, k.capsule)
  {
    hide Authentic, Proven, MayDelegate;
    assert InOrder(k.trust, transitions[|transitions| - 1], ParentIds(transitions[..|transitions| - 1]));
  }

  /** When it returns, each capsule rests on an authenticated record about itself that is not against it and
      is as fresh as its profile demands; only an offline capsule may have none, and only by leave of the
      local policy. */
  lemma DelegatedCallRestsOn(k: Leaf, transitions: seq<Transition>, st: KernelState, call: Call, i: nat)
    requires LeafOf(k, transitions) && Injective(k.trust.hash) && Continuous(k.trust, transitions) && Keyed(st.statuses)
    requires DelegatedCall(k, transitions, st, call).1.Ok? && i < |Lineage(transitions)|
    ensures var c := Lineage(transitions)[i];
      && (c.freshness.OfflineUntilExpiry? ==> k.allowOffline)
      && ((c.freshness.OfflineUntilExpiry? && k.trust.hash(c) !in st.statuses) ||
          HasGrounds(k.trust.hash, st.statuses, c, i == |Lineage(transitions)| - 1, call.now, call.provider))
  {
    hide DelegatedCall, LineageInOrder, Granted, Obliged, UseLeft, Injective, Continuous, Cleared, HasGrounds, Keyed;
    DelegatedCallIff(k, transitions, st, call);
    ClearedRestsOn(k.trust.hash, st.statuses, Lineage(transitions)[i], i == |Lineage(transitions)| - 1, call.now,
                   call.provider, k.allowOffline);
  }

  /** What each of the leaf's own refusals says. */
  lemma LeafRefusalTells(k: Leaf, st: KernelState, call: Call)
    requires Authentic(k.trust, k.capsule) && LeafCall(k, st, call).1.Err?
    ensures var c := k.capsule.body;
            var statuses := EvaluateFrom(k.trust.hash, st.statuses, k.ancestors + [c], call.now, call.provider, k.allowOffline).1;
      match LeafCall(k, st, call).1.error
      case WrongAudience => c.subject != k.presenter || statuses == Err(WrongAudience)
      case CapsuleNotYetValid => call.now < c.notBefore || statuses == Err(CapsuleNotYetValid)
      case CapsuleExpired => c.expiresAt <= call.now || statuses == Err(CapsuleExpired)
      case ActionNotAuthorized => !Granted(k.verifiers, c, call.proposal) || statuses == Err(ActionNotAuthorized)
      case ObligationUnsatisfied => !Obliged(c, call) || statuses == Err(ObligationUnsatisfied)
      case ActionIdConflict =>
        (call.proposal.actionId in st.bindings && st.bindings[call.proposal.actionId] != k.trust.hash(c))
        || statuses == Err(ActionIdConflict)
      case ReplayDetected =>
        (call.proposal.actionId !in st.bindings && !UseLeft(k, st, call.proposal.actionId)) || statuses == Err(ReplayDetected)
      case error => statuses == Err(error)
  {
    hide EvaluateFrom, CapsulePermits, ObligationsHold, Granted, Obliged, Authentic;
    CapsuleCheckIff(k.trust, k.capsule);
    GrantedIff(k.verifiers, k.capsule.body, call.proposal);
    ObligedIff(k.capsule.body, call);
  }

  /** Calls keep the status cache keyed by digest. */
  lemma CallKeepsKeyed(k: Leaf, transitions: seq<Transition>, st: KernelState, call: Call)
    requires Keyed(st.statuses)
    ensures Keyed(DelegatedCall(k, transitions, st, call).0.statuses)
  {
    hide Keyed, EvaluateFrom, CheckLineage, VerifyCapsule, CapsulePermits, ObligationsHold;
    EvaluationKeepsKeyed(k.trust.hash, st.statuses, k.ancestors + [k.capsule.body], call.now, call.provider, k.allowOffline);
  }

  /** A single-use capsule, or one without a stated limit, authorises one action id; a limit of n at most n. */
  lemma UsesByReplay(k: Leaf, transitions: seq<Transition>, calls: seq<Call>)
    ensures var n := |AuthorisedIds(k, transitions, FRESH_KERNEL, calls)|;
      match k.capsule.body.replay
      case SingleUse => n <= 1
      case MultiUse(None) => n <= 1
      case MultiUse(Some(limit)) => n <= limit
  {
    hide AuthorisedIds, RunCalls;
    UsesAreLimited(k, transitions, calls);
  }
}

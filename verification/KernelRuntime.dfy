/** The stateful objects of replay.py and action_kernel.py. */
module KernelRuntime {
  import opened Prelude
  import opened Proposals
  import opened Delegation
  import opened ChainAuthority
  import opened Revocation
  import opened Kernel

  /** replay.py: uses counted per identifier. */
  class UseRegistry {
    var counts: map<string, nat>

    constructor ()
      ensures counts == map[]
    {
      counts := map[];
    }

    method Commit(identifier: string, maxUses: Option<nat>) returns (r: Result<nat, ErrorCode>)
      modifies this
      ensures (counts, r) == UseCommit(old(counts), identifier, maxUses)
    {
      var previous := CountOf(counts, identifier);
      if maxUses.Some? && previous >= maxUses.value {
        return Err(ReplayDetected);
      }
      counts := counts[identifier := previous + 1];
      return Ok(previous + 1);
    }

    method Count(identifier: string) returns (n: nat)
      ensures n == CountOf(counts, identifier)
    {
      n := CountOf(counts, identifier);
    }
  }

  class CapsuleActionVerifier {
    const leaf: Leaf
    const revocations: RevocationEvaluator
    const uses: UseRegistry
    var actionBindings: map<string, string>

    function State(): KernelState
      reads this, revocations, uses
    {
      KernelState(actionBindings, uses.counts, revocations.statuses)
    }

    constructor (leaf: Leaf, revocations: RevocationEvaluator, uses: UseRegistry)
      ensures this.leaf == leaf && this.revocations == revocations && this.uses == uses
      ensures actionBindings == map[]
    {
      this.leaf, this.revocations, this.uses, this.actionBindings := leaf, revocations, uses, map[];
    }

    method Verify(call: Call) returns (r: Result<seq<string>, ErrorCode>)
      modifies this, revocations, uses
      ensures (State(), r) == LeafCall(leaf, old(State()), call)
    {
      hide EvaluateFrom, CapsulePermits, ObligationsHold, VerifyCapsule;
      var c := leaf.capsule.body;
      var verified := VerifyCapsule(leaf.trust, leaf.capsule);
      if verified.Err? {
        return Err(verified.error);
      }
      if c.subject != leaf.presenter {
        return Err(WrongAudience);
      }
      if call.now < c.notBefore {
        return Err(CapsuleNotYetValid);
      }
      if call.now >= c.expiresAt {
        return Err(CapsuleExpired);
      }
      var revocation :=
        revocations.Evaluate(leaf.trust.hash, leaf.ancestors + [c], call.now, call.provider, leaf.allowOffline);
      if revocation.Err? {
        return Err(revocation.error);
      }
      var authorized := FindGrant(call.proposal);
      if !authorized {
        return Err(ActionNotAuthorized);
      }
      if !ObligationsHold(c, call) {
        return Err(ObligationUnsatisfied);
      }
      var digest := leaf.trust.hash(c);
      var id := call.proposal.actionId;
      if id in actionBindings {
        if actionBindings[id] != digest {
          return Err(ActionIdConflict);
        }
      } else {
        var used := uses.Commit(digest, Some(MaxUses(c.replay)));
        if used.Err? {
          return Err(used.error);
        }
        actionBindings := actionBindings[id := digest];
      }
      return Ok(LEAF_CONTROLS);
    }

    /** The loop over the grants that match in action and resource. */
    method FindGrant(p: Proposal) returns (authorized: bool)
      ensures authorized == CapsulePermits(leaf.verifiers, leaf.capsule.body, p)
    {
      hide ResourceMatches, Satisfied;
      var grants := leaf.capsule.body.authority;
      for i := 0 to |grants|
        invariant forall j :: 0 <= j < i ==> !Permits(leaf.verifiers, grants[j], p)
      {
        var grant := grants[i];
        if grant.action == p.action && ResourceMatches(grant.resource, p.resource) {
          if forall n :: 0 <= n < |grant.constraints| ==> Satisfied(leaf.verifiers, grant.constraints[n], p) {
            assert Permits(leaf.verifiers, grants[i], p);
            return true;
          }
        }
      }
      return false;
    }
  }

  class DelegatedCapsuleActionVerifier {
    const transitions: seq<Transition>
    const leaf: CapsuleActionVerifier

    constructor (transitions: seq<Transition>, leaf: CapsuleActionVerifier)
      requires LeafOf(leaf.leaf, transitions) && Continuous(leaf.leaf.trust, transitions)
      ensures this.transitions == transitions && this.leaf == leaf
    {
      this.transitions, this.leaf := transitions, leaf;
    }

    /** The constructor's own checks, which raise before an object exists. */
    static method Open(transitions: seq<Transition>, trust: Trust, presenter: string, allowOffline: bool,
                       verifiers: ConstraintVerifiers, revocations: RevocationEvaluator, uses: UseRegistry)
      returns (r: Result<DelegatedCapsuleActionVerifier, ErrorCode>)
      ensures r.Ok? <==> transitions != [] && Continuous(trust, transitions)
      ensures r.Err? ==> r.error == ParentMismatch
      ensures r.Ok? ==> fresh(r.value) && fresh(r.value.leaf) && r.value.transitions == transitions
      ensures r.Ok? ==> r.value.leaf.uses == uses && r.value.leaf.revocations == revocations
      ensures r.Ok? ==> r.value.leaf.leaf.trust == trust && LeafOf(r.value.leaf.leaf, transitions)
      ensures r.Ok? ==> r.value.leaf.leaf.verifiers == verifiers && r.value.leaf.actionBindings == map[]
      ensures r.Ok? ==> r.value.leaf.leaf.presenter == presenter && r.value.leaf.leaf.allowOffline == allowOffline
    {
      if transitions == [] {
        return Err(ParentMismatch);
      }
      for i := 0 to |transitions| - 1
        invariant forall j :: 0 <= j < i ==>
          trust.hash(transitions[j].child.body) == trust.hash(transitions[j + 1].parent.body)
      {
        if trust.hash(transitions[i].child.body) != trust.hash(transitions[i + 1].parent.body) {
          return Err(ParentMismatch);
        }
      }
      var ancestors := [transitions[0].parent.body];
      for i := 0 to |transitions| - 1
        invariant |ancestors| == i + 1 && ancestors == Lineage(transitions)[..i + 1]
      {
        ancestors := ancestors + [transitions[i].child.body];
      }
      var spec := Leaf(trust, transitions[|transitions| - 1].child, presenter, ancestors, allowOffline, verifiers);
      var verifier := new CapsuleActionVerifier(spec, revocations, uses);
      var delegated := new DelegatedCapsuleActionVerifier(transitions, verifier);
      return Ok(delegated);
    }

    method Verify(call: Call) returns (r: Result<seq<string>, ErrorCode>)
      modifies leaf, leaf.revocations, leaf.uses
      ensures (leaf.State(), r) == DelegatedCall(leaf.leaf, transitions, old(leaf.State()), call)
    {
      hide CheckTransition, LeafCall;
      var trust := leaf.leaf.trust;
      var ancestorIds: seq<string> := [];
      assert transitions[0..] == transitions;
      for i := 0 to |transitions|
        invariant CheckLineage(trust, transitions, []) == CheckLineage(trust, transitions[i..], ancestorIds)
      {
        assert transitions[i..][0] == transitions[i] && transitions[i..][1..] == transitions[i + 1..];
        var checked := CheckTransition(trust, transitions[i], ancestorIds);
        if checked.Err? {
          return Err(checked.error);
        }
        ancestorIds := ancestorIds + [transitions[i].parent.body.capsuleId];
      }
      assert transitions[|transitions|..] == [];
      var controls := leaf.Verify(call);
      if controls.Err? {
        return Err(controls.error);
      }
      return Ok(controls.value + [LINEAGE_CONTROL]);
    }
  }
}

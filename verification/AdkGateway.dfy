/** The gateway object with an accepted kernel as its kernel verifier. */
module AdkGateway {
  import opened Prelude
  import opened Proposals
  import opened ChainAuthority
  import opened Kernel
  import opened Transport
  import opened TransportMatch
  import opened GatewayMachine
  import opened GoogleAdk
  import Gateway

  /** Whatever this verifier returns is an answer of the accepted kernel in one of its states. */
  ghost predicate AnswersAs(verifier: (nat, Proposal) -> Gateway.Call<seq<string>>, transported: RawProposal, k: Leaf,
                            transitions: seq<Transition>)
  {
    forall t, p, controls :: verifier(t, p) == Gateway.Answers(Returns(controls)) ==>
      KernelAnswer(transported, k, transitions, p, controls)
  }

  ghost predicate KernelAnswer(transported: RawProposal, k: Leaf, transitions: seq<Transition>, p: Proposal, controls: seq<string>) {
    exists st, call: Kernel.Call :: call.proposal == p && KernelCall(transported, k, transitions, st, call).1 == Ok(controls)
  }

  /** The log of a gateway that began with an empty one and asks an accepted kernel is served by that kernel. */
  lemma GatewayIsServed(gateway: Gateway.GovernedActionGateway, transported: RawProposal, k: Leaf, transitions: seq<Transition>)
    requires gateway.Valid() && gateway.inherited == 0
    requires AnswersAs(gateway.kernelVerifier, transported, k, transitions)
    ensures Served(transported, k, transitions, gateway.world.log)
  {
    hide KernelCall, AnswersAs;
    var log := gateway.world.log;
    forall c | c in log && c.kernel.Returns? ensures CameFrom(transported, k, transitions, c) {
      var i :| 0 <= i < |log| && log[i] == c;
      assert gateway.FromCallbacks(log[i]);
      var t :| gateway.Asked(t, c.proposal, c);
      AnswerIsKernels(gateway.kernelVerifier, transported, k, transitions, t, c);
    }
  }

  lemma AnswerIsKernels(verifier: (nat, Proposal) -> Gateway.Call<seq<string>>, transported: RawProposal, k: Leaf,
                        transitions: seq<Transition>, t: nat, c: Consultation)
    requires AnswersAs(verifier, transported, k, transitions)
    requires c.kernel.Returns? && verifier(t, c.proposal) == Gateway.Answers(c.kernel)
    ensures CameFrom(transported, k, transitions, c)
  {
    hide KernelCall;
    assert verifier(t, c.proposal) == Gateway.Answers(Returns(c.kernel.value));
    assert KernelAnswer(transported, k, transitions, c.proposal, c.kernel.value);
  }

  /** The whole path: behind a gateway object that asks an accepted kernel, at any time, there is at most one
      effect, it is for a matching proposal, and it lies within every capsule of the transported lineage. */
  lemma GatewayDeliversOnce(gateway: Gateway.GovernedActionGateway, transported: RawProposal, k: Leaf, transitions: seq<Transition>)
    requires gateway.Valid() && gateway.inherited == 0 && Reachable(gateway.Cfg(), gateway.world)
    requires AnswersAs(gateway.kernelVerifier, transported, k, transitions)
    requires LeafOf(k, transitions) && Injective(k.trust.hash) && Continuous(k.trust, transitions)
    ensures var o := gateway.connector.outside;
      && |o.landed + o.inFlight| <= 1
      && forall e: Effect :: e in o.landed + o.inFlight ==>
           Match(e.proposal, transported).Ok? &&
           forall i :: 0 <= i < |Lineage(transitions)| ==> CapsuleAllows(k.verifiers, Lineage(transitions)[i], e.proposal)
  {
    hide Match, AnswersAs, Reachable, Served, CapsuleAllows, Chain, Injective, Continuous;
    GatewayIsServed(gateway, transported, k, transitions);
    OneEnvelopeOneEffect(gateway.Cfg(), gateway.world, transported, k, transitions);
    forall e: Effect | e in gateway.world.landed + gateway.world.inFlight
      ensures forall i :: 0 <= i < |Lineage(transitions)| ==> CapsuleAllows(k.verifiers, Lineage(transitions)[i], e.proposal)
    {
      var st, call := EffectsWithinLineage(gateway.Cfg(), gateway.world, e, transported, k, transitions);
    }
  }
}

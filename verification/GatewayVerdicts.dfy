/** What `execute` makes of the callbacks' replies: which of them end an action as REJECTED, FAILED or
    APPROVAL_REQUIRED and which let it through, and that every stored record of those states has such
    a consultation behind it. */
module GatewayVerdicts {
  import opened Prelude
  import opened Topology
  import opened GraphDigests
  import opened Policies
  import opened Carm
  import opened CarmProperties
  import opened DefaultCarm
  import opened Proposals
  import opened Records
  import opened GatewayMachine
  import opened GatewayInvariant
  import opened GatewaySteps
  import opened GatewayTheorems

  // ------------------------------------------------------------ the replies

  /** Kernel, policies and graph all answered. */
  predicate Consulted(c: Consultation) {
    c.kernel.Returns? && c.policy.Returns? && c.reach.Ok?
  }

  /** Everyone answered, and the reports block. */
  predicate BlockedBy(c: Consultation) {
    Consulted(c) && Blocks(c.policy.value)
  }

  /** The approval verifier is asked. Only a runtime that does not check its reports for distinct keys
      leaves more to CARM than the reports' layers and effects. */
  ghost predicate AskedFor(c: Consultation) {
    && Consulted(c)
    && if UniqueKeys(c.policy.value) then Asks(c.policy.value, c.reach.value.score, c.reach.value.topologyConfidence)
       else Resolve(c.policy.value, c.reach.value, DEFAULT_CONFIG).decision == ApprovalRequired
  }

  /** A reply that the code reached raises a protocol error. */
  ghost predicate Refuses(c: Consultation, code: ErrorCode) {
    || c.kernel == RaisesGcp(code)
    || (c.kernel.Returns? && c.policy == RaisesGcp(code))
    || (c.kernel.Returns? && c.policy.Returns? && c.reach == Err(code))
    || (AskedFor(c) && c.approval == RaisesGcp(code))
  }

  /** A reply that the code reached raises anything else. */
  ghost predicate Breaks(c: Consultation) {
    || c.kernel.RaisesOther?
    || (c.kernel.Returns? && c.policy.RaisesOther?)
    || (AskedFor(c) && c.approval.RaisesOther?)
  }

  ghost predicate Waits(c: Consultation) {
    AskedFor(c) && c.approval == Returns(false)
  }

  ghost predicate Passes(c: Consultation) {
    Consulted(c) && !BlockedBy(c) && (AskedFor(c) ==> c.approval == Returns(true))
  }

  /** What CARM made of the replies. */
  function ResolutionOf(c: Consultation): Resolution
    requires Consulted(c)
  {
    Resolve(c.policy.value, c.reach.value, DEFAULT_CONFIG)
  }

  lemma DecisionOfReplies(c: Consultation)
    requires Consulted(c)
    ensures ResolutionOf(c).decision == BlockAction <==> BlockedBy(c)
    ensures ResolutionOf(c).decision == ApprovalRequired <==> AskedFor(c)
    ensures ResolutionOf(c).reach == c.reach.value
    ensures UniqueKeys(c.policy.value) ==>
      VerdictOf(ResolutionOf(c))
      == ClosedForm(c.policy.value, c.reach.value.score, c.reach.value.topologyConfidence, DEFAULT_CONFIG)
  {
    KeepsReach(c.policy.value, c.reach.value);
    hide Resolve, Blocks, Asks, ClosedForm;
    BlocksIff(c.policy.value, c.reach.value);
    if UniqueKeys(c.policy.value) {
      DefaultDecision(c.policy.value, c.reach.value);
      ResolveIsClosedForm(c.policy.value, c.reach.value, DEFAULT_CONFIG);
    }
  }

  lemma KeepsReach(values: seq<PolicyEvaluation>, reach: ReachEstimate)
    ensures Resolve(values, reach, DEFAULT_CONFIG).reach == reach
  {
    hide Conflicts, MaxSeverity, PriorityEffect;
  }

  /** The replies decide: REJECTED when one refuses or the reports block, FAILED when one breaks,
      APPROVAL_REQUIRED when approval is asked for and denied, and the commit intent otherwise. */
  lemma AssessmentIff(c: Consultation)
    ensures Assess(c).Ends? && Assess(c).state == Rejected <==> BlockedBy(c) || exists code :: Refuses(c, code)
    ensures Assess(c).Ends? && Assess(c).state == Failed <==> Breaks(c)
    ensures Assess(c).Ends? && Assess(c).state == AwaitingApproval <==> Waits(c)
    ensures Assess(c).Proceeds? <==> Passes(c)
    ensures Assess(c).Ends? ==> Assess(c).state in {Rejected, Failed, AwaitingApproval}
  {
    hide Resolve, Controls, PolicyDigest, CodeText, AskedFor, BlockedBy;
    if Consulted(c) {
      DecisionOfReplies(c);
      if AskedFor(c) && c.approval.RaisesGcp? {
        assert Refuses(c, c.approval.code);
      }
    } else {
      NotConsulted(c);
      if c.kernel.RaisesGcp? {
        assert Refuses(c, c.kernel.code);
      } else if c.kernel.Returns? && c.policy.RaisesGcp? {
        assert Refuses(c, c.policy.code);
      } else if c.kernel.Returns? && c.policy.Returns? {
        assert Refuses(c, c.reach.error);
      }
    }
  }

  lemma NotConsulted(c: Consultation)
    requires !Consulted(c)
    ensures !AskedFor(c) && !BlockedBy(c)
  {
  }

  /** What is recorded in each of these cases. */
  lemma AssessmentTells(c: Consultation)
    ensures forall code :: Refuses(c, code) ==> Assess(c) == Ends(Rejected, BlockAction, [], [CodeText(code)], None)
    ensures Breaks(c) ==> Assess(c) == Ends(Failed, BlockAction, [], ["GCP_GATEWAY_INTERNAL_ERROR"], None)
    ensures BlockedBy(c) ==>
      Assess(c) == Ends(Rejected, BlockAction, Controls(c.kernel.value, c.policy.value), ResolutionOf(c).reasonCodes,
                        Some(PolicyDigest(c.policy.value)))
    ensures Waits(c) ==>
      Assess(c) == Ends(AwaitingApproval, ApprovalRequired, Controls(c.kernel.value, c.policy.value),
                        ResolutionOf(c).reasonCodes, Some(PolicyDigest(c.policy.value)))
    ensures Passes(c) ==>
      Assess(c) == Proceeds(if AskedFor(c) then ApprovalRequired else AllowAction,
                            Controls(c.kernel.value, c.policy.value), ResolutionOf(c).reasonCodes,
                            c.reach.value.graphDigest, PolicyDigest(c.policy.value))
  {
    hide Resolve, Controls, PolicyDigest, CodeText, AskedFor, BlockedBy;
    if Consulted(c) {
      DecisionOfReplies(c);
    } else {
      NotConsulted(c);
    }
  }

  // --------------------------------------------------------- stored records

  /** The record holds the evidence of this consultation. */
  ghost predicate Holds(cfg: Config, c: Consultation, r: ActionRecord)
    requires Consulted(c)
  {
    && r.decision == Some(ResolutionOf(c).decision) && r.reasonCodes == ResolutionOf(c).reasonCodes
    && r.controls == Controls(c.kernel.value, c.policy.value)
    && r.policyDigest == Some(PolicyDigest(c.policy.value)) && r.graphDigest == Some(GraphDigest(cfg.graph))
  }

  /** The record of an action that an exception ended. */
  predicate Bare(r: ActionRecord, reason: string) {
    r.decision == Some(BlockAction) && r.controls == [] && r.reasonCodes == [reason] && r.policyDigest == None
  }

  /** A consultation for the record's own proposal, with the graph's own reach. */
  ghost predicate Genuine(cfg: Config, log: seq<Consultation>, c: Consultation, r: ActionRecord) {
    c in log && Bound(r, c.proposal) && ReachAnswer(cfg, c)
  }

  ghost predicate WaitsAfter(cfg: Config, log: seq<Consultation>, c: Consultation, r: ActionRecord) {
    Genuine(cfg, log, c, r) && Waits(c) && Holds(cfg, c, r)
  }

  /** Blocked by its reports, refused by a callback, or refused by the hook after it had passed. */
  ghost predicate RejectedAfter(cfg: Config, log: seq<Consultation>, c: Consultation, r: ActionRecord) {
    && Genuine(cfg, log, c, r)
    && ((BlockedBy(c) && Holds(cfg, c, r)) ||
        exists code :: (Refuses(c, code) || Passes(c)) && Bare(r, CodeText(code)))
  }

  /** Broken by a callback; or it had passed, and the hook broke or the connector denied the commit. */
  ghost predicate FailedAfter(cfg: Config, log: seq<Consultation>, c: Consultation, r: ActionRecord) {
    && Genuine(cfg, log, c, r)
    && (Breaks(c) || Passes(c))
    && (Bare(r, "GCP_GATEWAY_INTERNAL_ERROR") ||
        (Passes(c) && r.decision == Some(BlockAction) && r.reasonCodes == ["GCP_CONNECTOR_NOT_COMMITTED"]
         && r.controls == Controls(c.kernel.value, c.policy.value) && r.policyDigest == Some(PolicyDigest(c.policy.value))))
  }

  ghost predicate Explained(cfg: Config, log: seq<Consultation>, r: ActionRecord) {
    && (r.state == AwaitingApproval ==> exists c :: WaitsAfter(cfg, log, c, r))
    && (r.state == Rejected ==> exists c :: RejectedAfter(cfg, log, c, r))
    && (r.state == Failed ==> exists c :: FailedAfter(cfg, log, c, r))
  }

  ghost predicate AllExplained(cfg: Config, s: State) {
    && (forall id :: id in s.store ==> Explained(cfg, s.log, s.store[id]))
    && (s.pc.Saving? ==> Explained(cfg, s.log, s.pc.record))
  }

  lemma GenuineGrows(cfg: Config, log: seq<Consultation>, d: Consultation, r: ActionRecord)
    ensures forall c :: Genuine(cfg, log, c, r) ==> Genuine(cfg, log + [d], c, r)
  {
    hide Bound, ReachAnswer;
  }

  lemma ExplainedGrows(cfg: Config, log: seq<Consultation>, d: Consultation, r: ActionRecord)
    requires Explained(cfg, log, r)
    ensures Explained(cfg, log + [d], r)
  {
    hide Genuine, Holds, Refuses, Breaks, Passes, Waits, BlockedBy, Bare;
    GenuineGrows(cfg, log, d, r);
    if r.state == AwaitingApproval {
      var c :| WaitsAfter(cfg, log, c, r);
      assert WaitsAfter(cfg, log + [d], c, r);
    } else if r.state == Rejected {
      var c :| RejectedAfter(cfg, log, c, r);
      assert RejectedAfter(cfg, log + [d], c, r);
    } else if r.state == Failed {
      var c :| FailedAfter(cfg, log, c, r);
      assert FailedAfter(cfg, log + [d], c, r);
    }
  }

  /** The record that a consultation ends with is explained by it. */
  lemma EndedIsExplained(cfg: Config, log: seq<Consultation>, c: Consultation, initial: ActionRecord)
    requires c in log && Bound(initial, c.proposal) && ReachAnswer(cfg, c) && Assess(c).Ends?
    ensures Explained(cfg, log, FinishedBy(cfg, initial, Assess(c)))
  {
    hide Assess, Bound, ReachAnswer, Refuses, Breaks, Passes, Waits, BlockedBy, GraphDigest, Finished, Resolve, Controls,
         PolicyDigest, CodeText;
    AssessmentIff(c);
    AssessmentTells(c);
    var a, r := Assess(c), FinishedBy(cfg, initial, Assess(c));
    FinishedIs(cfg.gatewayId, GraphDigest(cfg.graph), initial, a.state, a.decision, a.controls, a.reasons, a.snapshot,
               None, r);
    BoundTransfers(initial, r);
    assert Genuine(cfg, log, c, r);
    if a.state == AwaitingApproval {
      WaitingHolds(c);
      assert WaitsAfter(cfg, log, c, r);
    } else if a.state == Failed {
      assert FailedAfter(cfg, log, c, r);
    } else if BlockedBy(c) {
      WaitingHolds(c);
      assert RejectedAfter(cfg, log, c, r);
    } else {
      var code :| Refuses(c, code);
      assert Bare(r, CodeText(code));
      assert RejectedAfter(cfg, log, c, r);
    }
  }

  lemma WaitingHolds(c: Consultation)
    requires Waits(c) || BlockedBy(c)
    ensures Consulted(c)
    ensures ResolutionOf(c).decision == if BlockedBy(c) then BlockAction else ApprovalRequired
  {
    hide Resolve, Blocks, Asks;
    DecisionOfReplies(c);
  }

  /** A consultation that authorises is one that passes. */
  lemma AuthorisedPasses(cfg: Config, c: Consultation, p: Proposal)
    ensures Authorises(cfg, c, p) <==> c.proposal == p && ReachAnswer(cfg, c) && Passes(c)
  {
    hide Resolve, AskedFor, BlockedBy, ReachAnswer;
    if Consulted(c) {
      DecisionOfReplies(c);
    }
  }

  lemma JustifiedIsGenuine(cfg: Config, log: seq<Consultation>, r: ActionRecord, p: Proposal, f: ActionRecord)
    returns (c: Consultation)
    requires Justified(cfg, log, r, p) && Bound(r, p) && SameBinding(r, f)
    ensures Genuine(cfg, log, c, f) && Passes(c)
    ensures r.controls == Controls(c.kernel.value, c.policy.value) && r.policyDigest == Some(PolicyDigest(c.policy.value))
  {
    hide Authorises, ReasonsFollow, Resolve, Bound, Passes, ReachAnswer, Controls, PolicyDigest, GraphDigest;
    c :| c in log && Justifies(cfg, c, r, p);
    AuthorisedPasses(cfg, c, p);
    BoundTransfers(r, f);
  }

  // ------------------------------------------------------------------- steps

  lemma ConsultExplains(cfg: Config, s: State, c: Consultation, t: State)
    requires PcOk(cfg, s) && ConsultStep(cfg, s, c, t) && t.pc.Saving?
    ensures Explained(cfg, t.log, t.pc.record)
  {
    hide Assess, Bound, ReachAnswer, Finished, Explained, GraphDigest;
    EndedIsExplained(cfg, t.log, c, s.pc.record);
  }

  lemma HookExplains(cfg: Config, s: State, hook: Reply<()>, t: State)
    requires PcOk(cfg, s) && HookStep(cfg, s, hook, t) && t.pc.Saving?
    ensures Explained(cfg, t.log, t.pc.record)
  {
    hide Bound, Justified, Untouched, Finished, GraphDigest, CodeText, Passes, Refuses, Breaks, Genuine, ReceiptMatches,
         Controls, PolicyDigest, BlockedBy, Holds;
    var r, f := s.pc.record, t.pc.record;
    var a := if hook.RaisesGcp? then RejectedWith(hook.code) else INTERNAL_ERROR;
    FinishedIs(cfg.gatewayId, GraphDigest(cfg.graph), r, a.state, a.decision, a.controls, a.reasons, a.snapshot, None, f);
    var c := JustifiedIsGenuine(cfg, s.log, r, s.pc.p, f);
    if hook.RaisesGcp? {
      assert Bare(f, CodeText(hook.code));
      assert RejectedAfter(cfg, t.log, c, f);
    } else {
      assert FailedAfter(cfg, t.log, c, f);
    }
  }

  lemma AppliedExplains(cfg: Config, log: seq<Consultation>, r: ActionRecord, p: Proposal, result: ConnectorResult)
    requires Bound(r, p) && Justified(cfg, log, r, p)
    ensures Explained(cfg, log, Applied(cfg.gatewayId, GraphDigest(cfg.graph), r, result))
  {
    hide Bound, Justified, GraphDigest, Passes, Breaks, Genuine, Finished, ReceiptMatches, Controls, PolicyDigest;
    var f := Applied(cfg.gatewayId, GraphDigest(cfg.graph), r, result);
    AppliedIs(cfg.gatewayId, GraphDigest(cfg.graph), r, result, f);
    if f.state == Failed {
      FinishedIs(cfg.gatewayId, GraphDigest(cfg.graph), r, Failed, BlockAction, r.controls, ["GCP_CONNECTOR_NOT_COMMITTED"],
                 r.policyDigest, Some(result), f);
      var c := JustifiedIsGenuine(cfg, log, r, p, f);
      assert FailedAfter(cfg, log, c, f);
    }
  }

  lemma CommitExplains(cfg: Config, s: State, landed': multiset<Effect>, inFlight': multiset<Effect>,
                       reply: Option<ConnectorResult>, t: State)
    requires PcOk(cfg, s) && CommitStep(cfg, s, landed', inFlight', reply, t)
    ensures Explained(cfg, t.log, t.pc.record)
  {
    hide Bound, Justified, Untouched, Applied, GraphDigest, Explained, CommitContract;
    AppliedExplains(cfg, s.log, s.pc.record, s.pc.p, if reply.Some? then reply.value else UNKNOWN_RESULT);
  }

  lemma AskExplains(cfg: Config, s: State, landed': multiset<Effect>, inFlight': multiset<Effect>,
                    reply: Option<ConnectorResult>, t: State)
    requires Inv(cfg, s) && AskStep(cfg, s, landed', inFlight', reply, t) && t.pc.Saving?
    ensures Explained(cfg, t.log, t.pc.record)
  {
    hide Bound, Justified, Untouched, Applied, GraphDigest, Explained, ReconcileContract, WorldOk, Rebuild, ReceiptMatches;
    var r := s.pc.record;
    assert CellOk(cfg, s, r.actionId);
    var p :| Bound(r, p) && Justified(cfg, s.log, r, p);
    AppliedExplains(cfg, s.log, r, p, reply.value);
  }

  /** What is about to be saved is explained. */
  lemma SavingIsExplained(cfg: Config, s: State, ev: Event, t: State)
    requires Inv(cfg, s) && Next(cfg, s, ev, t) && t.pc.Saving? && !s.pc.Saving?
    ensures Explained(cfg, t.log, t.pc.record)
  {
    hide CellOk, PcOk, Explained, CommitStep, AskStep, ConsultStep, HookStep, ProposalDigest, Drifts;
    match ev
    case Consult(c) => ConsultExplains(cfg, s, c, t);
    case Hook(hook) => HookExplains(cfg, s, hook, t);
    case Commit(landed', inFlight', reply) => CommitExplains(cfg, s, landed', inFlight', reply, t);
    case Ask(landed', inFlight', reply) => AskExplains(cfg, s, landed', inFlight', reply, t);
    case _ => assert false;
  }

  /** The log grows by consultations only, and what waits to be saved stays until it is. */
  lemma StepFrame(cfg: Config, s: State, ev: Event, t: State)
    requires Next(cfg, s, ev, t)
    ensures t.log == s.log || exists c :: t.log == s.log + [c]
    ensures s.pc.Saving? && t.pc.Saving? ==> t.pc == s.pc
  {
    hide CommitContract, ReconcileContract, Drifts, ProposalDigest, Assess, Rebuild, Applied, FinishedBy, ReachAnswer;
  }

  lemma StepExplains(cfg: Config, s: State, ev: Event, t: State)
    requires Inv(cfg, s) && Next(cfg, s, ev, t) && AllExplained(cfg, s)
    ensures AllExplained(cfg, t)
  {
    hide CellOk, PcOk, Explained, Next, Continues;
    NextMovesStore(cfg, s, ev, t);
    StepFrame(cfg, s, ev, t);
    forall r: ActionRecord | Explained(cfg, s.log, r) ensures Explained(cfg, t.log, r) {
      if t.log != s.log {
        var c :| t.log == s.log + [c];
        ExplainedGrows(cfg, s.log, c, r);
      }
    }
    forall id | id in t.store ensures Explained(cfg, t.log, t.store[id]) {
      if !(id in s.store && t.store[id] == s.store[id]) && !s.pc.Saving? {
        TransientIsExplained(cfg, t.log, t.store[id]);
      }
    }
    if t.pc.Saving? && !s.pc.Saving? {
      SavingIsExplained(cfg, s, ev, t);
    }
  }

  lemma TransientIsExplained(cfg: Config, log: seq<Consultation>, r: ActionRecord)
    requires r.state == Validating || r.state == Committing
    ensures Explained(cfg, log, r)
  {
  }

  lemma {:induction false} RunExplains(cfg: Config, states: seq<State>, events: seq<Event>, n: nat)
    requires Run(cfg, states, events) && states[0] == INIT && n < |states|
    ensures AllExplained(cfg, states[n])
    decreases n
  {
    hide Inv, Next, AllExplained;
    if n == 0 {
      NothingToExplain(cfg);
    } else {
      RunExplains(cfg, states, events, n - 1);
      InitInv(cfg);
      RunKeeps(cfg, states, events);
      assert Next(cfg, states[n - 1], events[n - 1], states[n - 1 + 1]);
      StepExplains(cfg, states[n - 1], events[n - 1], states[n]);
    }
  }

  lemma NothingToExplain(cfg: Config)
    ensures AllExplained(cfg, INIT)
  {
  }

  lemma LeadsLength(cfg: Config, states: seq<State>, events: seq<Event>, s: State)
    requires Leads(cfg, INIT, states, events, s)
    ensures |states| == |events| + 1
  {
  }

  /** Whatever led here: a stored APPROVAL_REQUIRED record has behind it a consultation for its own proposal
      in which CARM asked for approval and the approver said no; a REJECTED record one whose reports blocked
      or in which a protocol error was raised, there or by the hook; a FAILED record one that broke, or that
      passed and then met a broken hook or a denied commit. */
  lemma RecordsAreExplained(cfg: Config, s: State, id: string)
    requires Reachable(cfg, s) && id in s.store
    ensures s.store[id].state == AwaitingApproval ==> exists c :: WaitsAfter(cfg, s.log, c, s.store[id])
    ensures s.store[id].state == Rejected ==> exists c :: RejectedAfter(cfg, s.log, c, s.store[id])
    ensures s.store[id].state == Failed ==> exists c :: FailedAfter(cfg, s.log, c, s.store[id])
  {
    hide Run, WaitsAfter, RejectedAfter, FailedAfter;
    var states, events :| Leads(cfg, INIT, states, events, s);
    assert |states| == |events| + 1 by {
      LeadsLength(cfg, states, events, s);
    }
    RunExplains(cfg, states, events, |states| - 1);
  }

  /** What a connector's answer leads to: COMMITTED, FAILED or COMMIT_OUTCOME_UNKNOWN as it says, and the latter
      when it raises. */
  lemma CommitDecides(cfg: Config, s: State, landed': multiset<Effect>, inFlight': multiset<Effect>,
                      reply: Option<ConnectorResult>, t: State)
    requires Next(cfg, s, Commit(landed', inFlight', reply), t)
    ensures t.pc.Saving? && t.pc.record.actionId == s.pc.record.actionId && t.commitCalls == s.commitCalls + 1
    ensures t.pc.record.state == Committed <==> reply.Some? && reply.value.outcome == EffectCommitted
    ensures t.pc.record.state == Failed <==> reply.Some? && reply.value.outcome == EffectNotCommitted
    ensures t.pc.record.state == OutcomeUnknown <==> reply.None? || reply.value.outcome == EffectUnknown
  {
    hide Applied, GraphDigest, CommitContract;
    var result := if reply.Some? then reply.value else UNKNOWN_RESULT;
    AppliedIs(cfg.gatewayId, GraphDigest(cfg.graph), s.pc.record, result, t.pc.record);
  }

  /** Reconciliation: only a commit intent that the connector denies is committed again; a denied unknown outcome
      fails, a confirmed effect is committed, an open one stays unknown, and an exception changes nothing. */
  lemma AskDecides(cfg: Config, s: State, landed': multiset<Effect>, inFlight': multiset<Effect>,
                   reply: Option<ConnectorResult>, t: State)
    requires Inv(cfg, s) && Next(cfg, s, Ask(landed', inFlight', reply), t)
    ensures t.store == s.store && t.commitCalls == s.commitCalls
    ensures t.pc.Calling? <==> reply.Some? && reply.value.outcome == EffectNotCommitted && s.pc.record.state == Committing
    ensures t.pc.Saving? && t.pc.record.state == Failed <==>
      reply.Some? && reply.value.outcome == EffectNotCommitted && s.pc.record.state == OutcomeUnknown
    ensures t.pc.Saving? && t.pc.record.state == Committed <==> reply.Some? && reply.value.outcome == EffectCommitted
    ensures t.pc.Saving? && t.pc.record.state == OutcomeUnknown <==> reply.Some? && reply.value.outcome == EffectUnknown
    ensures t.pc.Idle? <==> reply.None?
    ensures t.pc.Calling? ==> Bound(s.pc.record, t.pc.p) && t.pc.record == s.pc.record
  {
    hide Applied, GraphDigest, ReconcileContract, Bound, Justified, WorldOk, ReceiptMatches, Rebuild;
    var r := s.pc.record;
    assert CellOk(cfg, s, r.actionId);
    var p :| Bound(r, p);
    RebuildReturnsBound(r, p);
    if reply.Some? {
      AppliedIs(cfg.gatewayId, GraphDigest(cfg.graph), r, reply.value, Applied(cfg.gatewayId, GraphDigest(cfg.graph), r, reply.value));
    }
  }

  /** The hook: only when it returns is the connector called; a protocol error rejects, any other fails. */
  lemma HookDecides(cfg: Config, s: State, hook: Reply<()>, t: State)
    requires Next(cfg, s, Hook(hook), t)
    ensures t.pc.Calling? <==> hook.Returns?
    ensures t.pc.Saving? && t.pc.record.state == Rejected <==> hook.RaisesGcp?
    ensures t.pc.Saving? && t.pc.record.state == Failed <==> hook.RaisesOther?
    ensures t.landed == s.landed && t.inFlight == s.inFlight
  {
    hide GraphDigest, CodeText;
  }

  /** One consultation step of the machine: where the action stands next, by the replies. */
  lemma ConsultDecides(cfg: Config, s: State, c: Consultation, t: State)
    requires Next(cfg, s, Consult(c), t)
    ensures t.log == s.log + [c] && t.store == s.store && t.landed == s.landed && t.inFlight == s.inFlight
    ensures t.pc.Saving? && t.pc.record.state == Rejected <==> BlockedBy(c) || exists code :: Refuses(c, code)
    ensures t.pc.Saving? && t.pc.record.state == Failed <==> Breaks(c)
    ensures t.pc.Saving? && t.pc.record.state == AwaitingApproval <==> Waits(c)
    ensures t.pc.Intending? <==> Passes(c)
  {
    hide Assess, Refuses, Breaks, Passes, Waits, BlockedBy, GraphDigest, ReachAnswer;
    AssessmentIff(c);
  }
}

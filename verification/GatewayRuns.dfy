/** Executions that exist: the states the gateway can be brought into, and out of. */
module GatewayRuns {
  import opened Prelude
  import opened Ordering
  import opened Topology
  import opened GraphDigests
  import opened Policies
  import opened Carm
  import opened Proposals
  import opened Records
  import opened GatewayMachine
  import opened GatewayInvariant
  import opened GatewaySteps
  import opened GatewayTheorems

  // ------------------------------------------------------------ into a claim

  /** The first `execute` of a gateway, right after its claim. */
  ghost function Claimed(p: Proposal, node: string): State
    requires ProposalDigest(p).Ok?
  {
    var r := InitialRecord(p, ProposalDigest(p).value);
    INIT.(store := map[p.actionId := r], pc := Assessing(p, node, r))
  }

  lemma ClaimIsReachable(cfg: Config, p: Proposal, node: string)
    requires ProposalDigest(p).Ok?
    ensures Reachable(cfg, Claimed(p, node))
  {
    hide Reaches, ProposalDigest, ProposalDocument, CommitStep, AskStep, ConsultStep, HookStep, SaveStep, LookStep, IntendStep,
         SnapshotStep, RecoverNextStep, Drifts, DeleteStep, CheckWaitingStep, ApproveStep;
    var s1 := INIT.(pc := Claiming(p, node));
    ReachesRefl(cfg, INIT);
    ReachesStep(cfg, INIT, INIT, BeginExecute(p, node), s1);
    var r := InitialRecord(p, ProposalDigest(p).value);
    assert s1.store[p.actionId := r] == map[p.actionId := r];
    ReachesStep(cfg, INIT, s1, Claim, Claimed(p, node));
  }

  /** A crash right after the claim: the gateway is idle and the record is VALIDATING. */
  lemma CrashStrands(cfg: Config, p: Proposal, node: string) returns (s: State)
    requires ProposalDigest(p).Ok?
    ensures Reachable(cfg, s) && s.pc.Idle?
    ensures p.actionId in s.store && s.store[p.actionId].state == Validating
  {
    hide Reaches, ProposalDigest, ProposalDocument;
    ClaimIsReachable(cfg, p, node);
    var claimed := Claimed(p, node);
    s := claimed.(pc := Idle, waiting := multiset{});
    ReachesStep(cfg, INIT, claimed, Crash, s);
  }

  // ----------------------------------------------------- into a wait for approval

  lemma {:induction false} MinimumExists(terms: set<real>) returns (c: real)
    requires terms != {}
    ensures IsMinimum(c, terms)
    decreases |terms|
  {
    assert (forall x :: x !in terms) ==> terms == {};
    var x :| x in terms;
    if terms == {x} {
      c := x;
    } else {
      var rest := terms - {x};
      assert terms == rest + {x};
      var y := MinimumExists(rest);
      c := if x < y then x else y;
    }
  }

  lemma ReachExists(cfg: Config, node: string) returns (r: ReachEstimate)
    requires node in cfg.graph.nodes
    ensures IsReach(cfg.graph, cfg.rnd, node, r) && r.graphDigest == GraphDigest(cfg.graph)
  {
    var g := cfg.graph;
    assert g.Descendants(node) <= g.nodes.Keys;
    hide GraphDigest, Accumulate, UnknownJoins, Sorted, Graph.Descendants;
    assert g.nodes[node].confidence.number in ConfidenceTerms(g, node) by {
      assert node in {node} + g.Descendants(node);
    }
    var c := MinimumExists(ConfidenceTerms(g, node));
    var ids := Sorted(CodePoint, g.Descendants(node));
    r := ReachEstimate(Accumulate(g, cfg.rnd, 0.0, ids), ids, c, UnknownJoins(g, ids), GraphDigest(g));
  }

  const ASKING := PolicyEvaluation("p", "1", Regulatory, RequireApproval, "r", None, None, [], None)

  /** One REQUIRE_APPROVAL report and an approver who says no. */
  lemma WaitIsReachable(cfg: Config, p: Proposal, node: string) returns (s: State)
    requires ProposalDigest(p).Ok? && node in cfg.graph.nodes
    ensures Reachable(cfg, s) && s.pc.Idle? && s.landed == multiset{}
    ensures p.actionId in s.store && s.store[p.actionId].state == AwaitingApproval && Bound(s.store[p.actionId], p)
  {
    hide Reaches, ProposalDigest, ProposalDocument, IsReach, Resolve, Finished, PolicyDigest, Controls, GraphDigest, Bound, Rebuild;
    ClaimIsReachable(cfg, p, node);
    var claimed := Claimed(p, node);
    var initial := claimed.store[p.actionId];
    var reach := ReachExists(cfg, node);
    var c := Consultation(p, node, Returns([]), Returns([ASKING]), Ok(reach), Returns(false));
    AskingEscalates(reach);
    var a := Assess(c);
    assert a.Ends? && a.state == AwaitingApproval;
    var r := FinishedBy(cfg, initial, a);
    var s1 := claimed.(log := claimed.log + [c], pc := Saving(r, Return));
    EndedIs(cfg, initial, a);
    s := s1.(store := s1.store[r.actionId := r], pc := Idle);
    ReachesStep(cfg, INIT, claimed, Consult(c), s1);
    ReachesStep(cfg, INIT, s1, Save, s);
    InitialIsBound(p);
    BoundTransfers(initial, r);
  }

  lemma EndedIs(cfg: Config, initial: ActionRecord, a: Assessment)
    requires a.Ends?
    ensures var f := FinishedBy(cfg, initial, a);
      f.actionId == initial.actionId && f.state == a.state && SameBinding(initial, f)
  {
    hide GraphDigest;
  }

  lemma AskingEscalates(reach: ReachEstimate)
    ensures Resolve([ASKING], reach, DEFAULT_CONFIG).decision == ApprovalRequired
  {
    hide Conflicts, PriorityEffect, MaxSeverity;
    assert Reports([ASKING], RequireApproval) by {
      assert [ASKING][0].effect == RequireApproval;
    }
  }

  /** The run behind the rebinding: an id waits with one proposal and then holds another. */
  lemma RebindingIsReachable(cfg: Config, p: Proposal, q: Proposal, node: string) returns (s: State, t: State)
    requires ProposalDigest(p).Ok? && ProposalDigest(q).Ok? && q.actionId == p.actionId && node in cfg.graph.nodes
    ensures Reachable(cfg, s) && p.actionId in s.store && Bound(s.store[p.actionId], p)
    ensures Reaches(cfg, s, t) && p.actionId in t.store && Bound(t.store[p.actionId], q)
  {
    hide Reaches, Bound, ProposalDigest;
    s := WaitIsReachable(cfg, p, node);
    t := ResumeRebinds(cfg, s, q, node);
  }

  // ------------------------------------------------------- out of a pending record

  lemma AppliedKeeps(cfg: Config, r: ActionRecord, result: ConnectorResult)
    ensures var f := Applied(cfg.gatewayId, GraphDigest(cfg.graph), r, result);
      && f.actionId == r.actionId
      && f.state == match result.outcome
                    case EffectCommitted => Committed
                    case EffectUnknown => OutcomeUnknown
                    case EffectNotCommitted => Failed
  {
    hide GraphDigest;
  }

  /** A lookup whose answer is applied to the record. */
  lemma ReconcileOnce(cfg: Config, start: State, s: State, id: string, result: ConnectorResult) returns (t: State)
    requires Reaches(cfg, start, s) && s.pc.Idle? && id in s.store && Pending(s.store[id].state) && s.store[id].actionId == id
    requires Truthful(result.outcome, s.landed, s.inFlight, id)
    requires !(result.outcome == EffectNotCommitted && s.store[id].state == Committing)
    ensures Reaches(cfg, start, t)
    ensures t == s.(store := s.store[id := Applied(cfg.gatewayId, GraphDigest(cfg.graph), s.store[id], result)])
  {
    hide Reaches, GraphDigest, CommitStep, ConsultStep, HookStep, IntendStep, SnapshotStep, RecoverNextStep, ClaimStep, Truthful,
         Finished, Rebuild;
    var r := s.store[id];
    var applied := Applied(cfg.gatewayId, GraphDigest(cfg.graph), r, result);
    var s1 := s.(pc := Looking(id, Return));
    var s2 := s.(pc := Asking(r, Return));
    var s3 := s.(pc := Saving(applied, Return));
    AppliedKeeps(cfg, r, result);
    t := s.(store := s.store[id := applied]);
    ReachesStep(cfg, start, s, BeginReconcile(id), s1);
    ReachesStep(cfg, start, s1, Look, s2);
    ReachesStep(cfg, start, s2, Ask(s.landed, s.inFlight, Some(result)), s3);
    ReachesStep(cfg, start, s3, Save, t);
  }

  /** Requests in flight can be lost. */
  lemma Lost(cfg: Config, start: State, s: State) returns (t: State)
    requires Reaches(cfg, start, s)
    ensures Reaches(cfg, start, t) && t == s.(inFlight := multiset{})
  {
    hide Reaches;
    t := s.(inFlight := multiset{});
    ReachesStep(cfg, start, s, Drift(s.landed, multiset{}), t);
  }

  /** Every pending record can be settled. */
  lemma PendingCanSettle(cfg: Config, s: State, id: string) returns (t: State)
    requires Reachable(cfg, s) && s.pc.Idle? && id in s.store && Pending(s.store[id].state)
    ensures Reaches(cfg, s, t) && id in t.store && Terminal(t.store[id].state)
  {
    hide Reaches, GraphDigest, Finished, Bound, RecordOk, WorldOk, PcOk;
    ReachableInv(cfg, s);
    assert CellOk(cfg, s, id);
    ReachesRefl(cfg, s);
    var r := s.store[id];
    AppliedKeeps(cfg, r, UNKNOWN_RESULT);
    var unknown := ReconcileOnce(cfg, s, s, id, UNKNOWN_RESULT);
    var result := ConnectorResult(if HasLanded(s.landed, id) then EffectCommitted else EffectNotCommitted, None, None);
    AppliedKeeps(cfg, unknown.store[id], result);
    if HasLanded(s.landed, id) {
      t := ReconcileOnce(cfg, s, unknown, id, result);
    } else {
      var calm := Lost(cfg, s, unknown);
      t := ReconcileOnce(cfg, s, calm, id, result);
    }
  }

  /** Nothing that happens later touches a record exactly when it is VALIDATING or terminal. */
  lemma UnchangingIff(cfg: Config, s: State, id: string)
    requires Reachable(cfg, s) && s.pc.Idle? && id in s.store
    ensures (forall t :: Reaches(cfg, s, t) ==> id in t.store && t.store[id] == s.store[id]) <==>
      s.store[id].state == Validating || Terminal(s.store[id].state)
  {
    hide Reachable, Reaches, Bound, Rebuild, ReceiptMatches, Untouched;
    RecordAndWorldAgree(cfg, s, id);
    var state := s.store[id].state;
    if state == Validating || Terminal(state) {
      forall t | Reaches(cfg, s, t) ensures id in t.store && t.store[id] == s.store[id] {
        if state == Validating {
          StrandedForever(cfg, s, t, id);
        } else {
          SettledForever(cfg, s, t, id);
        }
      }
    } else if Pending(state) {
      var t := PendingCanSettle(cfg, s, id);
      assert t.store[id] != s.store[id];
    } else {
      assert state == AwaitingApproval;
      RebuildNeverFails(cfg, s, id);
      var q := Rebuild(s.store[id]).value;
      CellId(cfg, s, id, q);
      var t := ResumeDeletes(cfg, s, q, "");
      assert id !in t.store;
    }
  }

  // --------------------------------------------------------- up to the hook

  /** An `execute` that nothing stands in the way of, up to the call of its hook. */
  lemma HookIsReached(cfg: Config, p: Proposal, node: string) returns (states: seq<State>, events: seq<Event>)
    requires ProposalDigest(p).Ok? && node in cfg.graph.nodes
    ensures Run(cfg, states, events) && states[0] == INIT && forall i :: 0 <= i < |events| ==> !events[i].Crash?
    ensures var s := states[|events|];
      s.pc.Hooking? && s.pc.p == p && s.pc.record.actionId == p.actionId
  {
    hide ProposalDigest, ProposalDocument, IsReach, Resolve, Finished, PolicyDigest, Controls, GraphDigest, AskStep, CommitStep, HookStep,
         SaveStep, LookStep, SnapshotStep, RecoverNextStep, Drifts, DeleteStep, CheckWaitingStep, ApproveStep;
    var claimed := Claimed(p, node);
    var reach := ReachExists(cfg, node);
    var c := Consultation(p, node, Returns([]), Returns([]), Ok(reach), RaisesOther);
    NothingReported(reach);
    var reserved := ReservedRecord(claimed.pc.record, Assess(c));
    var s0 := INIT.(pc := Claiming(p, node));
    var s1 := claimed.(log := claimed.log + [c], pc := Intending(p, reserved));
    var s2 := s1.(store := s1.store[reserved.actionId := reserved.(state := Committing)], pc := Hooking(p, reserved));
    assert s0.store[p.actionId := claimed.pc.record] == claimed.store;
    assert Next(cfg, INIT, BeginExecute(p, node), s0);
    assert Next(cfg, s0, Claim, claimed);
    assert Next(cfg, claimed, Consult(c), s1);
    assert Next(cfg, s1, Intend, s2);
    states, events := [INIT, s0, claimed, s1, s2], [BeginExecute(p, node), Claim, Consult(c), Intend];
  }

  // -------------------------------------------- an unknown outcome on the way

  /** An `execute` that nothing stands in the way of, up to a lost response; the effect has landed. */
  lemma UnknownIsReachable(cfg: Config, p: Proposal, node: string) returns (s: State)
    requires ProposalDigest(p).Ok? && node in cfg.graph.nodes
    ensures Reachable(cfg, s) && s.pc.Idle? && HasLanded(s.landed, p.actionId)
    ensures p.actionId in s.store && s.store[p.actionId].state == OutcomeUnknown && s.store[p.actionId].actionId == p.actionId
    ensures s.store[p.actionId].reasonCodes == UNKNOWN_REASONS
  {
    hide Reaches, ProposalDigest, ProposalDocument, IsReach, Resolve, Finished, PolicyDigest, Controls, GraphDigest, Bound, Rebuild;
    ClaimIsReachable(cfg, p, node);
    var claimed := Claimed(p, node);
    var reach := ReachExists(cfg, node);
    var c := Consultation(p, node, Returns([]), Returns([]), Ok(reach), RaisesOther);
    NothingReported(reach);
    var reserved := ReservedRecord(claimed.pc.record, Assess(c));
    var s1 := claimed.(log := claimed.log + [c], pc := Intending(p, reserved));
    ReachesStep(cfg, INIT, claimed, Consult(c), s1);
    s := CommitIsLost(cfg, s1);
  }

  lemma NothingReported(reach: ReachEstimate)
    ensures Resolve([], reach, DEFAULT_CONFIG).decision == AllowAction
  {
    assert Conflicts([]) == [];
  }

  /** From the decision to act to the lost response. */
  lemma CommitIsLost(cfg: Config, s: State) returns (t: State)
    requires Reachable(cfg, s) && s.pc.Intending? && s.landed == multiset{} && s.inFlight == multiset{}
    ensures var id := s.pc.record.actionId;
      && Reachable(cfg, t) && t.pc.Idle? && HasLanded(t.landed, id)
      && id in t.store && t.store[id].state == OutcomeUnknown && t.store[id].actionId == id && t.store[id].reasonCodes == UNKNOWN_REASONS
  {
    hide Reaches, GraphDigest, Finished, AskStep, ConsultStep, LookStep, SnapshotStep, RecoverNextStep, ClaimStep, DeleteStep,
         CheckWaitingStep, ApproveStep;
    var p, r := s.pc.p, s.pc.record;
    var e := Effect(r.actionId, p);
    var applied := Applied(cfg.gatewayId, GraphDigest(cfg.graph), r, UNKNOWN_RESULT);
    var s2 := s.(store := s.store[r.actionId := r.(state := Committing)], pc := Hooking(p, r));
    var s3 := s2.(pc := Calling(p, r, Return));
    var s4 := s3.(landed := multiset{e}, commitCalls := s3.commitCalls + 1, pc := Saving(applied, Return));
    AppliedIs(cfg.gatewayId, GraphDigest(cfg.graph), r, UNKNOWN_RESULT, applied);
    t := s4.(store := s4.store[applied.actionId := applied], pc := Idle);
    ReachesStep(cfg, INIT, s, Intend, s2);
    ReachesStep(cfg, INIT, s2, Hook(Returns(())), s3);
    ReachesStep(cfg, INIT, s3, Commit(multiset{e}, multiset{}, Some(UNKNOWN_RESULT)), s4);
    ReachesStep(cfg, INIT, s4, Save, t);
    assert e in t.landed;
  }

  /** After the lookup the record is COMMITTED and still says that the outcome is unknown. */
  lemma CommittedSaysUnknown(cfg: Config, p: Proposal, node: string) returns (s: State)
    requires ProposalDigest(p).Ok? && node in cfg.graph.nodes
    ensures Reachable(cfg, s) && s.pc.Idle? && p.actionId in s.store
    ensures s.store[p.actionId].state == Committed && s.store[p.actionId].reasonCodes == UNKNOWN_REASONS
  {
    hide Reaches, GraphDigest, ProposalDigest, Finished;
    var unknown := UnknownIsReachable(cfg, p, node);
    var r, result := unknown.store[p.actionId], ConnectorResult(EffectCommitted, None, None);
    AppliedIs(cfg.gatewayId, GraphDigest(cfg.graph), r, result, Applied(cfg.gatewayId, GraphDigest(cfg.graph), r, result));
    s := ReconcileOnce(cfg, INIT, unknown, p.actionId, result);
  }
}

/** Every step of the gateway keeps the invariant. */
module GatewaySteps {
  import opened Prelude
  import opened Canonical
  import opened Topology
  import opened GraphDigests
  import opened Carm
  import opened Proposals
  import opened Records
  import opened GatewayMachine
  import opened GatewayInvariant

  ghost predicate CellsOk(cfg: Config, s: State) {
    forall id :: CellOk(cfg, s, id)
  }

  // ------------------------------------------------- changes to all records

  lemma CellsFrame(cfg: Config, s: State, t: State)
    requires CellsOk(cfg, s)
    requires t.store == s.store && t.landed == s.landed && t.inFlight == s.inFlight && t.log == s.log
    ensures CellsOk(cfg, t)
  {
    forall id ensures CellOk(cfg, t, id) {
      assert CellOk(cfg, s, id);
    }
  }

  lemma CellsAfterStore(cfg: Config, s: State, r: ActionRecord, t: State)
    requires CellsOk(cfg, s) && RecordOk(cfg, s.log, r) && WorldOk(r, s.landed, s.inFlight)
    requires t.store == s.store[r.actionId := r]
    requires t.landed == s.landed && t.inFlight == s.inFlight && t.log == s.log
    ensures CellsOk(cfg, t)
  {
    hide RecordOk, WorldOk, Untouched;
    forall id ensures CellOk(cfg, t, id) {
      assert CellOk(cfg, s, id);
    }
  }

  lemma CellsAfterDelete(cfg: Config, s: State, id: string, t: State)
    requires CellsOk(cfg, s) && id in s.store && s.store[id].state == AwaitingApproval
    requires t.store == s.store - {id}
    requires t.landed == s.landed && t.inFlight == s.inFlight && t.log == s.log
    ensures CellsOk(cfg, t)
  {
    hide RecordOk, Untouched, AtMostOne, HasLanded, Bound;
    forall k ensures CellOk(cfg, t, k) {
      assert CellOk(cfg, s, k);
    }
  }

  lemma CellsAfterLog(cfg: Config, s: State, c: Consultation, t: State)
    requires CellsOk(cfg, s)
    requires t.store == s.store && t.landed == s.landed && t.inFlight == s.inFlight && t.log == s.log + [c]
    ensures CellsOk(cfg, t)
  {
    hide RecordOk, WorldOk, Untouched;
    forall id ensures CellOk(cfg, t, id) {
      assert CellOk(cfg, s, id);
      if id in s.store {
        RecordOkGrows(cfg, s.log, c, s.store[id]);
      }
    }
  }

  lemma CellsAfterDrift(cfg: Config, s: State, t: State)
    requires CellsOk(cfg, s) && Drifts(s.landed, s.inFlight, t.landed, t.inFlight)
    requires t.store == s.store && t.log == s.log
    ensures CellsOk(cfg, t)
  {
    hide RecordOk, WorldOk, Untouched, Drifts;
    forall id ensures CellOk(cfg, t, id) {
      assert CellOk(cfg, s, id);
      if id in s.store {
        DriftKeepsWorld(s.store[id], s.landed, s.inFlight, t.landed, t.inFlight);
      } else {
        DriftKeepsUntouched(s.landed, s.inFlight, t.landed, t.inFlight, id);
      }
    }
  }

  lemma CellsAfterCommit(cfg: Config, s: State, e: Effect, reply: Option<ConnectorResult>, t: State)
    requires CellsOk(cfg, s) && CommitContract(s.landed, s.inFlight, e, t.landed, t.inFlight, reply)
    requires t.store == s.store && t.log == s.log
    requires e.actionId in s.store && s.store[e.actionId].state == Committing && Bound(s.store[e.actionId], e.proposal)
    requires Untouched(s.landed, s.inFlight, e.actionId)
    ensures CellsOk(cfg, t)
  {
    hide RecordOk, Untouched, CommitContract, AtMostOne, HasLanded, Bound;
    forall id ensures CellOk(cfg, t, id) {
      assert CellOk(cfg, s, id);
      if id == e.actionId {
        CommitMakesOne(s.landed, s.inFlight, e, t.landed, t.inFlight, reply);
      } else if id in s.store {
        CommitKeepsOtherWorld(s.store[id], s.landed, s.inFlight, e, t.landed, t.inFlight, reply);
      } else {
        CommitKeepsOtherUntouched(s.landed, s.inFlight, e, t.landed, t.inFlight, reply, id);
      }
    }
  }

  // ------------------------------------------------------ facts about records

  lemma FinishedIs(gatewayId: string, graphDigest: Digest, r: ActionRecord, state: ActionState,
                   decision: RuntimeDecision, controls: seq<string>, reasons: seq<string>,
                   policyDigest: Option<Digest>, result: Option<ConnectorResult>, f: ActionRecord)
    requires f == Finished(gatewayId, graphDigest, r, state, decision, controls, reasons, policyDigest, result)
    ensures SameBinding(r, f) && f.state == state && ReceiptMatches(f) && f.receipt.Some?
    ensures f.decision == Some(decision) && f.controls == controls && f.policyDigest == policyDigest
    ensures f.graphDigest == Some(graphDigest) && f.reasonCodes == reasons
  {
  }

  lemma AppliedIs(gatewayId: string, graphDigest: Digest, r: ActionRecord, result: ConnectorResult, f: ActionRecord)
    requires f == Applied(gatewayId, graphDigest, r, result)
    ensures SameBinding(r, f) && ReceiptMatches(f) && f.receipt.Some?
    ensures f.state == match result.outcome
                       case EffectCommitted => Committed
                       case EffectUnknown => OutcomeUnknown
                       case EffectNotCommitted => Failed
    ensures r.decision.Some? && r.graphDigest == Some(graphDigest) && f.state != Failed ==>
      f.decision == r.decision && f.controls == r.controls && f.policyDigest == r.policyDigest
      && f.graphDigest == r.graphDigest
    ensures f.state == Committed ==> f.reasonCodes == r.reasonCodes
    ensures f.state == OutcomeUnknown ==> f.reasonCodes == UNKNOWN_REASONS
  {
  }

  lemma EndedIsOk(cfg: Config, log: seq<Consultation>, r: ActionRecord, f: ActionRecord)
    requires SameBinding(r, f) && (exists p :: Bound(r, p))
    requires ReceiptMatches(f) && f.receipt.Some?
    requires f.state == Rejected || f.state == Failed || f.state == AwaitingApproval
    ensures RecordOk(cfg, log, f)
  {
    hide Bound;
    var p :| Bound(r, p);
    BoundTransfers(r, f);
    assert Bound(f, p);
  }

  lemma EffectiveIsOk(cfg: Config, log: seq<Consultation>, r: ActionRecord, p: Proposal)
    requires Bound(r, p) && Justified(cfg, log, r, p) && ReceiptMatches(r)
    requires EffectState(r.state) && (r.receipt.None? <==> r.state == Committing)
    ensures RecordOk(cfg, log, r)
  {
  }

  lemma EffectOwner(cfg: Config, log: seq<Consultation>, r: ActionRecord, p: Proposal)
    requires RecordOk(cfg, log, r) && EffectState(r.state) && Bound(r, p)
    ensures Justified(cfg, log, r, p)
  {
    hide Bound, Justified;
    var q :| Bound(r, q) && Justified(cfg, log, r, q);
    BoundUnique(r, p, q);
  }

  // ------------------------------------------------------------------- steps

  lemma ClaimKeeps(cfg: Config, s: State, t: State)
    requires CellsOk(cfg, s) && PcOk(cfg, s) && ClaimStep(s, t)
    ensures CellsOk(cfg, t) && PcOk(cfg, t)
  {
    hide ProposalDigest, ProposalDocument;
    var initial := InitialRecord(s.pc.p, ProposalDigest(s.pc.p).value);
    InitialIsBound(s.pc.p);
    assert CellOk(cfg, s, initial.actionId);
    if initial.actionId in s.store {
      CellsFrame(cfg, s, t);
    } else {
      CellsAfterStore(cfg, s, initial, t);
    }
  }

  lemma AssessmentEnds(c: Consultation)
    requires Assess(c).Ends?
    ensures Assess(c).state == Rejected || Assess(c).state == Failed || Assess(c).state == AwaitingApproval
  {
    hide Resolve, Controls, PolicyDigest, CodeText;
  }

  /** What it takes to get past the assessment. */
  lemma AssessmentProceeds(cfg: Config, c: Consultation, r: ActionRecord)
    requires Assess(c).Proceeds? && ReachAnswer(cfg, c)
    ensures Justifies(cfg, c, ReservedRecord(r, Assess(c)), c.proposal)
  {
    hide Controls, PolicyDigest, CodeText, IsReach, GraphDigest, Conflicts, PriorityEffect, MaxSeverity;
  }

  lemma ConsultKeeps(cfg: Config, s: State, c: Consultation, t: State)
    requires CellsOk(cfg, s) && PcOk(cfg, s) && ConsultStep(cfg, s, c, t)
    ensures CellsOk(cfg, t) && PcOk(cfg, t)
  {
    hide Assess, Bound, Justifies, ReachAnswer, GraphDigest, Finished, CellsOk, CellOk, ReceiptMatches;
    CellsAfterLog(cfg, s, c, t);
    var r := s.pc.record;
    var a := Assess(c);
    if a.Ends? {
      AssessmentEnds(c);
      FinishedIs(cfg.gatewayId, GraphDigest(cfg.graph), r, a.state, a.decision, a.controls, a.reasons, a.snapshot, None,
                 FinishedBy(cfg, r, a));
      EndedIsOk(cfg, t.log, r, FinishedBy(cfg, r, a));
      ValidatingUntouched(cfg, s, r.actionId);
    } else {
      AssessmentProceeds(cfg, c, r);
      assert c in t.log;
      assert Justified(cfg, t.log, ReservedRecord(r, a), s.pc.p);
      BoundTransfers(r, ReservedRecord(r, a));
      ValidatingUntouched(cfg, s, r.actionId);
    }
  }

  lemma ValidatingUntouched(cfg: Config, s: State, id: string)
    requires CellsOk(cfg, s) && id in s.store && s.store[id].state == Validating
    ensures Untouched(s.landed, s.inFlight, id)
    ensures s.store[id].receipt.None?
  {
    assert CellOk(cfg, s, id);
  }

  lemma IntendKeeps(cfg: Config, s: State, t: State)
    requires CellsOk(cfg, s) && PcOk(cfg, s) && IntendStep(s, t)
    ensures CellsOk(cfg, t) && PcOk(cfg, t)
  {
    hide Bound, Justified, Untouched, CellsOk, CellOk;
    var r := s.pc.record;
    var intent := r.(state := Committing);
    ValidatingUntouched(cfg, s, r.actionId);
    BoundTransfers(r, intent);
    JustifiedTransfers(cfg, s.log, r, intent, s.pc.p);
    EffectiveIsOk(cfg, s.log, intent, s.pc.p);
    NothingThere(intent, s.landed, s.inFlight);
    CellsAfterStore(cfg, s, intent, t);
  }

  lemma NothingThere(r: ActionRecord, landed: multiset<Effect>, inFlight: multiset<Effect>)
    requires Untouched(landed, inFlight, r.actionId) && r.state != Committed
    ensures WorldOk(r, landed, inFlight)
  {
  }

  lemma HookKeeps(cfg: Config, s: State, hook: Reply<()>, t: State)
    requires CellsOk(cfg, s) && PcOk(cfg, s) && HookStep(cfg, s, hook, t)
    ensures CellsOk(cfg, t) && PcOk(cfg, t)
  {
    hide Bound, Justified, Untouched, CellsOk, CellOk, Finished, GraphDigest, CodeText, ReceiptMatches;
    CellsFrame(cfg, s, t);
    if !hook.Returns? {
      var a := if hook.RaisesGcp? then RejectedWith(hook.code) else INTERNAL_ERROR;
      var r := s.pc.record;
      FinishedIs(cfg.gatewayId, GraphDigest(cfg.graph), r, a.state, a.decision, a.controls, a.reasons, a.snapshot, None,
                 FinishedBy(cfg, r, a));
      EndedIsOk(cfg, t.log, r, FinishedBy(cfg, r, a));
    }
  }

  /** Applying a truthful result to a pending record is a legal save. */
  lemma AppliedIsSaveOk(cfg: Config, s: State, r: ActionRecord, p: Proposal, result: ConnectorResult)
    requires Continues(s, r) && Pending(s.store[r.actionId].state)
    requires Bound(r, p) && Justified(cfg, s.log, r, p) && r.reasonCodes == s.store[r.actionId].reasonCodes
    requires Truthful(result.outcome, s.landed, s.inFlight, r.actionId)
    ensures SaveOk(cfg, s, Applied(cfg.gatewayId, GraphDigest(cfg.graph), r, result))
  {
    hide Bound, Justified, Untouched, HasLanded, Applied, GraphDigest, ReceiptMatches;
    var f := Applied(cfg.gatewayId, GraphDigest(cfg.graph), r, result);
    AppliedIs(cfg.gatewayId, GraphDigest(cfg.graph), r, result, f);
    JustifiedHasDecision(cfg, s.log, r, p);
    if f.state == Failed {
      EndedIsOk(cfg, s.log, r, f);
    } else {
      BoundTransfers(r, f);
      JustifiedTransfers(cfg, s.log, r, f, p);
      EffectiveIsOk(cfg, s.log, f, p);
    }
  }

  lemma CommitKeeps(cfg: Config, s: State, landed': multiset<Effect>, inFlight': multiset<Effect>,
                    reply: Option<ConnectorResult>, t: State)
    requires CellsOk(cfg, s) && PcOk(cfg, s) && CommitStep(cfg, s, landed', inFlight', reply, t)
    ensures CellsOk(cfg, t) && PcOk(cfg, t)
  {
    hide Bound, Justified, Untouched, CellsOk, CellOk, Applied, GraphDigest, HasLanded, SaveOk;
    var p, r := s.pc.p, s.pc.record;
    var e := Effect(r.actionId, p);
    var result := if reply.Some? then reply.value else UNKNOWN_RESULT;
    BoundTransfers(s.store[r.actionId], r);
    CellsAfterCommit(cfg, s, e, reply, t);
    assert Truthful(result.outcome, landed', inFlight', r.actionId);
    AppliedIsSaveOk(cfg, t.(pc := s.pc), r, p, result);
    SaveOkFrame(cfg, t.(pc := s.pc), t, t.pc.record);
  }

  lemma SaveOkFrame(cfg: Config, s: State, t: State, r: ActionRecord)
    requires SaveOk(cfg, s, r)
    requires t.store == s.store && t.landed == s.landed && t.inFlight == s.inFlight && t.log == s.log
    ensures SaveOk(cfg, t, r)
  {
  }

  lemma SaveKeeps(cfg: Config, s: State, t: State)
    requires CellsOk(cfg, s) && PcOk(cfg, s) && SaveStep(s, t)
    ensures CellsOk(cfg, t) && PcOk(cfg, t)
  {
    hide Bound, Justified, Untouched, CellsOk, HasLanded, RecordOk, AtMostOne;
    var r := s.pc.record;
    CellHere(cfg, s, r.actionId);
    BoundTransfers(s.store[r.actionId], r);
    CellsAfterStore(cfg, s, r, t);
  }

  lemma CellHere(cfg: Config, s: State, id: string)
    requires CellsOk(cfg, s)
    ensures CellOk(cfg, s, id)
  {
  }

  lemma LookKeeps(cfg: Config, s: State, t: State)
    requires CellsOk(cfg, s) && PcOk(cfg, s) && LookStep(s, t)
    ensures CellsOk(cfg, t) && PcOk(cfg, t)
  {
    hide CellsOk, RecordOk, WorldOk, Untouched;
    CellHere(cfg, s, s.pc.id);
    CellsFrame(cfg, s, t);
  }

  lemma AskKeeps(cfg: Config, s: State, landed': multiset<Effect>, inFlight': multiset<Effect>,
                 reply: Option<ConnectorResult>, t: State)
    requires CellsOk(cfg, s) && PcOk(cfg, s) && AskStep(cfg, s, landed', inFlight', reply, t)
    ensures CellsOk(cfg, t) && PcOk(cfg, t)
  {
    hide Bound, Justified, Untouched, CellsOk, Applied, GraphDigest, HasLanded, SaveOk, Rebuild, WorldOk, Drifts, ReceiptMatches;
    var r := s.pc.record;
    CellsAfterDrift(cfg, s, t);
    CellHere(cfg, s, r.actionId);
    var p :| Bound(r, p);
    RebuildReturnsBound(r, p);
    EffectOwner(cfg, s.log, r, p);
    if reply.Some? && !(reply.value.outcome == EffectNotCommitted && r.state == Committing) {
      AppliedIsSaveOk(cfg, t.(pc := s.pc), r, p, reply.value);
      SaveOkFrame(cfg, t.(pc := s.pc), t, t.pc.record);
    }
  }

  lemma DeleteKeeps(cfg: Config, s: State, t: State)
    requires CellsOk(cfg, s) && PcOk(cfg, s) && DeleteStep(s, t)
    ensures CellsOk(cfg, t) && PcOk(cfg, t)
  {
    hide CellsOk;
    if s.pc.p.actionId in s.store && s.store[s.pc.p.actionId].state == AwaitingApproval {
      CellsAfterDelete(cfg, s, s.pc.p.actionId, t);
    } else {
      CellsFrame(cfg, s, t);
    }
  }

  lemma DriftKeepsPc(cfg: Config, s: State, t: State)
    requires PcOk(cfg, s) && Drifts(s.landed, s.inFlight, t.landed, t.inFlight)
    requires t.store == s.store && t.log == s.log && t.pc == s.pc
    ensures PcOk(cfg, t)
  {
    hide Bound, Justified, Untouched, HasLanded, RecordOk;
    var id := if s.pc.Hooking? || s.pc.Calling? || s.pc.Saving? then s.pc.record.actionId else "";
    if Untouched(s.landed, s.inFlight, id) {
      DriftKeepsUntouched(s.landed, s.inFlight, t.landed, t.inFlight, id);
    }
    if HasLanded(s.landed, id) {
      LandedStays(s.landed, t.landed, id);
    }
  }

  /** One step keeps the invariant. */
  lemma NextKeeps(cfg: Config, s: State, ev: Event, t: State)
    requires Inv(cfg, s) && Next(cfg, s, ev, t)
    ensures Inv(cfg, t)
  {
    hide CellOk, Bound, Justified, Untouched, HasLanded, RecordOk, CommitStep, AskStep, SaveStep, ConsultStep, HookStep,
         IntendStep, ClaimStep, ProposalDigest, SaveOk, Drifts, LookStep, DeleteStep;
    assert CellsOk(cfg, s);
    match ev
    case Claim => ClaimKeeps(cfg, s, t);
    case Consult(c) => ConsultKeeps(cfg, s, c, t);
    case Intend => IntendKeeps(cfg, s, t);
    case Hook(hook) => HookKeeps(cfg, s, hook, t);
    case Commit(landed', inFlight', reply) => CommitKeeps(cfg, s, landed', inFlight', reply, t);
    case Save => SaveKeeps(cfg, s, t);
    case Look => LookKeeps(cfg, s, t);
    case Ask(landed', inFlight', reply) => AskKeeps(cfg, s, landed', inFlight', reply, t);
    case Delete => DeleteKeeps(cfg, s, t);
    case Drift(landed', inFlight') =>
      CellsAfterDrift(cfg, s, t);
      DriftKeepsPc(cfg, s, t);
    case _ => QuietKeeps(cfg, s, ev, t);
  }

  /** Events that touch neither the store nor the outside world. */
  predicate Quiet(ev: Event) {
    || ev.Snapshot? || ev.BeginExecute? || ev.BeginReconcile? || ev.BeginResume? || ev.CheckWaiting?
    || ev.Approve? || ev.EnterAgain? || ev.RecoverNext? || ev.Abort? || ev.Crash?
  }

  lemma QuietKeeps(cfg: Config, s: State, ev: Event, t: State)
    requires Inv(cfg, s) && Next(cfg, s, ev, t) && Quiet(ev)
    ensures Inv(cfg, t)
  {
    hide CellOk, PcOk, Next;
    assert CellsOk(cfg, s);
    QuietFrame(cfg, s, ev, t);
    CellsFrame(cfg, s, t);
    if t.pc == s.pc {
      PcFrame(cfg, s, t);
    } else {
      QuietPc(cfg, s, ev, t);
    }
  }

  lemma QuietFrame(cfg: Config, s: State, ev: Event, t: State)
    requires Next(cfg, s, ev, t) && Quiet(ev)
    ensures t.store == s.store && t.landed == s.landed && t.inFlight == s.inFlight && t.log == s.log
  {
    hide ProposalDigest, Distinct, Pending, CommitStep, AskStep, ConsultStep, HookStep, IntendStep, ClaimStep, SaveStep, Drifts;
  }

  lemma QuietPc(cfg: Config, s: State, ev: Event, t: State)
    requires PcOk(cfg, s) && Next(cfg, s, ev, t) && Quiet(ev) && t.pc != s.pc
    ensures PcOk(cfg, t)
  {
    hide ProposalDigest, Distinct, Pending, SaveOk, Bound, Justified, Untouched, HasLanded, CommitStep, AskStep, ConsultStep,
         HookStep, IntendStep, ClaimStep, SaveStep, DeleteStep, LookStep, Drifts;
  }

  lemma PcFrame(cfg: Config, s: State, t: State)
    requires PcOk(cfg, s)
    requires t.store == s.store && t.landed == s.landed && t.inFlight == s.inFlight && t.log == s.log && t.pc == s.pc
    ensures PcOk(cfg, t)
  {
    hide Bound, Justified, Untouched, HasLanded, RecordOk;
  }

  lemma InitInv(cfg: Config)
    ensures Inv(cfg, INIT)
  {
    forall id ensures CellOk(cfg, INIT, id) {
    }
  }

  lemma {:induction false} RunKeeps(cfg: Config, states: seq<State>, events: seq<Event>)
    requires Run(cfg, states, events) && Inv(cfg, states[0])
    ensures forall i :: 0 <= i < |states| ==> Inv(cfg, states[i])
    decreases |events|
  {
    hide Inv, Next;
    if events != [] {
      var n := |events| - 1;
      RunKeeps(cfg, states[..n + 1], events[..n]);
      assert Inv(cfg, states[..n + 1][n]);
      NextKeeps(cfg, states[n], events[n], states[n + 1]);
      forall i | 0 <= i < |states| ensures Inv(cfg, states[i]) {
        if i <= n {
          assert states[..n + 1][i] == states[i];
        }
      }
    }
  }

  /** Every reachable state satisfies the invariant. */
  lemma ReachableInv(cfg: Config, s: State)
    requires Reachable(cfg, s)
    ensures Inv(cfg, s)
  {
    hide Inv;
    var states, events :| Leads(cfg, INIT, states, events, s);
    InitInv(cfg);
    RunKeeps(cfg, states, events);
  }

  // ------------------------------------------------------------ composing runs

  lemma ReachesRefl(cfg: Config, s: State)
    ensures Reaches(cfg, s, s)
  {
    assert Leads(cfg, s, [s], [], s);
  }

  lemma ReachesStep(cfg: Config, s: State, t: State, ev: Event, u: State)
    requires Reaches(cfg, s, t) && Next(cfg, t, ev, u)
    ensures Reaches(cfg, s, u)
  {
    hide Next;
    var states, events :| Leads(cfg, s, states, events, t);
    var states', events' := states + [u], events + [ev];
    forall i | 0 <= i < |events'| ensures Next(cfg, states'[i], events'[i], states'[i + 1]) {
      if i < |events| {
        assert states'[i] == states[i] && states'[i + 1] == states[i + 1];
      }
    }
    assert Leads(cfg, s, states', events', u);
  }
}

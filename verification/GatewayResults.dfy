/** Where the result of a committed action comes from, and which controls a record carries. */
module GatewayResults {
  import opened Prelude
  import opened Ordering
  import opened Canonical
  import opened GraphDigests
  import opened Policies
  import opened Proposals
  import opened Records
  import opened GatewayMachine
  import opened GatewayInvariant
  import opened GatewaySteps
  import opened GatewayTheorems

  // ---------------------------------------------------------------- results

  /** The result a call of the connector comes to; a commit that raises counts as an unknown outcome. */
  ghost predicate ComesTo(ev: Event, result: ConnectorResult) {
    || (ev.Commit? && ev.committed == Some(result))
    || (ev.Commit? && ev.committed == None && result == ConnectorResult(EffectUnknown, None, None))
    || (ev.Ask? && ev.answer == Some(result))
  }

  predicate Fits(state: ActionState, outcome: ConnectorOutcome) {
    match outcome
    case EffectCommitted => state == Committed
    case EffectUnknown => state == OutcomeUnknown
    case EffectNotCommitted => state == Failed
  }

  /** The step calls the connector for this record's action, and the record says what came of it. */
  ghost predicate Delivers(s: State, ev: Event, result: ConnectorResult, r: ActionRecord) {
    && (s.pc.Calling? || s.pc.Asking?) && s.pc.record.actionId == r.actionId
    && ComesTo(ev, result) && Fits(r.state, result.outcome)
    && r.resultReference == result.resultReference && r.resultDigest == result.resultDigest
  }

  /** Some step before the n-th state delivered the record's result. */
  ghost predicate Delivered(states: seq<State>, events: seq<Event>, n: nat, r: ActionRecord)
    requires n <= |events| < |states|
  {
    exists k, result :: 0 <= k < n && Delivers(states[k], events[k], result, r)
  }

  /** Records that a connector's result led to carry it; other finished records carry none. */
  ghost predicate ResultTold(states: seq<State>, events: seq<Event>, n: nat, r: ActionRecord)
    requires n <= |events| < |states|
  {
    && (r.state == Committed || r.state == OutcomeUnknown ==> Delivered(states, events, n, r))
    && (r.state == Rejected || r.state == AwaitingApproval ==> r.resultReference == None && r.resultDigest == None)
    && (r.state == Failed ==> (r.resultReference == None && r.resultDigest == None) || Delivered(states, events, n, r))
  }

  ghost predicate ResultsTold(states: seq<State>, events: seq<Event>, n: nat)
    requires n <= |events| < |states|
  {
    && (forall id :: id in states[n].store ==> ResultTold(states, events, n, states[n].store[id]))
    && (states[n].pc.Saving? ==> ResultTold(states, events, n, states[n].pc.record))
  }

  lemma ToldLater(states: seq<State>, events: seq<Event>, n: nat, r: ActionRecord)
    requires n < |events| < |states|
    ensures ResultTold(states, events, n, r) ==> ResultTold(states, events, n + 1, r)
  {
    hide Delivers;
  }

  lemma AppliedDelivers(gatewayId: string, graphDigest: Digest, r: ActionRecord, result: ConnectorResult)
    ensures var f := Applied(gatewayId, graphDigest, r, result);
      f.actionId == r.actionId && Fits(f.state, result.outcome) &&
      f.resultReference == result.resultReference && f.resultDigest == result.resultDigest
  {
  }

  lemma EndedBare(cfg: Config, r: ActionRecord, a: Assessment)
    requires a.Ends?
    ensures FinishedBy(cfg, r, a).resultReference == None && FinishedBy(cfg, r, a).resultDigest == None
    ensures FinishedBy(cfg, r, a).state == a.state
  {
    hide GraphDigest;
  }

  lemma BareIsTold(states: seq<State>, events: seq<Event>, n: nat, r: ActionRecord)
    requires n <= |events| < |states| && r.state in {Rejected, Failed, AwaitingApproval}
    requires r.resultReference == None && r.resultDigest == None
    ensures ResultTold(states, events, n, r)
  {
    hide Delivers;
  }

  lemma DeliveredIsTold(states: seq<State>, events: seq<Event>, n: nat, r: ActionRecord, result: ConnectorResult)
    requires n < |events| < |states| && Delivers(states[n], events[n], result, r)
    ensures ResultTold(states, events, n + 1, r)
  {
    assert Delivered(states, events, n + 1, r);
  }

  /** A record about to be saved takes its result from the step before. */
  lemma SavingTells(cfg: Config, states: seq<State>, events: seq<Event>, n: nat)
    requires n < |events| < |states| && Next(cfg, states[n], events[n], states[n + 1])
    requires states[n + 1].pc.Saving? && !states[n].pc.Saving?
    ensures ResultTold(states, events, n + 1, states[n + 1].pc.record)
  {
    hide ProposalDigest, CommitContract, ReconcileContract, Drifts, Applied, FinishedBy, GraphDigest, Rebuild, ReachAnswer, Assess,
         CodeText, ResultTold;
    var s, t := states[n], states[n + 1];
    match events[n]
    case Consult(c) =>
      AssessmentEnds(c);
      EndedBare(cfg, s.pc.record, Assess(c));
      BareIsTold(states, events, n + 1, t.pc.record);
    case Hook(hook) =>
      EndedBare(cfg, s.pc.record, if hook.RaisesGcp? then RejectedWith(hook.code) else INTERNAL_ERROR);
      BareIsTold(states, events, n + 1, t.pc.record);
    case Commit(_, _, reply) =>
      var given := if reply.Some? then reply.value else UNKNOWN_RESULT;
      AppliedDelivers(cfg.gatewayId, GraphDigest(cfg.graph), s.pc.record, given);
      DeliveredIsTold(states, events, n, t.pc.record, given);
    case Ask(_, _, reply) =>
      AppliedDelivers(cfg.gatewayId, GraphDigest(cfg.graph), s.pc.record, reply.value);
      DeliveredIsTold(states, events, n, t.pc.record, reply.value);
    case _ =>
  }

  lemma SavingStays(cfg: Config, s: State, ev: Event, t: State)
    requires Next(cfg, s, ev, t) && s.pc.Saving? && t.pc.Saving?
    ensures t.pc == s.pc
  {
    hide CommitContract, ReconcileContract, Drifts, ProposalDigest, Assess, Rebuild, Applied, FinishedBy, ReachAnswer;
  }

  lemma StepTells(cfg: Config, states: seq<State>, events: seq<Event>, n: nat)
    requires n < |events| && |states| == |events| + 1 && ResultsTold(states, events, n)
    requires Inv(cfg, states[n]) && Next(cfg, states[n], events[n], states[n + 1])
    ensures ResultsTold(states, events, n + 1)
  {
    hide Inv, Next, ResultTold, CellOk, PcOk, Continues;
    var s, t := states[n], states[n + 1];
    InvPc(cfg, s);
    NextMovesStore(cfg, s, events[n], t);
    forall r: ActionRecord ensures ResultTold(states, events, n, r) ==> ResultTold(states, events, n + 1, r) {
      ToldLater(states, events, n, r);
    }
    forall id | id in t.store ensures ResultTold(states, events, n + 1, t.store[id]) {
      if !(id in s.store && t.store[id] == s.store[id]) && !s.pc.Saving? {
        Transient(states, events, n + 1, t.store[id]);
      }
    }
    if t.pc.Saving? {
      if s.pc.Saving? {
        SavingStays(cfg, s, events[n], t);
      } else {
        SavingTells(cfg, states, events, n);
      }
    }
  }

  lemma InvPc(cfg: Config, s: State)
    requires Inv(cfg, s)
    ensures PcOk(cfg, s)
  {
  }

  lemma Transient(states: seq<State>, events: seq<Event>, n: nat, r: ActionRecord)
    requires n <= |events| < |states| && (r.state == Validating || r.state == Committing)
    ensures ResultTold(states, events, n, r)
  {
  }

  lemma {:induction false} RunTells(cfg: Config, states: seq<State>, events: seq<Event>, n: nat)
    requires Run(cfg, states, events) && states[0] == INIT && n < |states|
    ensures ResultsTold(states, events, n)
    decreases n
  {
    hide Inv, Next, ResultTold;
    if n > 0 {
      RunTells(cfg, states, events, n - 1);
      InitInv(cfg);
      RunKeeps(cfg, states, events);
      assert Next(cfg, states[n - 1], events[n - 1], states[n - 1 + 1]);
      StepTells(cfg, states, events, n - 1);
    }
  }

  /** In every execution, a COMMITTED or COMMIT_OUTCOME_UNKNOWN record carries the reference and the digest of what
      the connector answered for this very action when it said so, none if it raised; a FAILED record those of
      the denial, or none; a REJECTED or waiting one none. */
  lemma RecordsCarryTheResult(cfg: Config, states: seq<State>, events: seq<Event>, n: nat, id: string)
    requires Run(cfg, states, events) && states[0] == INIT && n < |states| && id in states[n].store
    ensures states[n].store[id].actionId == id
    ensures ResultTold(states, events, n, states[n].store[id])
  {
    hide Inv, Next, ResultTold, RecordOk, WorldOk;
    RunTells(cfg, states, events, n);
    InitInv(cfg);
    RunKeeps(cfg, states, events);
    StoredUnderItsId(cfg, states[n], id);
  }

  lemma StoredUnderItsId(cfg: Config, s: State, id: string)
    requires Inv(cfg, s) && id in s.store
    ensures s.store[id].actionId == id
  {
    hide RecordOk, WorldOk, PcOk;
    assert CellOk(cfg, s, id);
  }

  // --------------------------------------------------------------- receipts

  /** A receipt is issued by this gateway, under an id made of the action's. */
  predicate Issued(cfg: Config, r: ActionRecord) {
    r.receipt.Some? ==>
      r.receipt.value.gatewayId == cfg.gatewayId && r.receipt.value.receiptId == "urn:gcp:receipt:" + r.actionId
  }

  predicate AllIssued(cfg: Config, s: State) {
    && (forall id :: id in s.store ==> Issued(cfg, s.store[id]))
    && (s.pc.Saving? ==> Issued(cfg, s.pc.record))
  }

  lemma SavingIsIssued(cfg: Config, s: State, ev: Event, t: State)
    requires Next(cfg, s, ev, t) && t.pc.Saving? && !s.pc.Saving?
    ensures Issued(cfg, t.pc.record)
  {
    hide ProposalDigest, CommitContract, ReconcileContract, Drifts, GraphDigest, Rebuild, ReachAnswer, Assess, CodeText;
  }

  lemma TransientIsIssued(cfg: Config, s: State, id: string)
    requires Inv(cfg, s) && id in s.store && (s.store[id].state == Validating || s.store[id].state == Committing)
    ensures Issued(cfg, s.store[id])
  {
    hide WorldOk, PcOk, Bound, Justified, ReceiptMatches;
    assert CellOk(cfg, s, id);
  }

  lemma StepIssues(cfg: Config, s: State, ev: Event, t: State)
    requires Inv(cfg, s) && Inv(cfg, t) && Next(cfg, s, ev, t) && AllIssued(cfg, s)
    ensures AllIssued(cfg, t)
  {
    hide Inv, Next, Issued, CellOk, PcOk, Continues;
    InvPc(cfg, s);
    NextMovesStore(cfg, s, ev, t);
    forall id | id in t.store ensures Issued(cfg, t.store[id]) {
      if !(id in s.store && t.store[id] == s.store[id]) && !s.pc.Saving? {
        TransientIsIssued(cfg, t, id);
      }
    }
    if t.pc.Saving? {
      if s.pc.Saving? {
        SavingStays(cfg, s, ev, t);
      } else {
        SavingIsIssued(cfg, s, ev, t);
      }
    }
  }

  /** In every execution a record's receipt is this gateway's own, under the action's id. */
  lemma {:induction false} ReceiptsAreIssued(cfg: Config, states: seq<State>, events: seq<Event>, n: nat)
    requires Run(cfg, states, events) && states[0] == INIT && n < |states|
    ensures AllIssued(cfg, states[n])
    decreases n
  {
    hide Inv, Next, Issued;
    if n > 0 {
      ReceiptsAreIssued(cfg, states, events, n - 1);
      InitInv(cfg);
      RunKeeps(cfg, states, events);
      assert Next(cfg, states[n - 1], events[n - 1], states[n - 1 + 1]);
      StepIssues(cfg, states[n - 1], events[n - 1], states[n]);
    }
  }

  // --------------------------------------------------------------- controls

  /** The kernel or some report asks for this control. */
  ghost predicate Required(x: string, kernel: seq<string>, evaluations: seq<PolicyEvaluation>) {
    x in kernel || exists i :: 0 <= i < |evaluations| && x in evaluations[i].requiredControls
  }

  /** A record lists what the kernel and the reports require, nothing else, once each and sorted. */
  lemma ControlsAre(kernel: seq<string>, evaluations: seq<PolicyEvaluation>)
    ensures forall x :: x in Controls(kernel, evaluations) <==> Required(x, kernel, evaluations)
    ensures Distinct(Controls(kernel, evaluations)) && Ascending(CodePoint, Controls(kernel, evaluations))
  {
    hide Before;
    SortedAscending(CodePoint, (set c | c in kernel) + ControlSet(evaluations));
  }
}

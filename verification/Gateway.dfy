/** gateway.py in its own form: an object whose methods call the store, the callbacks and the
    connector. Each method is proved to perform an execution of the gateway machine, so what holds
    along all executions holds of these methods. */
module Gateway {
  import opened Prelude
  import opened Canonical
  import opened Topology
  import opened GraphDigests
  import opened GovernanceGraphs
  import opened Policies
  import opened Carm
  import opened CarmRuntime
  import opened Proposals
  import opened Records
  import opened ActionStores
  import opened GatewayMachine
  import opened GatewayInvariant
  import opened GatewaySteps
  import opened GatewayVerdicts

  /** A call into code outside the gateway. `Dies` is an exception that is not an `Exception`, or the
      end of the process. */
  datatype Call<+T> = Answers(reply: Reply<T>) | Dies

  function ResultOf(call: Call<ConnectorResult>): Option<ConnectorResult> {
    if call.Answers? && call.reply.Returns? then Some(call.reply.value) else None
  }

  /** The outside world. The tape lets a connector behave differently from one call to the next. */
  datatype Outside = Outside(landed: multiset<Effect>, inFlight: multiset<Effect>, tape: nat)

  datatype Response = Response(after: Outside, call: Call<ConnectorResult>)

  /** Any connector that keeps the contract. */
  class ProtectedConnector {
    var outside: Outside
    const onCommit: (Outside, Effect) -> Response
    const onReconcile: (Outside, string) -> Response

    constructor (o: Outside, onCommit: (Outside, Effect) -> Response, onReconcile: (Outside, string) -> Response)
      ensures outside == o && this.onCommit == onCommit && this.onReconcile == onReconcile
    {
      this.outside, this.onCommit, this.onReconcile := o, onCommit, onReconcile;
    }

    ghost predicate Lawful() {
      && (forall o, e :: var r := onCommit(o, e);
            CommitContract(o.landed, o.inFlight, e, r.after.landed, r.after.inFlight, ResultOf(r.call)))
      && (forall o, id :: var r := onReconcile(o, id);
            ReconcileContract(o.landed, o.inFlight, id, r.after.landed, r.after.inFlight, ResultOf(r.call)))
    }

    method Commit(e: Effect) returns (call: Call<ConnectorResult>)
      requires Lawful()
      modifies this
      ensures onCommit(old(outside), e) == Response(outside, call)
      ensures CommitContract(old(outside).landed, old(outside).inFlight, e, outside.landed, outside.inFlight, ResultOf(call))
    {
      var r := onCommit(outside, e);
      outside := r.after;
      call := r.call;
    }

    method Reconcile(id: string) returns (call: Call<ConnectorResult>)
      requires Lawful()
      modifies this
      ensures onReconcile(old(outside), id) == Response(outside, call)
      ensures ReconcileContract(old(outside).landed, old(outside).inFlight, id, outside.landed, outside.inFlight,
                                ResultOf(call))
    {
      var r := onReconcile(outside, id);
      outside := r.after;
      call := r.call;
    }
  }

  datatype Outcome = Returned(record: ActionRecord) | RaisedError(code: ErrorCode) | RaisedException | Died

  /** What a caller sees of an operation that ended with a record, or of one that the process did not survive. */
  function AnswerOf(ended: Option<ActionRecord>): Outcome {
    if ended.Some? then Returned(ended.value) else Died
  }

  /** What the caller of `resume_approved` gets without an approval. */
  function Unapproved(approval: Call<bool>, waiting: ActionRecord): Outcome {
    match approval
    case Dies => Died
    case Answers(Returns(_)) => Returned(waiting)
    case Answers(RaisesGcp(code)) => RaisedError(code)
    case Answers(RaisesOther) => RaisedException
  }

  /** The code gets as far as the approval verifier. */
  predicate AsksApproval(c: Consultation) {
    && c.kernel.Returns? && c.policy.Returns? && c.reach.Ok?
    && Resolve(c.policy.value, c.reach.value, DEFAULT_CONFIG).decision == ApprovalRequired
  }

  /** Each callback that was reached read one place of the tape. */
  function TapeAfter(t: nat, c: Consultation): nat {
    if !c.kernel.Returns? then t + 1 else if AsksApproval(c) then t + 3 else t + 2
  }

  class GovernedActionGateway {
    const gatewayId: string
    const rnd: real -> real
    const graph: GovernanceGraph
    const store: InMemoryActionStore
    const connector: ProtectedConnector
    const kernelVerifier: (nat, Proposal) -> Call<seq<string>>
    const policyRuntime: (nat, Proposal) -> Call<seq<PolicyEvaluation>>
    const approvalVerifier: (nat, Proposal) -> Call<bool>
    const beforeConnector: (nat, Proposal) -> Call<()>
    var tape: nat
    ghost var world: State
    /** Where this object's own part of the log begins. */
    ghost const inherited: nat

    ghost function Cfg(): Config
      reads graph
    {
      Config(gatewayId, graph.View(), rnd)
    }

    /** The objects are in the machine's state. */
    ghost predicate InStep()
      reads this, graph, store, connector
    {
      && store.Valid() && store.records == world.store
      && connector.outside.landed == world.landed && connector.outside.inFlight == world.inFlight
      && graph.Valid() && connector.Lawful() && OwnLog(world.log)
    }

    ghost predicate Valid()
      reads this, graph, store, connector
    {
      InStep() && Inv(Cfg(), world)
    }

    /** A gateway takes over a store and an outside world: the empty ones, or what an earlier process left. */
    constructor (gatewayId: string, rnd: real -> real, graph: GovernanceGraph, store: InMemoryActionStore,
                 connector: ProtectedConnector, kernelVerifier: (nat, Proposal) -> Call<seq<string>>,
                 policyRuntime: (nat, Proposal) -> Call<seq<PolicyEvaluation>>,
                 approvalVerifier: (nat, Proposal) -> Call<bool>, beforeConnector: (nat, Proposal) -> Call<()>,
                 ghost left: State)
      requires graph.Valid() && connector.Lawful()
      requires Inv(Config(gatewayId, graph.View(), rnd), left) && left.pc.Idle? && left.waiting == multiset{}
      requires store.Valid() && store.records == left.store
      requires connector.outside.landed == left.landed && connector.outside.inFlight == left.inFlight
      ensures Valid() && world == left && inherited == |left.log|
      ensures this.gatewayId == gatewayId && this.rnd == rnd
      ensures this.graph == graph && this.store == store && this.connector == connector
      ensures this.kernelVerifier == kernelVerifier && this.policyRuntime == policyRuntime
      ensures this.approvalVerifier == approvalVerifier && this.beforeConnector == beforeConnector && tape == 0
    {
      this.gatewayId, this.rnd, this.graph, this.store, this.connector := gatewayId, rnd, graph, store, connector;
      this.kernelVerifier, this.policyRuntime := kernelVerifier, policyRuntime;
      this.approvalVerifier, this.beforeConnector := approvalVerifier, beforeConnector;
      tape := 0;
      world, inherited := left, |left.log|;
    }

    /** Since this object took over, every consultation holds its own callbacks' answers. */
    ghost predicate OwnLog(log: seq<Consultation>) {
      inherited <= |log| && forall i :: inherited <= i < |log| ==> FromCallbacks(log[i])
    }

    ghost predicate FromCallbacks(c: Consultation) {
      exists t :: Asked(t, c.proposal, c)
    }

    lemma OwnLogGrows(log: seq<Consultation>, c: Consultation, t: nat)
      requires OwnLog(log) && Asked(t, c.proposal, c)
      ensures OwnLog(log + [c])
    {
      hide Asked;
      assert FromCallbacks(c);
      forall i | inherited <= i < |log + [c]| ensures FromCallbacks((log + [c])[i]) {
        if i < |log| {
          assert (log + [c])[i] == log[i];
        }
      }
    }

    /** Ghost bookkeeping: the machine takes one step. */
    ghost method Step(start: State, ev: Event, t: State)
      requires Inv(Cfg(), world) && Reaches(Cfg(), start, world) && Next(Cfg(), world, ev, t)
      modifies this`world
      ensures world == t && Inv(Cfg(), world) && Reaches(Cfg(), start, world)
    {
      NextKeeps(Cfg(), world, ev, t);
      ReachesStep(Cfg(), start, world, ev, t);
      world := t;
    }

    // ------------------------------------------- what the operations come to

    /** The answers in a consultation are the callbacks' own, from place `t` of the tape on. */
    ghost predicate Asked(t: nat, p: Proposal, c: Consultation) {
      && c.proposal == p
      && kernelVerifier(t, p) == Answers(c.kernel)
      && (c.kernel.Returns? ==> policyRuntime(t + 1, p) == Answers(c.policy))
      && (AsksApproval(c) ==> approvalVerifier(t + 2, p) == Answers(c.approval))
    }

    ghost predicate CallbackDies(t: nat, p: Proposal) {
      kernelVerifier(t, p).Dies? || policyRuntime(t + 1, p).Dies? || approvalVerifier(t + 2, p).Dies?
    }

    /** The receipt binds the digest of this gateway's graph. */
    function FinishedBy'(record: ActionRecord, a: Assessment): (r: ActionRecord)
      requires a.Ends?
      reads graph
      ensures r == FinishedBy(Cfg(), record, a)
    {
      Finished(gatewayId, GraphDigest(graph.View()), record, a.state, a.decision, a.controls, a.reasons, a.snapshot, None)
    }

    function Applied'(record: ActionRecord, result: ConnectorResult): (r: ActionRecord)
      reads graph
      ensures r == Applied(Cfg().gatewayId, GraphDigest(Cfg().graph), record, result)
    {
      Applied(gatewayId, GraphDigest(graph.View()), record, result)
    }

    /** One commit, and the record that its result leads to. */
    ghost function CommitEnds(o: Outside, p: Proposal, record: ActionRecord): (Outside, Option<ActionRecord>)
      reads graph
    {
      var r := connector.onCommit(o, Effect(record.actionId, p));
      var result := if ResultOf(r.call).Some? then ResultOf(r.call).value else UNKNOWN_RESULT;
      (r.after, if r.call.Dies? then None else Some(Applied'(record, result)))
    }

    /** From the durable intent on: the hook, and if it returns, the commit. */
    ghost function HookEnds(t: nat, o: Outside, p: Proposal, reserved: ActionRecord): (Outside, Option<ActionRecord>)
      reads graph
    {
      match beforeConnector(t, p)
      case Dies => (o, None)
      case Answers(RaisesGcp(code)) => (o, Some(FinishedBy'(reserved, RejectedWith(code))))
      case Answers(RaisesOther) => (o, Some(FinishedBy'(reserved, INTERNAL_ERROR)))
      case Answers(Returns(_)) => CommitEnds(o, p, reserved)
    }

    /** From a consultation on. */
    ghost function ConsultationEnds(t: nat, o: Outside, c: Consultation, initial: ActionRecord): (Outside, Option<ActionRecord>)
      reads graph
    {
      var a := Assess(c);
      if a.Ends? then (o, Some(FinishedBy'(initial, a)))
      else HookEnds(TapeAfter(t, c), o, c.proposal, ReservedRecord(initial, a))
    }

    /** What an interrupted operation leaves in the store: the claim, or the commit intent. */
    ghost function LeftBehind(c: Consultation, initial: ActionRecord): ActionRecord {
      if Assess(c).Ends? then initial else ReservedRecord(initial, Assess(c)).(state := Committing)
    }

    /** How a fresh claim ends, from a store, a log, an outside world and a place on the tape: the id's
        record is the only one touched, and everything follows from the callbacks' and the connector's
        own answers. */
    ghost predicate ClaimOutcome(records: map<string, ActionRecord>, log: seq<Consultation>, o: Outside, t: nat,
                                 out: Outcome, p: Proposal, node: string)
      reads this, graph, store, connector
    {
      && ProposalDigest(p).Ok?
      && p.actionId in store.records && store.records == records[p.actionId := store.records[p.actionId]]
      && var initial := InitialRecord(p, ProposalDigest(p).value);
         if world.log == log
         then out.Died? && CallbackDies(t, p) && connector.outside == o && store.records[p.actionId] == initial
         else
           && |world.log| == |log| + 1 && world.log[..|log|] == log
           && ConsultedOutcome(world.log[|log|], initial, o, t, out, p, node)
    }

    ghost predicate ConsultedOutcome(c: Consultation, initial: ActionRecord, o: Outside, t: nat, out: Outcome,
                                     p: Proposal, node: string)
      reads graph, store, connector
    {
      && Asked(t, p, c) && c.node == node
      && var (after, ended) := ConsultationEnds(t, o, c, initial);
         && connector.outside == after && out == AnswerOf(ended)
         && p.actionId in store.records
         && store.records[p.actionId] == if ended.Some? then ended.value else LeftBehind(c, initial)
    }

    /** What the replies alone say of an action that was consulted on: only one that passes can touch the
        outside world, and only one for which approval is denied waits. */
    ghost predicate Ruled(c: Consultation, o: Outside, out: Outcome)
      reads graph, connector
    {
      && (BlockedBy(c) || (exists code :: Refuses(c, code)) ==>
            out.Returned? && out.record.state == Rejected && connector.outside == o)
      && (Breaks(c) ==> out.Returned? && out.record.state == Failed && connector.outside == o)
      && (Waits(c) ==> connector.outside == o)
      && (out.Returned? && out.record.state == AwaitingApproval <==> Waits(c))
      && (out.Returned? && out.record.state in {Committed, OutcomeUnknown} ==> Passes(c))
      && (connector.outside != o || !out.Returned? ==> Passes(c))
      && (BlockedBy(c) || Waits(c) ==> out.Returned? && Holds(Cfg(), c, out.record))
      && (forall code :: Refuses(c, code) ==> out.Returned? && Bare(out.record, CodeText(code)))
    }

    lemma ConsultedIsRuled(c: Consultation, initial: ActionRecord, o: Outside, t: nat, out: Outcome, p: Proposal, node: string)
      requires ConsultedOutcome(c, initial, o, t, out, p, node)
      ensures Ruled(c, o, out)
    {
      hide Assess, Refuses, Breaks, Waits, Passes, BlockedBy, HookEnds, Asked, GraphDigest, CodeText, Finished, Resolve,
           Controls, PolicyDigest;
      AssessmentIff(c);
      AssessmentTells(c);
      if Waits(c) || BlockedBy(c) {
        WaitingHolds(c);
      }
      if Assess(c).Ends? {
        var a := Assess(c);
        FinishedIs(gatewayId, GraphDigest(graph.View()), initial, a.state, a.decision, a.controls, a.reasons, a.snapshot,
                   None, FinishedBy'(initial, a));
      }
      if Assess(c).Proceeds? {
        HookEndsElsewhere(TapeAfter(t, c), o, c.proposal, ReservedRecord(initial, Assess(c)));
      }
    }

    /** Past the commit intent nothing waits for approval any more. */
    lemma HookEndsElsewhere(t: nat, o: Outside, p: Proposal, reserved: ActionRecord)
      ensures var ended := HookEnds(t, o, p, reserved).1;
        ended.Some? ==> ended.value.state in {Rejected, Failed, Committed, OutcomeUnknown}
    {
      hide GraphDigest, CodeText;
    }

    /** The waiting record is gone and its id claimed anew, for whatever proposal was passed in. */
    ghost predicate ReplacedOutcome(records: map<string, ActionRecord>, log: seq<Consultation>, o: Outside, t: nat,
                                    out: Outcome, p: Proposal, node: string)
      reads this, graph, store, connector
    {
      if ProposalDigest(p).Err?
      then out == RaisedError(ProposalDigest(p).error) && store.records == records - {p.actionId} && connector.outside == o
      else ClaimOutcome(records - {p.actionId}, log, o, t, out, p, node)
    }

    /** One reconciliation of a pending record. */
    ghost function ReconcileEnds(o: Outside, record: ActionRecord): (Outside, Outcome)
      reads graph
    {
      var r := connector.onReconcile(o, record.actionId);
      var result := ResultOf(r.call);
      if result.None? then
        (r.after, if r.call.Dies? then Died
                  else if r.call.reply.RaisesGcp? then RaisedError(r.call.reply.code) else RaisedException)
      else if result.value.outcome == EffectNotCommitted && record.state == Committing then
        match Rebuild(record)
        case Err(e) => (r.after, RaisedError(e))
        case Ok(p) => var (after, ended) := CommitEnds(r.after, p, record); (after, AnswerOf(ended))
      else (r.after, Returned(Applied'(record, result.value)))
    }

    /** Reconciliations in turn, up to the first that does not return. */
    ghost function RecoverEnds(o: Outside, records: map<string, ActionRecord>, ids: seq<string>)
      : (Outside, seq<ActionRecord>, Option<Outcome>)
      requires forall id :: id in ids ==> id in records
      reads graph
      decreases |ids|
    {
      if ids == [] then (o, [], None)
      else
        var (after, out) := ReconcileEnds(o, records[ids[0]]);
        if !out.Returned? then (after, [], Some(out))
        else
          var (later, rest, stopped) := RecoverEnds(after, records, ids[1..]);
          (later, [out.record] + rest, stopped)
    }

    // --------------------------------------------------------- the operations

    method Execute(p: Proposal, node: string) returns (out: Outcome)
      requires Valid() && world.pc.Idle?
      modifies this`tape, this`world, store, connector
      ensures Valid() && world.pc.Idle? && world.waiting == old(world.waiting)
      ensures Reaches(Cfg(), old(world), world)
      ensures ProposalDigest(p).Err? ==>
        out == RaisedError(ProposalDigest(p).error) && world == old(world) && connector.outside == old(connector.outside)
      ensures ProposalDigest(p).Ok? && p.actionId in old(store.records) ==>
        && store.records == old(store.records) && connector.outside == old(connector.outside)
        && out == if old(store.records)[p.actionId].proposalDigest == ProposalDigest(p).value
                  then Returned(old(store.records)[p.actionId]) else RaisedError(ActionIdConflict)
      ensures ProposalDigest(p).Ok? && p.actionId !in old(store.records) ==>
        ClaimOutcome(old(store.records), old(world.log), old(connector.outside), old(tape), out, p, node)
      ensures ProposalDigest(p).Ok? && p.actionId !in old(store.records) && world.log != old(world.log) ==>
        |world.log| > |old(world.log)| && Ruled(world.log[|old(world.log)|], old(connector.outside), out)
    {
      hide Inv, Reaches, Next, OwnLog, Lists, ProposalDigest, ClaimOutcome, Ruled;
      ghost var start := world;
      ReachesRefl(Cfg(), start);
      var digest := ProposalDigest(p);
      if digest.Err? {
        return RaisedError(digest.error);
      }
      BeginsExecute(Cfg(), world, p, node);
      Step(start, BeginExecute(p, node), world.(pc := Claiming(p, node)));
      out := ExecuteClaiming(p, node, start);
      if p.actionId !in old(store.records) && world.log != old(world.log) {
        ClaimIsRuled(old(store.records), old(world.log), old(connector.outside), old(tape), out, p, node);
      }
    }

    lemma ClaimIsRuled(records: map<string, ActionRecord>, log: seq<Consultation>, o: Outside, t: nat, out: Outcome,
                       p: Proposal, node: string)
      requires ClaimOutcome(records, log, o, t, out, p, node) && world.log != log
      ensures |world.log| > |log| && Ruled(world.log[|log|], o, out)
    {
      hide ConsultedOutcome, Ruled, ProposalDigest;
      ConsultedIsRuled(world.log[|log|], InitialRecord(p, ProposalDigest(p).value), o, t, out, p, node);
    }

    /** `execute` from the claim on. */
    method ExecuteClaiming(p: Proposal, node: string, ghost start: State) returns (out: Outcome)
      requires InStep() && Inv(Cfg(), world) && Reaches(Cfg(), start, world)
      requires world.pc == Claiming(p, node) && ProposalDigest(p).Ok?
      modifies this`tape, this`world, store, connector
      ensures InStep() && Inv(Cfg(), world) && Reaches(Cfg(), start, world)
      ensures world.pc.Idle? && world.waiting == old(world.waiting)
      ensures p.actionId in old(store.records) ==>
        && store.records == old(store.records) && connector.outside == old(connector.outside)
        && out == if old(store.records)[p.actionId].proposalDigest == ProposalDigest(p).value
                  then Returned(old(store.records)[p.actionId]) else RaisedError(ActionIdConflict)
      ensures p.actionId !in old(store.records) ==>
        ClaimOutcome(old(store.records), old(world.log), old(connector.outside), old(tape), out, p, node)
    {
      hide Inv, Reaches, Next, OwnLog, Lists, ProposalDigest, ConsultedOutcome, CallbackDies, GovernanceGraph.Valid, ProtectedConnector.Lawful;
      var digest := ProposalDigest(p).value;
      var initial := InitialRecord(p, digest);
      ghost var before := world;
      var existing := store.Claim(initial);
      ClaimMoves(Cfg(), before, initial);
      if existing.Some? {
        Step(start, Claim, world.(pc := Idle));
        if existing.value.proposalDigest != digest {
          return RaisedError(ActionIdConflict);
        }
        return Returned(existing.value);
      }
      Step(start, Claim, world.(store := world.store[initial.actionId := initial], pc := Assessing(p, node, initial)));
      out := ExecuteAssessing(p, node, initial, start);
    }

    /** `execute` once the id is claimed. */
    method ExecuteAssessing(p: Proposal, node: string, initial: ActionRecord, ghost start: State) returns (out: Outcome)
      requires InStep() && Inv(Cfg(), world) && Reaches(Cfg(), start, world)
      requires world.pc == Assessing(p, node, initial) && p.actionId in store.records && store.records[p.actionId] == initial
      requires ProposalDigest(p).Ok? && initial == InitialRecord(p, ProposalDigest(p).value)
      modifies this`tape, this`world, store, connector
      ensures InStep() && Inv(Cfg(), world) && Reaches(Cfg(), start, world)
      ensures world.pc.Idle? && world.waiting == old(world.waiting)
      ensures ClaimOutcome(old(store.records), old(world.log), old(connector.outside), old(tape), out, p, node)
    {
      hide Inv, Reaches, Next, OwnLog, Lists, ProposalDigest, Assess, Finished, GraphDigest, Asked, CallbackDies, HookEnds, TapeAfter,
           GovernanceGraph.Valid, ProtectedConnector.Lawful, ProposalDocument;
      var died, a, c := ConsultCallbacks(p, node);
      if died {
        AbortMoves(Cfg(), world);
        Step(start, Abort, world.(pc := Idle));
        return Died;
      }
      ConsultMoves(Cfg(), world, c);
      OwnLogGrows(world.log, c, old(tape));
      if a.Ends? {
        var r := FinishedBy'(initial, a);
        Step(start, Consult(c), world.(log := world.log + [c], pc := Saving(r, Return)));
        FinishedKeepsId(Cfg(), initial, a);
        out := Finish(r, Return, start);
      } else {
        var reserved := ReservedRecord(initial, a);
        Step(start, Consult(c), world.(log := world.log + [c], pc := Intending(p, reserved)));
        out := CommitIntent(p, reserved, start);
      }
      assert world.log == old(world.log) + [c];
      assert world.log[..|old(world.log)|] == old(world.log);
    }

    /** The callbacks of the `try` block and CARM, in order, each only if the code gets that far. */
    method ConsultCallbacks(p: Proposal, node: string) returns (died: bool, a: Assessment, ghost c: Consultation)
      requires graph.Valid()
      modifies this`tape
      ensures !died ==> a == Assess(c) && c.proposal == p && c.node == node && ReachAnswer(Cfg(), c)
      ensures !died ==> Asked(old(tape), p, c) && tape == TapeAfter(old(tape), c)
      ensures died ==> CallbackDies(old(tape), p)
    {
      hide IsReach, Resolve, Controls, PolicyDigest, CodeText, GraphDigest;
      died, a := false, INTERNAL_ERROR;
      c := Consultation(p, node, RaisesOther, RaisesOther, Err(InvalidGovernanceGraph), RaisesOther);
      var kernel := kernelVerifier(tape, p);
      tape := tape + 1;
      if kernel.Dies? {
        return true, a, c;
      }
      c := c.(kernel := kernel.reply);
      if !kernel.reply.Returns? {
        a := if kernel.reply.RaisesGcp? then RejectedWith(kernel.reply.code) else INTERNAL_ERROR;
        return;
      }
      var policy := policyRuntime(tape, p);
      tape := tape + 1;
      if policy.Dies? {
        return true, a, c;
      }
      c := c.(policy := policy.reply);
      if !policy.reply.Returns? {
        a := if policy.reply.RaisesGcp? then RejectedWith(policy.reply.code) else INTERNAL_ERROR;
        return;
      }
      var resolution := ResolveCarm(policy.reply.value, graph, node, rnd, DEFAULT_CONFIG);
      if resolution.Err? {
        c := c.(reach := Err(resolution.error));
        a := RejectedWith(resolution.error);
        return;
      }
      c := c.(reach := Ok(resolution.value.reach));
      ResolutionReach(policy.reply.value, resolution.value.reach);
      var controls := Controls(kernel.reply.value, policy.reply.value);
      var policyDigest := PolicyDigest(policy.reply.value);
      var decision, reasons := resolution.value.decision, resolution.value.reasonCodes;
      if decision == BlockAction {
        a := Ends(Rejected, decision, controls, reasons, Some(policyDigest));
        return;
      }
      if decision == ApprovalRequired {
        var approval := approvalVerifier(tape, p);
        tape := tape + 1;
        if approval.Dies? {
          return true, a, c;
        }
        c := c.(approval := approval.reply);
        if !approval.reply.Returns? {
          a := if approval.reply.RaisesGcp? then RejectedWith(approval.reply.code) else INTERNAL_ERROR;
          return;
        }
        if !approval.reply.value {
          a := Ends(AwaitingApproval, decision, controls, reasons, Some(policyDigest));
          return;
        }
      }
      a := Proceeds(decision, controls, reasons, resolution.value.reach.graphDigest, policyDigest);
    }

    /** From the commit intent to the connector's answer. */
    method CommitIntent(p: Proposal, reserved: ActionRecord, ghost start: State) returns (out: Outcome)
      requires InStep() && Inv(Cfg(), world) && Reaches(Cfg(), start, world)
      requires world.pc == Intending(p, reserved) && reserved.actionId == p.actionId
      modifies this`tape, this`world, store, connector
      ensures InStep() && Inv(Cfg(), world) && Reaches(Cfg(), start, world)
      ensures world.pc.Idle? && world.waiting == old(world.waiting) && world.log == old(world.log)
      ensures p.actionId in store.records
      ensures store.records == old(store.records)[p.actionId := store.records[p.actionId]]
      ensures var (after, ended) := HookEnds(old(tape), old(connector.outside), p, reserved);
        && connector.outside == after && out == AnswerOf(ended)
        && store.records[p.actionId] == if ended.Some? then ended.value else reserved.(state := Committing)
    {
      hide Inv, Reaches, Next, OwnLog, Lists, CommitContract, GraphDigest, Finished, Applied, CodeText, HookEnds,
           GovernanceGraph.Valid, ProtectedConnector.Lawful, GovernanceGraph.View;
      IntendMoves(Cfg(), world);
      store.Put(reserved.(state := Committing));
      Step(start, Intend, world.(store := world.store[reserved.actionId := reserved.(state := Committing)],
                                 pc := Hooking(p, reserved)));
      out := HookAndCommit(p, reserved, start);
    }

    /** From the durable intent to the outcome. */
    method HookAndCommit(p: Proposal, reserved: ActionRecord, ghost start: State) returns (out: Outcome)
      requires InStep() && Inv(Cfg(), world) && Reaches(Cfg(), start, world)
      requires world.pc == Hooking(p, reserved) && reserved.actionId == p.actionId
      requires p.actionId in store.records && store.records[p.actionId] == reserved.(state := Committing)
      modifies this`tape, this`world, store, connector
      ensures InStep() && Inv(Cfg(), world) && Reaches(Cfg(), start, world)
      ensures world.pc.Idle? && world.waiting == old(world.waiting) && world.log == old(world.log)
      ensures p.actionId in store.records
      ensures store.records == old(store.records)[p.actionId := store.records[p.actionId]]
      ensures var (after, ended) := HookEnds(old(tape), old(connector.outside), p, reserved);
        && connector.outside == after && out == AnswerOf(ended)
        && store.records[p.actionId] == if ended.Some? then ended.value else reserved.(state := Committing)
    {
      hide Inv, Reaches, Next, OwnLog, Lists, CommitContract, GraphDigest, Finished, Applied, CodeText, CommitEnds,
           GovernanceGraph.Valid, ProtectedConnector.Lawful, GovernanceGraph.View;
      var hook := beforeConnector(tape, p);
      tape := tape + 1;
      if hook.Dies? {
        AbortMoves(Cfg(), world);
        Step(start, Abort, world.(pc := Idle));
        return Died;
      }
      HookMoves(Cfg(), world, hook.reply);
      if !hook.reply.Returns? {
        var a := if hook.reply.RaisesGcp? then RejectedWith(hook.reply.code) else INTERNAL_ERROR;
        var r := FinishedBy'(reserved, a);
        FinishedKeepsId(Cfg(), reserved, a);
        Step(start, Hook(hook.reply), world.(pc := Saving(r, Return)));
        out := Finish(r, Return, start);
        return;
      }
      Step(start, Hook(hook.reply), world.(pc := Calling(p, reserved, Return)));
      out := CommitAndFinish(p, reserved, Return, start);
    }

    /** `_commit_safely` followed by `_apply_connector_result`. */
    method CommitAndFinish(p: Proposal, record: ActionRecord, ghost after: Continuation, ghost start: State)
      returns (out: Outcome)
      requires InStep() && Inv(Cfg(), world) && Reaches(Cfg(), start, world)
      requires world.pc == Calling(p, record, after)
      modifies this`world, store, connector
      ensures InStep() && Inv(Cfg(), world) && Reaches(Cfg(), start, world)
      ensures world.pc.Idle? && world.log == old(world.log)
      ensures var (moved, ended) := CommitEnds(old(connector.outside), p, record);
        connector.outside == moved && out == AnswerOf(ended)
      ensures out.Died? ==> world.waiting == old(world.waiting) && store.records == old(store.records)
      ensures out.Returned? ==> store.records == old(store.records)[record.actionId := out.record]
      ensures out.Returned? ==> world.waiting == Released(old(world), after).waiting
      ensures out.Returned? ==> out.record.state in {Committed, OutcomeUnknown, Failed}
    {
      hide Inv, Reaches, Next, OwnLog, Lists, CommitContract, GraphDigest, Applied, GovernanceGraph.Valid;
      CommitMoves(Cfg(), world);
      var call := connector.Commit(Effect(record.actionId, p));
      var result := if ResultOf(call).Some? then ResultOf(call).value else UNKNOWN_RESULT;
      var r := Applied'(record, result);
      Step(start, Commit(connector.outside.landed, connector.outside.inFlight, ResultOf(call)),
           world.(landed := connector.outside.landed, inFlight := connector.outside.inFlight,
                  commitCalls := world.commitCalls + 1, pc := Saving(r, after)));
      if call.Dies? {
        AbortMoves(Cfg(), world);
        Step(start, Abort, world.(pc := Idle));
        return Died;
      }
      AppliedKeepsId(gatewayId, GraphDigest(graph.View()), record, result);
      out := Finish(r, after, start);
    }

    /** The last act of `_finish`. */
    method Finish(r: ActionRecord, ghost after: Continuation, ghost start: State) returns (out: Outcome)
      requires InStep() && Inv(Cfg(), world) && Reaches(Cfg(), start, world) && world.pc == Saving(r, after)
      modifies this`world, store
      ensures InStep() && Inv(Cfg(), world) && Reaches(Cfg(), start, world)
      ensures world.pc.Idle? && world.log == old(world.log) && world.waiting == Released(old(world), after).waiting
      ensures out == Returned(r) && store.records == old(store.records)[r.actionId := r]
    {
      hide Inv, Reaches, Next, OwnLog, Lists;
      SaveMoves(Cfg(), world);
      store.Put(r);
      Step(start, Save, Released(world.(store := world.store[r.actionId := r]), after));
      out := Returned(r);
    }

    method Reconcile(id: string) returns (out: Outcome)
      requires Valid() && world.pc.Idle?
      modifies this`world, store, connector
      ensures Valid() && world.pc.Idle? && world.waiting == old(world.waiting)
      ensures Reaches(Cfg(), old(world), world)
      ensures !(id in old(store.records) && Pending(old(store.records)[id].state)) ==>
        out == RaisedError(ActionStateInvalid) && store.records == old(store.records)
        && connector.outside == old(connector.outside)
      ensures id in old(store.records) && Pending(old(store.records)[id].state) ==>
        (connector.outside, out) == ReconcileEnds(old(connector.outside), old(store.records)[id])
      ensures out.Returned? ==> store.records == old(store.records)[id := out.record]
      ensures out.Returned? ==> out.record.state in {Committed, OutcomeUnknown, Failed}
      ensures !out.Returned? ==> store.records == old(store.records)
    {
      hide Inv, Reaches, Next, OwnLog, Lists, ReconcileEnds, GovernanceGraph.Valid, ProtectedConnector.Lawful;
      ghost var start := world;
      ReachesRefl(Cfg(), start);
      BeginsReconcile(Cfg(), world, id);
      Step(start, BeginReconcile(id), world.(pc := Looking(id, Return)));
      out := ReconcileLooking(id, Return, start);
    }

    method ReconcileLooking(id: string, ghost after: Continuation, ghost start: State) returns (out: Outcome)
      requires InStep() && Inv(Cfg(), world) && Reaches(Cfg(), start, world) && world.pc == Looking(id, after)
      modifies this`world, store, connector
      ensures InStep() && Inv(Cfg(), world) && Reaches(Cfg(), start, world) && world.pc.Idle?
      ensures !(id in old(store.records) && Pending(old(store.records)[id].state)) ==>
        out == RaisedError(ActionStateInvalid) && store.records == old(store.records)
        && connector.outside == old(connector.outside)
      ensures id in old(store.records) && Pending(old(store.records)[id].state) ==>
        (connector.outside, out) == ReconcileEnds(old(connector.outside), old(store.records)[id])
      ensures out.Returned? ==>
        store.records == old(store.records)[id := out.record] && world.waiting == Released(old(world), after).waiting
      ensures out.Returned? ==> out.record.state in {Committed, OutcomeUnknown, Failed}
      ensures !out.Returned? ==> store.records == old(store.records) && world.waiting == old(world.waiting)
    {
      hide Inv, Reaches, Next, OwnLog, Lists, ReconcileEnds, GovernanceGraph.Valid, ProtectedConnector.Lawful;
      LookMoves(Cfg(), world);
      var found := store.Get(id);
      if found.None? || !Pending(found.value.state) {
        Step(start, Look, world.(pc := Idle));
        return RaisedError(ActionStateInvalid);
      }
      var record := found.value;
      RecordHasItsId(Cfg(), world, id);
      Step(start, Look, world.(pc := Asking(record, after)));
      out := ReconcileAsking(record, after, start);
    }

    /** The lookup and what follows from its answer. */
    method ReconcileAsking(record: ActionRecord, ghost after: Continuation, ghost start: State) returns (out: Outcome)
      requires InStep() && Inv(Cfg(), world) && Reaches(Cfg(), start, world) && world.pc == Asking(record, after)
      modifies this`world, store, connector
      ensures InStep() && Inv(Cfg(), world) && Reaches(Cfg(), start, world) && world.pc.Idle?
      ensures (connector.outside, out) == ReconcileEnds(old(connector.outside), record)
      ensures out.Returned? ==>
        store.records == old(store.records)[record.actionId := out.record] && world.waiting == Released(old(world), after).waiting
      ensures out.Returned? ==> out.record.state in {Committed, OutcomeUnknown, Failed}
      ensures !out.Returned? ==> store.records == old(store.records) && world.waiting == old(world.waiting)
    {
      hide Inv, Reaches, Next, OwnLog, Lists, ReconcileContract, GraphDigest, Applied, Rebuild, CommitEnds, GovernanceGraph.Valid,
           GovernanceGraph.View, ProtectedConnector.Lawful, Finished, Truthful;
      AskMoves(Cfg(), world);
      var call := connector.Reconcile(record.actionId);
      var result := ResultOf(call);
      ghost var moved := world.(landed := connector.outside.landed, inFlight := connector.outside.inFlight);
      ghost var ask := Ask(connector.outside.landed, connector.outside.inFlight, result);
      if result.None? {
        Step(start, ask, moved.(pc := Idle));
        if call.Dies? {
          return Died;
        }
        return if call.reply.RaisesGcp? then RaisedError(call.reply.code) else RaisedException;
      }
      if result.value.outcome == EffectNotCommitted && record.state == Committing {
        var rebuilt := Rebuild(record);
        if rebuilt.Err? {
          Step(start, ask, moved.(pc := Idle));
          return RaisedError(rebuilt.error);
        }
        Step(start, ask, moved.(pc := Calling(rebuilt.value, record, after)));
        out := CommitAndFinish(rebuilt.value, record, after, start);
        return;
      }
      var r := Applied'(record, result.value);
      Step(start, ask, moved.(pc := Saving(r, after)));
      AppliedKeepsId(gatewayId, GraphDigest(graph.View()), record, result.value);
      out := Finish(r, after, start);
    }

    method ResumeApproved(p: Proposal, node: string) returns (out: Outcome)
      requires Valid() && world.pc.Idle?
      modifies this`tape, this`world, store, connector
      ensures Valid() && world.pc.Idle? && world.waiting == old(world.waiting)
      ensures Reaches(Cfg(), old(world), world)
      ensures !(p.actionId in old(store.records) && old(store.records)[p.actionId].state == AwaitingApproval) ==>
        out == RaisedError(ActionStateInvalid) && store.records == old(store.records)
        && connector.outside == old(connector.outside)
      ensures p.actionId in old(store.records) && old(store.records)[p.actionId].state == AwaitingApproval ==>
        match approvalVerifier(old(tape), p)
        case Answers(Returns(true)) => ReplacedOutcome(old(store.records), old(world.log), old(connector.outside), old(tape) + 1, out, p, node)
        case other =>
          && store.records == old(store.records) && connector.outside == old(connector.outside)
          && out == Unapproved(other, old(store.records)[p.actionId])
    {
      hide Inv, Reaches, Next, OwnLog, Lists, ProposalDigest, GovernanceGraph.Valid, ProtectedConnector.Lawful, ReplacedOutcome;
      ghost var start := world;
      ReachesRefl(Cfg(), start);
      ResumeMoves(Cfg(), world, p, node);
      Step(start, BeginResume(p, node), world.(pc := Resuming(p, node)));
      var current := store.Get(p.actionId);
      CheckMoves(Cfg(), world);
      if current.None? || current.value.state != AwaitingApproval {
        Step(start, CheckWaiting, world.(pc := Idle));
        return RaisedError(ActionStateInvalid);
      }
      Step(start, CheckWaiting, world.(pc := Approving(p, node)));
      out := ResumeWaiting(p, node, current.value, start);
    }

    /** The approval, and what follows from it. */
    method ResumeWaiting(p: Proposal, node: string, waiting: ActionRecord, ghost start: State) returns (out: Outcome)
      requires InStep() && Inv(Cfg(), world) && Reaches(Cfg(), start, world) && world.pc == Approving(p, node)
      requires p.actionId in store.records && store.records[p.actionId] == waiting && waiting.state == AwaitingApproval
      modifies this`tape, this`world, store, connector
      ensures InStep() && Inv(Cfg(), world) && Reaches(Cfg(), start, world)
      ensures world.pc.Idle? && world.waiting == old(world.waiting)
      ensures match approvalVerifier(old(tape), p)
        case Answers(Returns(true)) => ReplacedOutcome(old(store.records), old(world.log), old(connector.outside), old(tape) + 1, out, p, node)
        case other =>
          store.records == old(store.records) && connector.outside == old(connector.outside) && out == Unapproved(other, waiting)
    {
      hide Inv, Reaches, Next, OwnLog, Lists, ProposalDigest, GovernanceGraph.Valid, ProtectedConnector.Lawful, ReplacedOutcome;
      var approval := approvalVerifier(tape, p);
      tape := tape + 1;
      ApproveMoves(Cfg(), world);
      if approval.Dies? {
        AbortMoves(Cfg(), world);
        Step(start, Abort, world.(pc := Idle));
        return Died;
      }
      if approval.reply != Returns(true) {
        Step(start, Approve(approval.reply), world.(pc := Idle));
        match approval.reply {
          case Returns(_) => return Returned(waiting);
          case RaisesGcp(code) => return RaisedError(code);
          case RaisesOther => return RaisedException;
        }
      }
      Step(start, Approve(approval.reply), world.(pc := Deleting(p, node)));
      out := DeleteAndExecute(p, node, start);
    }

    /** The approved record gives way to a fresh claim; the lock is free in between. */
    method DeleteAndExecute(p: Proposal, node: string, ghost start: State) returns (out: Outcome)
      requires InStep() && Inv(Cfg(), world) && Reaches(Cfg(), start, world) && world.pc == Deleting(p, node)
      requires p.actionId in store.records && store.records[p.actionId].state == AwaitingApproval
      modifies this`tape, this`world, store, connector
      ensures InStep() && Inv(Cfg(), world) && Reaches(Cfg(), start, world)
      ensures world.pc.Idle? && world.waiting == old(world.waiting)
      ensures ReplacedOutcome(old(store.records), old(world.log), old(connector.outside), old(tape), out, p, node)
    {
      hide Inv, Reaches, Next, OwnLog, Lists, ProposalDigest, GovernanceGraph.Valid, ProtectedConnector.Lawful, ClaimOutcome;
      DeleteMoves(Cfg(), world);
      var deleted := store.DeleteWaiting(p.actionId, AwaitingApproval);
      Step(start, Delete, world.(store := world.store - {p.actionId}, pc := Idle,
                                 waiting := world.waiting + multiset{ReEnter(p, node)}));
      EnterMoves(Cfg(), world, p, node);
      var digest := ProposalDigest(p);
      if digest.Err? {
        Step(start, EnterAgain(p, node), world.(pc := Idle, waiting := world.waiting - multiset{ReEnter(p, node)}));
        return RaisedError(digest.error);
      }
      Step(start, EnterAgain(p, node),
           world.(pc := Claiming(p, node), waiting := world.waiting - multiset{ReEnter(p, node)}));
      out := ExecuteClaiming(p, node, start);
    }

    /** One turn of the loop of `recover_pending`, which takes and releases the lock by itself. */
    method RecoverRecord(id: string, ghost ids: seq<string>, ghost start: State) returns (out: Outcome)
      requires InStep() && Inv(Cfg(), world) && Reaches(Cfg(), start, world) && world.pc.Idle?
      requires ids != [] && ids[0] == id && world.waiting == Snapped(start, ids).waiting
      modifies this`world, store, connector
      ensures InStep() && Inv(Cfg(), world) && Reaches(Cfg(), start, world) && world.pc.Idle?
      ensures id in old(store.records) && Pending(old(store.records)[id].state) ==>
        && (connector.outside, out) == ReconcileEnds(old(connector.outside), old(store.records)[id])
        && (out.Returned? ==> out.record.actionId == id)
      ensures out.Returned? ==>
        store.records == old(store.records)[id := out.record] && world.waiting == Snapped(start, ids[1..]).waiting
      ensures out.Returned? ==> out.record.state in {Committed, OutcomeUnknown, Failed}
      ensures !out.Returned? ==> store.records == old(store.records) && world.waiting == start.waiting
    {
      hide Inv, Reaches, Next, OwnLog, Lists, GovernanceGraph.Valid, ProtectedConnector.Lawful, Snapped, ReconcileEnds;
      if id in store.records {
        RecordHasItsId(Cfg(), world, id);
        EndsWithItsId(connector.outside, store.records[id]);
      }
      RecoverMoves(Cfg(), start, world, ids);
      Step(start, RecoverNext(ids), world.(pc := Looking(id, Recover(ids[1..])), waiting := start.waiting));
      out := ReconcileLooking(id, Recover(ids[1..]), start);
      RestWaits(start, ids[1..]);
    }

    lemma EndsWithItsId(o: Outside, record: ActionRecord)
      ensures var out := ReconcileEnds(o, record).1;
        out.Returned? ==> out.record.actionId == record.actionId && out.record.state in {Committed, OutcomeUnknown, Failed}
    {
      hide Rebuild, GraphDigest;
    }

    /** After the first `i` reconciliations: what remains is done from here on. */
    ghost predicate RecoverState(o: Outside, was: map<string, ActionRecord>, ids: seq<string>, i: nat,
                                 recovered: seq<ActionRecord>, here: Outside)
      reads graph
    {
      && i <= |ids| && (forall id :: id in ids ==> id in was)
      && var (later, rest, stopped) := RecoverEnds(here, was, ids[i..]);
         RecoverEnds(o, was, ids) == (later, recovered + rest, stopped)
    }

    lemma RecoverStart(o: Outside, was: map<string, ActionRecord>, ids: seq<string>)
      requires forall id :: id in ids ==> id in was
      ensures RecoverState(o, was, ids, 0, [], o)
    {
      hide ReconcileEnds;
      assert ids[0..] == ids;
      var (later, rest, stopped) := RecoverEnds(o, was, ids);
      assert [] + rest == rest;
    }

    lemma RecoverStep(o: Outside, was: map<string, ActionRecord>, ids: seq<string>, i: nat, recovered: seq<ActionRecord>,
                      here: Outside)
      requires RecoverState(o, was, ids, i, recovered, here) && i < |ids|
      ensures ids[i] in was
      ensures var (after, out) := ReconcileEnds(here, was[ids[i]]);
        if out.Returned? then RecoverState(o, was, ids, i + 1, recovered + [out.record], after)
        else RecoverEnds(o, was, ids) == (after, recovered, Some(out))
    {
      hide ReconcileEnds;
      assert ids[i..][0] == ids[i] && ids[i..][1..] == ids[i + 1..];
      var (after, out) := ReconcileEnds(here, was[ids[i]]);
      if out.Returned? {
        var (later, rest, stopped) := RecoverEnds(after, was, ids[i + 1..]);
        assert recovered + ([out.record] + rest) == (recovered + [out.record]) + rest;
      } else {
        assert recovered + [] == recovered;
      }
    }

    lemma RecoverDone(o: Outside, was: map<string, ActionRecord>, ids: seq<string>, recovered: seq<ActionRecord>, here: Outside)
      requires RecoverState(o, was, ids, |ids|, recovered, here)
      ensures (forall id :: id in ids ==> id in was) && RecoverEnds(o, was, ids) == (here, recovered, None)
    {
      hide ReconcileEnds;
      assert ids[|ids|..] == [];
      assert recovered + [] == recovered;
    }

    /** `recover_pending`: the pending records are reconciled one after the other, in the order `ids` in
        which the store lists them, up to the first whose reconciliation does not return. */
    method RecoverPending() returns (recovered: seq<ActionRecord>, out: Option<Outcome>, ghost ids: seq<string>)
      requires Valid() && world.pc.Idle?
      modifies this`world, store, connector
      ensures Valid() && world.pc.Idle? && world.waiting == old(world.waiting)
      ensures Reaches(Cfg(), old(world), world)
      ensures ids == PendingIds(old(store.order), old(store.records))
      ensures forall id :: id in ids <==> id in old(store.records) && Pending(old(store.records)[id].state)
      ensures (connector.outside, recovered, out) == RecoverEnds(old(connector.outside), old(store.records), ids)
      ensures store.records == Overwritten(old(store.records), recovered)
      ensures out.None? ==> |recovered| == |ids| && forall id :: id in store.records ==> store.records[id].state != Committing
    {
      hide Inv, Reaches, Next, OwnLog, Lists, GovernanceGraph.Valid, ProtectedConnector.Lawful, Snapped, Pending, IntentsAmong,
           ReconcileEnds, RecoverState, RecoverEnds, Distinct, Ahead, Overwritten, PendingIds;
      ghost var start := world;
      ghost var was, o := store.records, connector.outside;
      ReachesRefl(Cfg(), start);
      recovered, out := [], None;
      var listed := store.PendingCommits();
      ids := PendingIds(store.order, was);
      ListedIds(store.order, was, ids);
      SnapshotMoves(Cfg(), world, ids);
      Step(start, Snapshot(ids), Snapped(world, ids));
      assert ids[0..] == ids;
      IntentsStart(was, ids);
      RecoverStart(o, was, ids);
      NothingOverwritten(was, ids);
      for i := 0 to |listed|
        invariant InStep() && Inv(Cfg(), world) && Reaches(Cfg(), start, world) && world.pc.Idle?
        invariant world.waiting == Snapped(start, ids[i..]).waiting && |recovered| == i
        invariant store.records == Overwritten(was, recovered) && Ahead(was, store.records, ids[i..])
        invariant IntentsAmong(store.records, ids[i..])
        invariant RecoverState(o, was, ids, i, recovered, connector.outside)
      {
        assert ids[i..][0] == ids[i] && ids[i..][1..] == ids[i + 1..];
        ghost var before := store.records;
        RecoverStep(o, was, ids, i, recovered, connector.outside);
        NextAhead(was, before, ids[i..]);
        EndsWithItsId(connector.outside, was[ids[i]]);
        RecordHasItsId(Cfg(), start, ids[i]);
        var one := RecoverRecord(listed[i].actionId, ids[i..], start);
        if !one.Returned? {
          return recovered, Some(one), ids;
        }
        IntentsStep(before, ids[i..], one.record);
        StaysAhead(was, before, ids, i, one.record);
        recovered := recovered + [one.record];
        OverwrittenGrows(was, recovered);
      }
      SnappedEmpty(start, ids[|ids|..]);
      IntentsEnd(store.records, ids[|ids|..]);
      RecoverDone(o, was, ids, recovered, connector.outside);
    }
  }

  /** The store after these records were stored, in this order. */
  function Overwritten(was: map<string, ActionRecord>, records: seq<ActionRecord>): map<string, ActionRecord> {
    if records == [] then was
    else
      var last := records[|records| - 1];
      Overwritten(was, records[..|records| - 1])[last.actionId := last]
  }

  lemma OverwrittenGrows(was: map<string, ActionRecord>, records: seq<ActionRecord>)
    requires records != []
    ensures var last := records[|records| - 1];
      Overwritten(was, records) == Overwritten(was, records[..|records| - 1])[last.actionId := last]
  {
  }

  /** The records still to be reconciled are as they were listed. */
  ghost predicate Ahead(was: map<string, ActionRecord>, now: map<string, ActionRecord>, rest: seq<string>) {
    forall id :: id in rest ==> id in was && id in now && now[id] == was[id]
  }

  lemma NextAhead(was: map<string, ActionRecord>, now: map<string, ActionRecord>, rest: seq<string>)
    requires rest != [] && Ahead(was, now, rest)
    ensures rest[0] in was && rest[0] in now && now[rest[0]] == was[rest[0]]
  {
    assert rest[0] in rest;
  }

  lemma NothingOverwritten(was: map<string, ActionRecord>, ids: seq<string>)
    requires forall id :: id in ids ==> id in was
    ensures Overwritten(was, []) == was && Ahead(was, was, ids)
  {
  }

  lemma StaysAhead(was: map<string, ActionRecord>, now: map<string, ActionRecord>, ids: seq<string>, i: nat, r: ActionRecord)
    requires Distinct(ids) && i < |ids| && Ahead(was, now, ids[i..])
    ensures Ahead(was, now[ids[i] := r], ids[i + 1..])
  {
    forall id | id in ids[i + 1..] ensures id in was && id in now && id != ids[i] && now[id] == was[id] {
      var k :| 0 <= k < |ids| - (i + 1) && ids[i + 1..][k] == id;
      assert ids[i + 1 + k] == id && ids[i..][k + 1] == id;
    }
  }

  ghost predicate IntentsAmong(records: map<string, ActionRecord>, ids: seq<string>) {
    forall id :: id in records && records[id].state == Committing ==> id in ids
  }

  lemma IntentsStart(records: map<string, ActionRecord>, ids: seq<string>)
    requires forall id :: id in ids <==> id in records && Pending(records[id].state)
    ensures IntentsAmong(records, ids)
  {
  }

  lemma IntentsStep(records: map<string, ActionRecord>, ids: seq<string>, r: ActionRecord)
    requires ids != [] && IntentsAmong(records, ids) && r.state != Committing
    ensures IntentsAmong(records[ids[0] := r], ids[1..])
  {
    assert ids == [ids[0]] + ids[1..];
  }

  lemma IntentsEnd(records: map<string, ActionRecord>, ids: seq<string>)
    requires ids == [] && IntentsAmong(records, ids)
    ensures forall id :: id in records ==> records[id].state != Committing
  {
  }

  lemma RestWaits(start: State, rest: seq<string>)
    ensures Snapped(start, rest).waiting
         == if rest != [] then start.waiting + multiset{Recovering(rest)} else start.waiting
  {
  }

  lemma SnappedEmpty(start: State, rest: seq<string>)
    requires rest == []
    ensures Snapped(start, rest).waiting == start.waiting
  {
  }

  ghost function Snapped(s: State, ids: seq<string>): State {
    if ids == [] then s else s.(waiting := s.waiting + multiset{Recovering(ids)})
  }

  lemma ListedIds(order: seq<string>, records: map<string, ActionRecord>, ids: seq<string>)
    requires Lists(order, records) && ids == PendingIds(order, records)
    ensures Distinct(ids) && forall id :: id in ids <==> id in records && Pending(records[id].state)
  {
    PendingIdsAre(order, records);
  }

  lemma AppliedKeepsId(gatewayId: string, graphDigest: Digest, r: ActionRecord, result: ConnectorResult)
    ensures Applied(gatewayId, graphDigest, r, result).actionId == r.actionId
    ensures Applied(gatewayId, graphDigest, r, result).state in {Committed, OutcomeUnknown, Failed}
  {
  }

  lemma RecordHasItsId(cfg: Config, s: State, id: string)
    requires Inv(cfg, s) && id in s.store
    ensures s.store[id].actionId == id
  {
    hide RecordOk, WorldOk, Untouched, PcOk;
    assert CellOk(cfg, s, id);
  }

  lemma ResolutionReach(values: seq<PolicyEvaluation>, reach: ReachEstimate)
    ensures Resolve(values, reach, DEFAULT_CONFIG).reach == reach
  {
    hide Conflicts, PriorityEffect, MaxSeverity;
  }

  lemma FinishedKeepsId(cfg: Config, r: ActionRecord, a: Assessment)
    requires a.Ends?
    ensures FinishedBy(cfg, r, a).actionId == r.actionId
  {
  }

  // ------------------------------------------- the machine's moves, one by one

  lemma BeginsExecute(cfg: Config, s: State, p: Proposal, node: string)
    requires s.pc.Idle? && ProposalDigest(p).Ok?
    ensures Next(cfg, s, BeginExecute(p, node), s.(pc := Claiming(p, node)))
  {
  }

  lemma BeginsReconcile(cfg: Config, s: State, id: string)
    requires s.pc.Idle?
    ensures Next(cfg, s, BeginReconcile(id), s.(pc := Looking(id, Return)))
  {
  }

  lemma AbortMoves(cfg: Config, s: State)
    ensures Next(cfg, s, Abort, s.(pc := Idle))
  {
  }

  lemma ClaimMoves(cfg: Config, s: State, initial: ActionRecord)
    requires s.pc.Claiming? && ProposalDigest(s.pc.p).Ok? && initial == InitialRecord(s.pc.p, ProposalDigest(s.pc.p).value)
    ensures initial.actionId in s.store ==> Next(cfg, s, Claim, s.(pc := Idle))
    ensures initial.actionId !in s.store ==>
      Next(cfg, s, Claim, s.(store := s.store[initial.actionId := initial], pc := Assessing(s.pc.p, s.pc.node, initial)))
  {
  }

  lemma ConsultMoves(cfg: Config, s: State, c: Consultation)
    requires s.pc.Assessing? && c.proposal == s.pc.p && c.node == s.pc.node && ReachAnswer(cfg, c)
    ensures Assess(c).Ends? ==> Next(cfg, s, Consult(c),
      s.(log := s.log + [c], pc := Saving(FinishedBy(cfg, s.pc.record, Assess(c)), Return)))
    ensures Assess(c).Proceeds? ==> Next(cfg, s, Consult(c),
      s.(log := s.log + [c], pc := Intending(s.pc.p, ReservedRecord(s.pc.record, Assess(c)))))
  {
    hide Assess, ReachAnswer;
  }

  lemma IntendMoves(cfg: Config, s: State)
    requires s.pc.Intending?
    ensures Next(cfg, s, Intend, s.(store := s.store[s.pc.record.actionId := s.pc.record.(state := Committing)],
                                    pc := Hooking(s.pc.p, s.pc.record)))
  {
  }

  lemma HookMoves(cfg: Config, s: State, hook: Reply<()>)
    requires s.pc.Hooking?
    ensures hook.Returns? ==> Next(cfg, s, Hook(hook), s.(pc := Calling(s.pc.p, s.pc.record, Return)))
    ensures hook.RaisesGcp? ==>
      Next(cfg, s, Hook(hook), s.(pc := Saving(FinishedBy(cfg, s.pc.record, RejectedWith(hook.code)), Return)))
    ensures hook.RaisesOther? ==>
      Next(cfg, s, Hook(hook), s.(pc := Saving(FinishedBy(cfg, s.pc.record, INTERNAL_ERROR), Return)))
  {
    hide CodeText, GraphDigest;
  }

  lemma CommitMoves(cfg: Config, s: State)
    requires s.pc.Calling?
    ensures forall l, i, reply {:trigger Commit(l, i, reply)} ::
      CommitContract(s.landed, s.inFlight, Effect(s.pc.record.actionId, s.pc.p), l, i, reply) ==>
        Next(cfg, s, Commit(l, i, reply),
          s.(landed := l, inFlight := i, commitCalls := s.commitCalls + 1,
             pc := Saving(Applied(cfg.gatewayId, GraphDigest(cfg.graph), s.pc.record,
                                  if reply.Some? then reply.value else UNKNOWN_RESULT), s.pc.after)))
  {
    hide CommitContract, GraphDigest, Applied;
  }

  lemma SaveMoves(cfg: Config, s: State)
    requires s.pc.Saving?
    ensures Next(cfg, s, Save, Released(s.(store := s.store[s.pc.record.actionId := s.pc.record]), s.pc.after))
  {
  }

  lemma LookMoves(cfg: Config, s: State)
    requires s.pc.Looking?
    ensures Next(cfg, s, Look, if s.pc.id in s.store && Pending(s.store[s.pc.id].state)
                               then s.(pc := Asking(s.store[s.pc.id], s.pc.after)) else s.(pc := Idle))
  {
  }

  lemma AskMoves(cfg: Config, s: State)
    requires s.pc.Asking?
    ensures forall l, i, reply {:trigger Ask(l, i, reply)} ::
      ReconcileContract(s.landed, s.inFlight, s.pc.record.actionId, l, i, reply) ==>
        var moved := s.(landed := l, inFlight := i);
        && (reply.None? ==> Next(cfg, s, Ask(l, i, reply), moved.(pc := Idle)))
        && (reply.Some? && reply.value.outcome == EffectNotCommitted && s.pc.record.state == Committing ==>
              Next(cfg, s, Ask(l, i, reply),
                   moved.(pc := if Rebuild(s.pc.record).Ok? then Calling(Rebuild(s.pc.record).value, s.pc.record, s.pc.after)
                                else Idle)))
        && (reply.Some? && !(reply.value.outcome == EffectNotCommitted && s.pc.record.state == Committing) ==>
              Next(cfg, s, Ask(l, i, reply),
                   moved.(pc := Saving(Applied(cfg.gatewayId, GraphDigest(cfg.graph), s.pc.record, reply.value), s.pc.after))))
  {
    hide ReconcileContract, GraphDigest, Applied, Rebuild;
  }

  lemma ResumeMoves(cfg: Config, s: State, p: Proposal, node: string)
    requires s.pc.Idle?
    ensures Next(cfg, s, BeginResume(p, node), s.(pc := Resuming(p, node)))
  {
  }

  lemma CheckMoves(cfg: Config, s: State)
    requires s.pc.Resuming?
    ensures Next(cfg, s, CheckWaiting,
      s.(pc := if s.pc.p.actionId in s.store && s.store[s.pc.p.actionId].state == AwaitingApproval
               then Approving(s.pc.p, s.pc.node) else Idle))
  {
  }

  lemma ApproveMoves(cfg: Config, s: State)
    requires s.pc.Approving?
    ensures forall reply {:trigger Approve(reply)} ::
      Next(cfg, s, Approve(reply), s.(pc := if reply == Returns(true) then Deleting(s.pc.p, s.pc.node) else Idle))
  {
  }

  lemma DeleteMoves(cfg: Config, s: State)
    requires s.pc.Deleting? && s.pc.p.actionId in s.store && s.store[s.pc.p.actionId].state == AwaitingApproval
    ensures Next(cfg, s, Delete, s.(store := s.store - {s.pc.p.actionId}, pc := Idle,
                                    waiting := s.waiting + multiset{ReEnter(s.pc.p, s.pc.node)}))
  {
  }

  lemma EnterMoves(cfg: Config, s: State, p: Proposal, node: string)
    requires s.pc.Idle? && ReEnter(p, node) in s.waiting
    ensures Next(cfg, s, EnterAgain(p, node),
      s.(pc := if ProposalDigest(p).Ok? then Claiming(p, node) else Idle, waiting := s.waiting - multiset{ReEnter(p, node)}))
  {
  }

  lemma SnapshotMoves(cfg: Config, s: State, ids: seq<string>)
    requires Distinct(ids) && forall id :: id in ids <==> id in s.store && Pending(s.store[id].state)
    ensures Next(cfg, s, Snapshot(ids), Snapped(s, ids))
    ensures Snapped(s, ids) == s.(waiting := Snapped(s, ids).waiting)
  {
  }

  lemma RecoverMoves(cfg: Config, start: State, s: State, ids: seq<string>)
    requires s.pc.Idle? && ids != [] && s.waiting == Snapped(start, ids).waiting
    ensures Next(cfg, s, RecoverNext(ids), s.(pc := Looking(ids[0], Recover(ids[1..])), waiting := start.waiting))
  {
    assert s.waiting - multiset{Recovering(ids)} == start.waiting;
  }
}

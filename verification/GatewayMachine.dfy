/** The governed action gateway as a transition system. A step is what happens between two
    consecutive touches of the action store, the connector, or a callback. The store and the
    outside world are durable; everything else is lost in a crash. */
module GatewayMachine {
  import opened Prelude
  import opened Canonical
  import opened Topology
  import opened GraphDigests
  import opened Policies
  import opened Carm
  import opened Proposals
  import opened Records

  datatype Config = Config(gatewayId: string, graph: Graph, rnd: real -> real)

  /** A side effect requested from the connector. */
  datatype Effect = Effect(actionId: string, proposal: Proposal)

  /** What a callback does, unless it takes the process down. */
  datatype Reply<+T> = Returns(value: T) | RaisesGcp(code: ErrorCode) | RaisesOther

  /** One pass through the callbacks of `execute`. An answer that the code does not ask for is
      present but plays no part. */
  datatype Consultation = Consultation(
    proposal: Proposal,
    node: string,
    kernel: Reply<seq<string>>,
    policy: Reply<seq<PolicyEvaluation>>,
    reach: Result<ReachEstimate, ErrorCode>,
    approval: Reply<bool>)

  /** How an operation continues after it releases the gateway's lock. */
  datatype Continuation = Return | Recover(rest: seq<string>)

  /** The operation that holds the gateway's lock, and where it stands. */
  datatype Pc =
    | Idle
    | Claiming(p: Proposal, node: string)
    | Assessing(p: Proposal, node: string, record: ActionRecord)
    | Intending(p: Proposal, record: ActionRecord)
    | Hooking(p: Proposal, record: ActionRecord)
    | Calling(p: Proposal, record: ActionRecord, after: Continuation)
    | Saving(record: ActionRecord, after: Continuation)
    | Looking(id: string, after: Continuation)
    | Asking(record: ActionRecord, after: Continuation)
    | Resuming(p: Proposal, node: string)
    | Approving(p: Proposal, node: string)
    | Deleting(p: Proposal, node: string)

  /** An operation between two critical sections: `resume_approved` after the delete, and
      `recover_pending` between two records. */
  datatype Waiting = ReEnter(p: Proposal, node: string) | Recovering(ids: seq<string>)

  datatype State = State(
    store: map<string, ActionRecord>,
    landed: multiset<Effect>,
    inFlight: multiset<Effect>,
    commitCalls: nat,
    pc: Pc,
    waiting: multiset<Waiting>,
    log: seq<Consultation>)

  const INIT := State(map[], multiset{}, multiset{}, 0, Idle, multiset{}, [])

  // -------------------------------------------------- the connector contract

  /** No effect for this id has landed and none can still land. */
  ghost predicate Untouched(landed: multiset<Effect>, inFlight: multiset<Effect>, id: string) {
    forall e :: e in landed + inFlight ==> e.actionId != id
  }

  ghost predicate HasLanded(landed: multiset<Effect>, id: string) {
    exists e :: e in landed && e.actionId == id
  }

  /** The outside world moves on: requests in flight land or are dropped, landed effects stay. */
  ghost predicate Drifts(landed: multiset<Effect>, inFlight: multiset<Effect>,
                         landed': multiset<Effect>, inFlight': multiset<Effect>) {
    landed <= landed' && landed' + inFlight' <= landed + inFlight
  }

  /** Outcomes a connector may report: it never claims a commit that has not landed, and never
      denies one while the outcome is still open. */
  ghost predicate Truthful(outcome: ConnectorOutcome, landed: multiset<Effect>, inFlight: multiset<Effect>, id: string) {
    && (outcome == EffectCommitted ==> HasLanded(landed, id))
    && (outcome == EffectNotCommitted ==> Untouched(landed, inFlight, id))
  }

  /** `commit` adds at most one request, whether or not an earlier one exists: the connector need
      not be idempotent. An exception (`None`) says nothing. */
  ghost predicate CommitContract(landed: multiset<Effect>, inFlight: multiset<Effect>, e: Effect,
                                 landed': multiset<Effect>, inFlight': multiset<Effect>,
                                 reply: Option<ConnectorResult>) {
    && landed <= landed'
    && landed' + inFlight' <= landed + inFlight + multiset{e}
    && (reply.Some? ==> Truthful(reply.value.outcome, landed', inFlight', e.actionId))
  }

  /** `reconcile` is a side-effect-free, truthful lookup. */
  ghost predicate ReconcileContract(landed: multiset<Effect>, inFlight: multiset<Effect>, id: string,
                                    landed': multiset<Effect>, inFlight': multiset<Effect>,
                                    reply: Option<ConnectorResult>) {
    && Drifts(landed, inFlight, landed', inFlight')
    && (reply.Some? ==> Truthful(reply.value.outcome, landed', inFlight', id))
  }

  // -------------------------------------------------------------- assessment

  datatype Assessment =
    | Ends(state: ActionState, decision: RuntimeDecision, controls: seq<string>, reasons: seq<string>,
           snapshot: Option<Digest>)
    | Proceeds(decision: RuntimeDecision, controls: seq<string>, reasons: seq<string>, graphDigest: Digest,
               policyDigest: Digest)

  function CodeText(code: ErrorCode): string {
    match code
    case UnsupportedSemantics => "GCP_UNSUPPORTED_SEMANTICS"
    case InvalidSignature => "GCP_INVALID_SIGNATURE"
    case UnknownVerificationMethod => "GCP_UNKNOWN_VERIFICATION_METHOD"
    case ParentMismatch => "GCP_PARENT_MISMATCH"
    case InvalidDelegationProof => "GCP_INVALID_DELEGATION_PROOF"
    case LineageCycle => "GCP_LINEAGE_CYCLE"
    case AuthorityExpansion => "GCP_AUTHORITY_EXPANSION"
    case ObligationRemoved => "GCP_OBLIGATION_REMOVED"
    case ObligationModified => "GCP_OBLIGATION_MODIFIED"
    case BudgetOverallocated => "GCP_BUDGET_OVERALLOCATED"
    case BudgetUnitMismatch => "GCP_BUDGET_UNIT_MISMATCH"
    case AllocationConflict => "GCP_ALLOCATION_CONFLICT"
    case TemporalExpansion => "GCP_TEMPORAL_EXPANSION"
    case DelegationDepthExceeded => "GCP_DELEGATION_DEPTH_EXCEEDED"
    case WrongAudience => "GCP_WRONG_AUDIENCE"
    case ReplayDetected => "GCP_REPLAY_DETECTED"
    case Revoked => "GCP_REVOKED"
    case StatusUnavailable => "GCP_STATUS_UNAVAILABLE"
    case RevocationStatusStale => "GCP_REVOCATION_STATUS_STALE"
    case OfflineProfileDisallowed => "GCP_OFFLINE_PROFILE_DISALLOWED"
    case InvalidGovernanceGraph => "GCP_INVALID_GOVERNANCE_GRAPH"
    case ActionIdConflict => "GCP_ACTION_ID_CONFLICT"
    case ActionStateInvalid => "GCP_ACTION_STATE_INVALID"
    case UnauthorizedCapsuleIssuer => "GCP_UNAUTHORIZED_CAPSULE_ISSUER"
    case CapsuleNotYetValid => "GCP_CAPSULE_NOT_YET_VALID"
    case CapsuleExpired => "GCP_CAPSULE_EXPIRED"
    case ActionNotAuthorized => "GCP_ACTION_NOT_AUTHORIZED"
    case ObligationUnsatisfied => "GCP_OBLIGATION_UNSATISFIED"
    case TransportInvalid => "GCP_TRANSPORT_INVALID"
    case TransportSourceUntrusted => "GCP_TRANSPORT_SOURCE_UNTRUSTED"
    case TransportDestinationMismatch => "GCP_TRANSPORT_DESTINATION_MISMATCH"
    case TransportExpired => "GCP_TRANSPORT_EXPIRED"
    case TransportProposalMismatch => "GCP_TRANSPORT_PROPOSAL_MISMATCH"
    case OtherCode(name) => name
  }

  function RejectedWith(code: ErrorCode): Assessment {
    Ends(Rejected, BlockAction, [], [CodeText(code)], None)
  }

  const INTERNAL_ERROR := Ends(Failed, BlockAction, [], ["GCP_GATEWAY_INTERNAL_ERROR"], None)

  /** The reach in a consultation, once the code asks for it, is the graph's own answer for the
      conflict node. */
  ghost predicate ReachAnswer(cfg: Config, c: Consultation) {
    if !c.kernel.Returns? || !c.policy.Returns? then true
    else if c.node in cfg.graph.nodes
    then c.reach.Ok? && IsReach(cfg.graph, cfg.rnd, c.node, c.reach.value)
         && c.reach.value.graphDigest == GraphDigest(cfg.graph)
    else c.reach == Err(InvalidGovernanceGraph)
  }

  /** The `try` block of `execute`, up to the commit intent. */
  function Assess(c: Consultation): Assessment {
    match c.kernel
    case RaisesGcp(code) => RejectedWith(code)
    case RaisesOther => INTERNAL_ERROR
    case Returns(kernelControls) =>
      match c.policy
      case RaisesGcp(code) => RejectedWith(code)
      case RaisesOther => INTERNAL_ERROR
      case Returns(evaluations) =>
        match c.reach
        case Err(code) => RejectedWith(code)
        case Ok(reach) => AssessResolution(kernelControls, evaluations, reach, c.approval)
  }

  function AssessResolution(kernelControls: seq<string>, evaluations: seq<PolicyEvaluation>, reach: ReachEstimate,
                            approval: Reply<bool>): Assessment
  {
    var resolution := Resolve(evaluations, reach, DEFAULT_CONFIG);
    var controls := Controls(kernelControls, evaluations);
    var policyDigest := PolicyDigest(evaluations);
    if resolution.decision == BlockAction then
      Ends(Rejected, resolution.decision, controls, resolution.reasonCodes, Some(policyDigest))
    else if resolution.decision == ApprovalRequired && approval.RaisesGcp? then RejectedWith(approval.code)
    else if resolution.decision == ApprovalRequired && approval.RaisesOther? then INTERNAL_ERROR
    else if resolution.decision == ApprovalRequired && !approval.value then
      Ends(AwaitingApproval, resolution.decision, controls, resolution.reasonCodes, Some(policyDigest))
    else
      Proceeds(resolution.decision, controls, resolution.reasonCodes, resolution.reach.graphDigest, policyDigest)
  }

  /** The record `execute` holds once it has decided to act, in state RESERVED. */
  function ReservedRecord(record: ActionRecord, a: Assessment): ActionRecord
    requires a.Proceeds?
  {
    record.(state := Reserved, decision := Some(a.decision), controls := a.controls, reasonCodes := a.reasons,
            graphDigest := Some(a.graphDigest), policyDigest := Some(a.policyDigest))
  }

  function FinishedBy(cfg: Config, record: ActionRecord, a: Assessment): ActionRecord
    requires a.Ends?
  {
    Finished(cfg.gatewayId, GraphDigest(cfg.graph), record, a.state, a.decision, a.controls, a.reasons,
             a.snapshot, None)
  }

  // ------------------------------------------------------------------- steps

  datatype Event =
    | BeginExecute(p: Proposal, node: string)
    | Claim
    | Consult(c: Consultation)
    | Intend
    | Hook(hook: Reply<()>)
    | Commit(landed': multiset<Effect>, inFlight': multiset<Effect>, committed: Option<ConnectorResult>)
    | Save
    | BeginReconcile(id: string)
    | Look
    | Ask(landed': multiset<Effect>, inFlight': multiset<Effect>, answer: Option<ConnectorResult>)
    | BeginResume(p: Proposal, node: string)
    | CheckWaiting
    | Approve(approval: Reply<bool>)
    | Delete
    | EnterAgain(p: Proposal, node: string)
    | Snapshot(ids: seq<string>)
    | RecoverNext(ids: seq<string>)
    | Drift(landed': multiset<Effect>, inFlight': multiset<Effect>)
    | Abort
    | Crash

  /** The operation in the critical section leaves it normally. */
  function Released(s: State, after: Continuation): State {
    s.(pc := Idle,
       waiting := if after.Recover? && after.rest != [] then s.waiting + multiset{Recovering(after.rest)} else s.waiting)
  }

  /** The operation in the critical section raises: its thread ends. */
  function Raised(s: State): State {
    s.(pc := Idle)
  }

  ghost predicate ClaimStep(s: State, s': State) {
    s.pc.Claiming? && ProposalDigest(s.pc.p).Ok? &&
    var initial := InitialRecord(s.pc.p, ProposalDigest(s.pc.p).value);
    if initial.actionId in s.store then s' == s.(pc := Idle)
    else s' == s.(store := s.store[initial.actionId := initial], pc := Assessing(s.pc.p, s.pc.node, initial))
  }

  ghost predicate ConsultStep(cfg: Config, s: State, c: Consultation, s': State) {
    s.pc.Assessing? && c.proposal == s.pc.p && c.node == s.pc.node && ReachAnswer(cfg, c) &&
    var a := Assess(c);
    s' == s.(log := s.log + [c],
             pc := if a.Ends? then Saving(FinishedBy(cfg, s.pc.record, a), Return)
                   else Intending(s.pc.p, ReservedRecord(s.pc.record, a)))
  }

  ghost predicate IntendStep(s: State, s': State) {
    s.pc.Intending? &&
    s' == s.(store := s.store[s.pc.record.actionId := s.pc.record.(state := Committing)],
             pc := Hooking(s.pc.p, s.pc.record))
  }

  ghost predicate HookStep(cfg: Config, s: State, hook: Reply<()>, s': State) {
    s.pc.Hooking? &&
    s' == s.(pc :=
      match hook
      case Returns(_) => Calling(s.pc.p, s.pc.record, Return)
      case RaisesGcp(code) => Saving(FinishedBy(cfg, s.pc.record, RejectedWith(code)), Return)
      case RaisesOther => Saving(FinishedBy(cfg, s.pc.record, INTERNAL_ERROR), Return))
  }

  ghost predicate CommitStep(cfg: Config, s: State, landed': multiset<Effect>, inFlight': multiset<Effect>,
                             reply: Option<ConnectorResult>, s': State) {
    s.pc.Calling? &&
    CommitContract(s.landed, s.inFlight, Effect(s.pc.record.actionId, s.pc.p), landed', inFlight', reply) &&
    var result := if reply.Some? then reply.value else UNKNOWN_RESULT;
    s' == s.(landed := landed', inFlight := inFlight', commitCalls := s.commitCalls + 1,
             pc := Saving(Applied(cfg.gatewayId, GraphDigest(cfg.graph), s.pc.record, result), s.pc.after))
  }

  ghost predicate SaveStep(s: State, s': State) {
    s.pc.Saving? &&
    s' == Released(s.(store := s.store[s.pc.record.actionId := s.pc.record]), s.pc.after)
  }

  ghost predicate LookStep(s: State, s': State) {
    s.pc.Looking? &&
    s' == if s.pc.id in s.store && Pending(s.store[s.pc.id].state)
          then s.(pc := Asking(s.store[s.pc.id], s.pc.after)) else Raised(s)
  }

  ghost predicate AskStep(cfg: Config, s: State, landed': multiset<Effect>, inFlight': multiset<Effect>,
                          reply: Option<ConnectorResult>, s': State) {
    s.pc.Asking? &&
    ReconcileContract(s.landed, s.inFlight, s.pc.record.actionId, landed', inFlight', reply) &&
    var moved := s.(landed := landed', inFlight := inFlight');
    s' == if reply.None? then Raised(moved)
          else if reply.value.outcome == EffectNotCommitted && s.pc.record.state == Committing then
            (match Rebuild(s.pc.record)
             case Ok(p) => moved.(pc := Calling(p, s.pc.record, s.pc.after))
             case Err(_) => Raised(moved))
          else
            moved.(pc := Saving(Applied(cfg.gatewayId, GraphDigest(cfg.graph), s.pc.record, reply.value), s.pc.after))
  }

  ghost predicate CheckWaitingStep(s: State, s': State) {
    s.pc.Resuming? &&
    s' == if s.pc.p.actionId in s.store && s.store[s.pc.p.actionId].state == AwaitingApproval
          then s.(pc := Approving(s.pc.p, s.pc.node)) else Raised(s)
  }

  ghost predicate ApproveStep(s: State, approval: Reply<bool>, s': State) {
    s.pc.Approving? &&
    s' == if approval == Returns(true) then s.(pc := Deleting(s.pc.p, s.pc.node)) else s.(pc := Idle)
  }

  ghost predicate DeleteStep(s: State, s': State) {
    s.pc.Deleting? &&
    s' == if s.pc.p.actionId in s.store && s.store[s.pc.p.actionId].state == AwaitingApproval
          then s.(store := s.store - {s.pc.p.actionId}, pc := Idle,
                  waiting := s.waiting + multiset{ReEnter(s.pc.p, s.pc.node)})
          else Raised(s)
  }

  ghost predicate SnapshotStep(s: State, ids: seq<string>, s': State) {
    && Distinct(ids)
    && (forall id :: id in ids <==> id in s.store && Pending(s.store[id].state))
    && s' == if ids == [] then s else s.(waiting := s.waiting + multiset{Recovering(ids)})
  }

  ghost predicate RecoverNextStep(s: State, ids: seq<string>, s': State) {
    && s.pc.Idle? && ids != [] && Recovering(ids) in s.waiting
    && s' == s.(pc := Looking(ids[0], Recover(ids[1..])), waiting := s.waiting - multiset{Recovering(ids)})
  }

  ghost predicate Next(cfg: Config, s: State, ev: Event, s': State) {
    match ev
    case BeginExecute(p, node) =>
      s.pc.Idle? && s' == if ProposalDigest(p).Ok? then s.(pc := Claiming(p, node)) else s
    case Claim => ClaimStep(s, s')
    case Consult(c) => ConsultStep(cfg, s, c, s')
    case Intend => IntendStep(s, s')
    case Hook(hook) => HookStep(cfg, s, hook, s')
    case Commit(landed', inFlight', reply) => CommitStep(cfg, s, landed', inFlight', reply, s')
    case Save => SaveStep(s, s')
    case BeginReconcile(id) => s.pc.Idle? && s' == s.(pc := Looking(id, Return))
    case Look => LookStep(s, s')
    case Ask(landed', inFlight', reply) => AskStep(cfg, s, landed', inFlight', reply, s')
    case BeginResume(p, node) => s.pc.Idle? && s' == s.(pc := Resuming(p, node))
    case CheckWaiting => CheckWaitingStep(s, s')
    case Approve(approval) => ApproveStep(s, approval, s')
    case Delete => DeleteStep(s, s')
    case EnterAgain(p, node) =>
      && s.pc.Idle? && ReEnter(p, node) in s.waiting
      && s' == s.(pc := if ProposalDigest(p).Ok? then Claiming(p, node) else Idle,
                  waiting := s.waiting - multiset{ReEnter(p, node)})
    case Snapshot(ids) => SnapshotStep(s, ids, s')
    case RecoverNext(ids) => RecoverNextStep(s, ids, s')
    case Drift(landed', inFlight') =>
      Drifts(s.landed, s.inFlight, landed', inFlight') && s' == s.(landed := landed', inFlight := inFlight')
    case Abort => s' == Raised(s)
    case Crash => s' == s.(pc := Idle, waiting := multiset{})
  }

  /** `states` is an execution with these events. */
  ghost predicate Run(cfg: Config, states: seq<State>, events: seq<Event>) {
    && |states| == |events| + 1
    && forall i :: 0 <= i < |events| ==> Next(cfg, states[i], events[i], states[i + 1])
  }

  ghost predicate Leads(cfg: Config, s: State, states: seq<State>, events: seq<Event>, t: State) {
    Run(cfg, states, events) && states[0] == s && states[|states| - 1] == t
  }

  /** Some execution leads from `s` to `t`. */
  ghost predicate Reaches(cfg: Config, s: State, t: State) {
    exists states, events :: Leads(cfg, s, states, events, t)
  }

  ghost predicate Reachable(cfg: Config, s: State) {
    Reaches(cfg, INIT, s)
  }
}

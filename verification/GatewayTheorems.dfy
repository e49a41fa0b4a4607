/** What holds of the gateway in every reachable state and along every execution. */
module GatewayTheorems {
  import opened Prelude
  import opened GraphDigests
  import opened Proposals
  import opened Records
  import opened GatewayMachine
  import opened GatewayInvariant
  import opened GatewaySteps

  // -------------------------------------------------------- reachable states

  /** Whatever interleaving of operations, crashes and restarts led here, and even if the connector
      is not idempotent, an action id has at most one effect, landed or still in flight. */
  lemma AtMostOnce(cfg: Config, s: State)
    requires Reachable(cfg, s)
    ensures forall id :: AtMostOne(s.landed, s.inFlight, id)
  {
    hide RecordOk, Reachable, PcOk;
    ReachableInv(cfg, s);
    forall id ensures AtMostOne(s.landed, s.inFlight, id) {
      assert CellOk(cfg, s, id);
    }
  }

  /** The record of an action and the outside world agree. */
  lemma RecordAndWorldAgree(cfg: Config, s: State, id: string)
    requires Reachable(cfg, s)
    ensures id !in s.store || NoEffectState(s.store[id].state) ==> Untouched(s.landed, s.inFlight, id)
    ensures id in s.store && s.store[id].state == Committed ==>
      exists p :: Bound(s.store[id], p) && s.landed[Effect(id, p)] == 1
    ensures id in s.store ==> s.store[id].state !in {Proposed, Authorized, Reserved}
    ensures id in s.store ==> ReceiptMatches(s.store[id])
  {
    hide Reachable, PcOk, Bound, ReceiptMatches, Justified;
    ReachableInv(cfg, s);
    assert CellOk(cfg, s, id);
    if id in s.store && s.store[id].state == Committed {
      LandedOnce(s.store[id], s.landed, s.inFlight);
    }
  }

  lemma LandedOnce(r: ActionRecord, landed: multiset<Effect>, inFlight: multiset<Effect>)
    requires WorldOk(r, landed, inFlight) && HasLanded(landed, r.actionId)
    ensures exists p :: Bound(r, p) && landed[Effect(r.actionId, p)] == 1
  {
    hide Bound;
    var e :| e in landed && e.actionId == r.actionId;
    assert e in landed + inFlight && (landed + inFlight)[e] == 1;
    assert e == Effect(r.actionId, e.proposal);
    assert landed[e] == 1;
  }

  /** Every effect, also one made during recovery, is for a proposal that was verified, not blocked,
      and approved where approval was due; its record holds that proposal and that evidence. */
  lemma EffectsAreAuthorised(cfg: Config, s: State, e: Effect)
    requires Reachable(cfg, s) && e in s.landed + s.inFlight
    ensures e.actionId in s.store && Bound(s.store[e.actionId], e.proposal)
    ensures exists c :: c in s.log && Authorises(cfg, c, e.proposal) && Evidence(cfg, c, s.store[e.actionId])
  {
    hide Reachable, PcOk, Bound, Authorises, Evidence, AtMostOne;
    ReachableInv(cfg, s);
    assert CellOk(cfg, s, e.actionId);
    var r := s.store[e.actionId];
    EffectOwner(cfg, s.log, r, e.proposal);
    var c :| c in s.log && Justifies(cfg, c, r, e.proposal);
  }

  /** The proposal of a stored record can always be rebuilt, and it is the one the record is bound to. */
  lemma RebuildNeverFails(cfg: Config, s: State, id: string)
    requires Reachable(cfg, s) && id in s.store
    ensures Rebuild(s.store[id]).Ok? && Bound(s.store[id], Rebuild(s.store[id]).value)
  {
    hide Reachable, PcOk, Bound, Rebuild, WorldOk, Justified;
    ReachableInv(cfg, s);
    assert CellOk(cfg, s, id);
    var p :| Bound(s.store[id], p);
    RebuildReturnsBound(s.store[id], p);
  }

  /** `put` is only ever called for an id that has been claimed. */
  lemma PutsOnlyClaimedIds(cfg: Config, s: State)
    requires Reachable(cfg, s) && (s.pc.Intending? || s.pc.Saving?)
    ensures s.pc.record.actionId in s.store
  {
    hide Reachable, CellOk, SaveOk, Bound;
    ReachableInv(cfg, s);
    assert PcOk(cfg, s);
    if s.pc.Saving? {
      SavingContinues(cfg, s, s.pc.record);
    }
  }

  lemma SavingContinues(cfg: Config, s: State, r: ActionRecord)
    requires SaveOk(cfg, s, r)
    ensures r.actionId in s.store
  {
  }

  // ----------------------------------------------------------------- history

  /** From the commit intent on, a record's proposal is fixed. */
  predicate Fixed(state: ActionState) {
    EffectState(state) || Terminal(state)
  }

  /** How a record may have changed between two states of an execution. */
  ghost predicate Evolves(s: State, t: State, id: string) {
    id in s.store && Fixed(s.store[id].state) ==>
      && id in t.store && Fixed(t.store[id].state) && SameBinding(s.store[id], t.store[id])
      && (Terminal(s.store[id].state) ==> t.store[id] == s.store[id])
  }

  /** The four ways a step touches the store. */
  ghost predicate StoreMove(s: State, t: State) {
    || t.store == s.store
    || (s.pc.Claiming? && s.pc.p.actionId !in s.store && s.pc.p.actionId in t.store
        && t.store[s.pc.p.actionId].state == Validating
        && t.store == s.store[s.pc.p.actionId := t.store[s.pc.p.actionId]])
    || (s.pc.Intending? && Continues(s, s.pc.record) && s.store[s.pc.record.actionId].state == Validating
        && t.store == s.store[s.pc.record.actionId := s.pc.record.(state := Committing)])
    || (s.pc.Saving? && Continues(s, s.pc.record) && SavePermitted(s.store[s.pc.record.actionId].state, s.pc.record.state)
        && t.store == s.store[s.pc.record.actionId := s.pc.record])
    || (s.pc.Deleting? && s.pc.p.actionId in s.store && s.store[s.pc.p.actionId].state == AwaitingApproval
        && t.store == s.store - {s.pc.p.actionId})
  }

  predicate SavePermitted(was: ActionState, now: ActionState) {
    && !Terminal(was) && was != AwaitingApproval
    && (now == AwaitingApproval ==> was == Validating)
    && (now == AwaitingApproval || now == OutcomeUnknown || Terminal(now))
  }

  lemma SaveIsPermitted(cfg: Config, s: State, r: ActionRecord)
    requires SaveOk(cfg, s, r)
    ensures Continues(s, r) && SavePermitted(s.store[r.actionId].state, r.state)
  {
    hide Bound, Justified, Untouched, HasLanded, ReceiptMatches;
  }

  lemma NextMovesStore(cfg: Config, s: State, ev: Event, t: State)
    requires PcOk(cfg, s) && Next(cfg, s, ev, t)
    ensures StoreMove(s, t)
  {
    hide Bound, Justified, Untouched, HasLanded, SaveOk, ReconcileContract, CommitContract, CommitStep, AskStep,
         ConsultStep, HookStep, ProposalDigest, Drifts;
    match ev
    case Save => SaveIsPermitted(cfg, s, s.pc.record);
    case Consult(c) => ConsultTarget(cfg, s, c, t);
    case Hook(hook) => HookTarget(cfg, s, hook, t);
    case Commit(l, i, reply) => CommitTarget(cfg, s, l, i, reply, t);
    case Ask(l, i, reply) => AskTarget(cfg, s, l, i, reply, t);
    case _ =>
  }

  lemma NextEvolves(cfg: Config, s: State, ev: Event, t: State, id: string)
    requires Inv(cfg, s) && Next(cfg, s, ev, t)
    ensures Evolves(s, t, id)
  {
    hide Next, PcOk, CellOk;
    NextMovesStore(cfg, s, ev, t);
  }

  lemma {:induction false} RunEvolves(cfg: Config, states: seq<State>, events: seq<Event>, id: string)
    requires Run(cfg, states, events) && Inv(cfg, states[0])
    ensures Evolves(states[0], states[|events|], id)
    decreases |events|
  {
    hide Next, Inv;
    if events != [] {
      var n := |events| - 1;
      RunKeeps(cfg, states, events);
      RunEvolves(cfg, states[..n + 1], events[..n], id);
      NextEvolves(cfg, states[n], events[n], states[n + 1], id);
    }
  }

  /** COMMITTED, REJECTED and FAILED records never change again; from COMMITTING on, the proposal
      and its digest never change. */
  lemma SettledForever(cfg: Config, s: State, t: State, id: string)
    requires Reachable(cfg, s) && Reaches(cfg, s, t) && id in s.store
    ensures Terminal(s.store[id].state) ==> id in t.store && t.store[id] == s.store[id]
    ensures Fixed(s.store[id].state) ==>
      id in t.store && Fixed(t.store[id].state) && SameBinding(s.store[id], t.store[id])
  {
    hide Inv, Reachable, Run;
    ReachableInv(cfg, s);
    var states, events :| Leads(cfg, s, states, events, t);
    LeadsFacts(cfg, s, states, events, t);
    RunEvolves(cfg, states, events, id);
  }

  lemma LeadsFacts(cfg: Config, s: State, states: seq<State>, events: seq<Event>, t: State)
    requires Leads(cfg, s, states, events, t)
    ensures Run(cfg, states, events) && |states| == |events| + 1 && states[0] == s && states[|events|] == t
  {
  }

  // ---------------------------------------------------------- stranded claims

  predicate Working(pc: Pc, id: string) {
    (pc.Assessing? || pc.Intending? || pc.Saving?) && pc.record.actionId == id
  }

  ghost predicate Stranded(s: State, id: string) {
    id in s.store && s.store[id].state == Validating && !Working(s.pc, id)
  }

  /** A step starts work on an id only by claiming it or by continuing work on it. */
  lemma NextWorks(cfg: Config, s: State, ev: Event, t: State, id: string)
    requires PcOk(cfg, s) && Next(cfg, s, ev, t)
    requires Working(t.pc, id) && id in s.store && s.store[id].state == Validating
    ensures Working(s.pc, id)
  {
    hide Bound, Justified, Untouched, HasLanded, SaveOk, ReconcileContract, CommitContract, CommitStep, AskStep,
         ConsultStep, HookStep, ProposalDigest, Drifts;
    match ev
    case Consult(c) => ConsultTarget(cfg, s, c, t);
    case Hook(hook) => HookTarget(cfg, s, hook, t);
    case Commit(l, i, reply) => CommitTarget(cfg, s, l, i, reply, t);
    case Ask(l, i, reply) => AskTarget(cfg, s, l, i, reply, t);
    case _ =>
  }

  lemma NextStranded(cfg: Config, s: State, ev: Event, t: State, id: string)
    requires Inv(cfg, s) && Next(cfg, s, ev, t) && Stranded(s, id)
    ensures Stranded(t, id) && t.store[id] == s.store[id]
  {
    hide Next, PcOk, CellOk;
    NextMovesStore(cfg, s, ev, t);
    if Working(t.pc, id) {
      NextWorks(cfg, s, ev, t, id);
    }
  }

  lemma ConsultTarget(cfg: Config, s: State, c: Consultation, t: State)
    requires ConsultStep(cfg, s, c, t)
    ensures s.pc.Assessing? && t.store == s.store && (t.pc.Intending? || t.pc.Saving?)
    ensures t.pc.record.actionId == s.pc.record.actionId
  {
    hide Assess, GraphDigest, ReachAnswer;
  }

  lemma HookTarget(cfg: Config, s: State, hook: Reply<()>, t: State)
    requires HookStep(cfg, s, hook, t)
    ensures s.pc.Hooking? && t.store == s.store && (t.pc.Calling? || t.pc.Saving?)
    ensures t.pc.record.actionId == s.pc.record.actionId
  {
    hide GraphDigest, CodeText;
  }

  lemma CommitTarget(cfg: Config, s: State, l: multiset<Effect>, i: multiset<Effect>, reply: Option<ConnectorResult>, t: State)
    requires CommitStep(cfg, s, l, i, reply, t)
    ensures s.pc.Calling? && t.store == s.store && t.pc.Saving? && t.pc.record.actionId == s.pc.record.actionId
  {
    hide GraphDigest, CommitContract;
  }

  lemma AskTarget(cfg: Config, s: State, l: multiset<Effect>, i: multiset<Effect>, reply: Option<ConnectorResult>, t: State)
    requires AskStep(cfg, s, l, i, reply, t)
    ensures s.pc.Asking? && t.store == s.store
    ensures t.pc.Idle? || ((t.pc.Calling? || t.pc.Saving?) && t.pc.record.actionId == s.pc.record.actionId)
  {
    hide GraphDigest, ReconcileContract, Rebuild;
  }

  lemma {:induction false} RunStranded(cfg: Config, states: seq<State>, events: seq<Event>, id: string)
    requires Run(cfg, states, events) && Inv(cfg, states[0]) && Stranded(states[0], id)
    ensures Stranded(states[|events|], id) && states[|events|].store[id] == states[0].store[id]
    decreases |events|
  {
    hide Next, Inv;
    if events != [] {
      var n := |events| - 1;
      RunKeeps(cfg, states, events);
      RunStranded(cfg, states[..n + 1], events[..n], id);
      NextStranded(cfg, states[n], events[n], states[n + 1], id);
    }
  }

  /** A claim that a crash leaves in VALIDATING stays there for ever: no operation picks it up. */
  lemma StrandedForever(cfg: Config, s: State, t: State, id: string)
    requires Reachable(cfg, s) && Reaches(cfg, s, t)
    requires s.pc.Idle? && id in s.store && s.store[id].state == Validating
    ensures id in t.store && t.store[id] == s.store[id]
  {
    hide Inv, Reachable, Run;
    ReachableInv(cfg, s);
    var states, events :| Leads(cfg, s, states, events, t);
    LeadsFacts(cfg, s, states, events, t);
    RunStranded(cfg, states, events, id);
  }

  // -------------------------------------------------- rebinding while waiting

  lemma ResumeDeletes(cfg: Config, s: State, q: Proposal, node: string) returns (t: State)
    requires s.pc.Idle? && q.actionId in s.store && s.store[q.actionId].state == AwaitingApproval
    ensures Reaches(cfg, s, t) && t.pc.Idle? && q.actionId !in t.store && ReEnter(q, node) in t.waiting
  {
    hide Reaches, CommitStep, AskStep, ConsultStep, HookStep, SaveStep, LookStep, IntendStep, SnapshotStep,
         RecoverNextStep, Drifts, ClaimStep;
    var s1 := s.(pc := Resuming(q, node));
    var s2 := s1.(pc := Approving(q, node));
    var s3 := s2.(pc := Deleting(q, node));
    t := s3.(store := s.store - {q.actionId}, pc := Idle, waiting := s.waiting + multiset{ReEnter(q, node)});
    ReachesRefl(cfg, s);
    ReachesStep(cfg, s, s, BeginResume(q, node), s1);
    ReachesStep(cfg, s, s1, CheckWaiting, s2);
    ReachesStep(cfg, s, s2, Approve(Returns(true)), s3);
    ReachesStep(cfg, s, s3, Delete, t);
  }

  /** `resume_approved` accepts another proposal for a waiting id: the claim that follows the delete
      binds the id to it. */
  lemma ResumeRebinds(cfg: Config, s: State, q: Proposal, node: string) returns (t: State)
    requires s.pc.Idle? && q.actionId in s.store && s.store[q.actionId].state == AwaitingApproval
    requires ProposalDigest(q).Ok?
    ensures Reaches(cfg, s, t) && q.actionId in t.store && Bound(t.store[q.actionId], q)
  {
    hide ProposalDigest, ProposalDocument, Reaches, Bound, CommitStep, AskStep, ConsultStep, HookStep, SaveStep,
         LookStep, IntendStep, SnapshotStep, RecoverNextStep, Drifts, DeleteStep, CheckWaitingStep, ApproveStep;
    var gap := ResumeDeletes(cfg, s, q, node);
    var entered := gap.(pc := Claiming(q, node), waiting := gap.waiting - multiset{ReEnter(q, node)});
    var r := InitialRecord(q, ProposalDigest(q).value);
    t := entered.(store := entered.store[q.actionId := r], pc := Assessing(q, node, r));
    ReachesStep(cfg, s, gap, EnterAgain(q, node), entered);
    ReachesStep(cfg, s, entered, Claim, t);
    InitialIsBound(q);
  }

  /** An id keeps its proposal for good exactly when it is not waiting for approval. */
  lemma BindingFixedIff(cfg: Config, s: State, id: string)
    requires Reachable(cfg, s) && s.pc.Idle? && id in s.store
    ensures s.store[id].state != AwaitingApproval <==>
      forall t :: Reaches(cfg, s, t) && id in t.store ==> SameBinding(s.store[id], t.store[id])
  {
    hide Reachable, Reaches, Bound, ProposalDigest, Rebuild, SameBinding;
    RecordAndWorldAgree(cfg, s, id);
    if s.store[id].state != AwaitingApproval {
      forall t | Reaches(cfg, s, t) && id in t.store ensures SameBinding(s.store[id], t.store[id]) {
        if s.store[id].state == Validating {
          StrandedForever(cfg, s, t, id);
          BindingReflexive(s.store[id]);
        } else {
          StatesSplit(s.store[id].state);
          SettledForever(cfg, s, t, id);
        }
      }
    } else {
      RebuildNeverFails(cfg, s, id);
      var p := Rebuild(s.store[id]).value;
      CellId(cfg, s, id, p);
      var q := p.(resource := p.resource + "#");
      assert |q.resource| == |p.resource| + 1;
      OtherResource(s.store[id], p, q);
      var t := ResumeRebinds(cfg, s, q, "");
      if SameBinding(s.store[id], t.store[id]) {
        BoundTransfers(s.store[id], t.store[id]);
        BoundUnique(t.store[id], p, q);
        assert false;
      }
    }
  }

  lemma BindingReflexive(r: ActionRecord)
    ensures SameBinding(r, r)
  {
  }

  lemma StatesSplit(state: ActionState)
    ensures state !in {Proposed, Authorized, Reserved, Validating, AwaitingApproval} ==> Fixed(state)
  {
  }

  lemma CellId(cfg: Config, s: State, id: string, p: Proposal)
    requires Reachable(cfg, s) && id in s.store && Bound(s.store[id], p)
    ensures p.actionId == id
  {
    hide Reachable, PcOk, RecordOk, WorldOk;
    ReachableInv(cfg, s);
    assert CellOk(cfg, s, id);
  }

  lemma OtherResource(r: ActionRecord, p: Proposal, q: Proposal)
    requires Bound(r, p) && q == p.(resource := q.resource)
    ensures ProposalDigest(q).Ok? && q.actionId == p.actionId
  {
    hide ProposalDigest, ProposalDocument;
    DigestExistsIff(p);
    DigestExistsIff(q);
  }
}

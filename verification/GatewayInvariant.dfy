/** The inductive invariant of the gateway: each action id's record, the effects made for it, and
    what the operation in the critical section relies on. */
module GatewayInvariant {
  import opened Prelude
  import opened GraphDigests
  import opened Carm
  import opened Proposals
  import opened Records
  import opened GatewayMachine

  // ---------------------------------------------------------- authorisation

  /** In this consultation the kernel verified the proposal, CARM did not block it, and approval was
      given if CARM asked for it. */
  ghost predicate Authorises(cfg: Config, c: Consultation, p: Proposal) {
    && c.proposal == p
    && c.kernel.Returns? && c.policy.Returns? && c.reach.Ok?
    && ReachAnswer(cfg, c)
    && var decision := Resolve(c.policy.value, c.reach.value, DEFAULT_CONFIG).decision;
       && decision != BlockAction
       && (decision == ApprovalRequired ==> c.approval == Returns(true))
  }

  /** The record carries the decision evidence of this consultation. */
  ghost predicate Evidence(cfg: Config, c: Consultation, r: ActionRecord)
    requires c.kernel.Returns? && c.policy.Returns? && c.reach.Ok?
  {
    && r.decision == Some(Resolve(c.policy.value, c.reach.value, DEFAULT_CONFIG).decision)
    && r.controls == Controls(c.kernel.value, c.policy.value)
    && r.policyDigest == Some(PolicyDigest(c.policy.value))
    && r.graphDigest == Some(GraphDigest(cfg.graph))
    && ReasonsFollow(Resolve(c.policy.value, c.reach.value, DEFAULT_CONFIG).reasonCodes, r)
  }

  /** The reason codes are the resolution's until an unknown outcome replaces them, and a later commit keeps
      what it finds. */
  ghost predicate ReasonsFollow(resolved: seq<string>, r: ActionRecord) {
    if r.state == OutcomeUnknown then r.reasonCodes == UNKNOWN_REASONS
    else r.reasonCodes == resolved || (r.state == Committed && r.reasonCodes == UNKNOWN_REASONS)
  }

  ghost predicate Justifies(cfg: Config, c: Consultation, r: ActionRecord, p: Proposal) {
    Authorises(cfg, c, p) && Evidence(cfg, c, r)
  }

  ghost predicate Justified(cfg: Config, log: seq<Consultation>, r: ActionRecord, p: Proposal) {
    exists c :: c in log && Justifies(cfg, c, r, p)
  }

  // -------------------------------------------------------------- per record

  predicate Terminal(state: ActionState) {
    state == Committed || state == Rejected || state == Failed
  }

  /** States in which no effect exists or can still land. */
  predicate NoEffectState(state: ActionState) {
    state == Validating || state == AwaitingApproval || state == Rejected || state == Failed
  }

  predicate EffectState(state: ActionState) {
    state == Committing || state == OutcomeUnknown || state == Committed
  }

  /** Two records carry the same proposal. */
  predicate SameBinding(a: ActionRecord, b: ActionRecord) {
    a.actionId == b.actionId && a.proposalDigest == b.proposalDigest && a.proposal == b.proposal
  }

  ghost predicate RecordOk(cfg: Config, log: seq<Consultation>, r: ActionRecord) {
    && (NoEffectState(r.state) || EffectState(r.state))
    && (exists p :: Bound(r, p))
    && ReceiptMatches(r)
    && (r.receipt.None? <==> r.state == Validating || r.state == Committing)
    && (EffectState(r.state) ==> exists p :: Bound(r, p) && Justified(cfg, log, r, p))
  }

  ghost predicate AtMostOne(landed: multiset<Effect>, inFlight: multiset<Effect>, id: string) {
    forall e, f :: e in landed + inFlight && f in landed + inFlight && e.actionId == id && f.actionId == id ==>
      e == f && (landed + inFlight)[e] == 1
  }

  /** What exists outside for an id agrees with its record. */
  ghost predicate WorldOk(r: ActionRecord, landed: multiset<Effect>, inFlight: multiset<Effect>) {
    && AtMostOne(landed, inFlight, r.actionId)
    && (forall e :: e in landed + inFlight && e.actionId == r.actionId ==> Bound(r, e.proposal))
    && (NoEffectState(r.state) ==> Untouched(landed, inFlight, r.actionId))
    && (r.state == Committed ==> HasLanded(landed, r.actionId))
  }

  ghost predicate CellOk(cfg: Config, s: State, id: string) {
    if id in s.store then
      s.store[id].actionId == id && RecordOk(cfg, s.log, s.store[id]) && WorldOk(s.store[id], s.landed, s.inFlight)
    else Untouched(s.landed, s.inFlight, id)
  }

  // ------------------------------------------------- the critical section

  /** The stored record is the one `r` was derived from. */
  ghost predicate Continues(s: State, r: ActionRecord) {
    r.actionId in s.store && SameBinding(s.store[r.actionId], r)
  }

  /** Storing `r` is a legal move of the record it replaces. */
  ghost predicate SaveOk(cfg: Config, s: State, r: ActionRecord) {
    && Continues(s, r)
    && RecordOk(cfg, s.log, r)
    && var was := s.store[r.actionId].state;
       && !Terminal(was) && was != AwaitingApproval
       && r.state != Validating && r.state != Committing
       && (r.state == AwaitingApproval ==> was == Validating)
       && (NoEffectState(r.state) ==> Untouched(s.landed, s.inFlight, r.actionId))
       && (r.state == OutcomeUnknown ==> Pending(was))
       && (r.state == Committed ==> Pending(was) && HasLanded(s.landed, r.actionId))
       && (r.state == Committed ==> r.reasonCodes == s.store[r.actionId].reasonCodes)
  }

  ghost predicate PcOk(cfg: Config, s: State) {
    match s.pc
    case Claiming(p, _) => ProposalDigest(p).Ok?
    case Assessing(p, _, r) =>
      Bound(r, p) && r.actionId in s.store && s.store[r.actionId] == r && r.state == Validating
    case Intending(p, r) =>
      Bound(r, p) && Continues(s, r) && s.store[r.actionId].state == Validating
      && r.state == Reserved && r.receipt.None? && Justified(cfg, s.log, r, p)
    case Hooking(p, r) =>
      Bound(r, p) && Continues(s, r) && s.store[r.actionId].state == Committing && s.store[r.actionId].reasonCodes == r.reasonCodes
      && Untouched(s.landed, s.inFlight, r.actionId) && Justified(cfg, s.log, r, p)
    case Calling(p, r, _) =>
      Bound(r, p) && Continues(s, r) && s.store[r.actionId].state == Committing && s.store[r.actionId].reasonCodes == r.reasonCodes
      && Untouched(s.landed, s.inFlight, r.actionId) && Justified(cfg, s.log, r, p)
    case Saving(r, _) => SaveOk(cfg, s, r)
    case Asking(r, _) => r.actionId in s.store && s.store[r.actionId] == r && Pending(r.state)
    case _ => true
  }

  ghost predicate Inv(cfg: Config, s: State) {
    (forall id :: CellOk(cfg, s, id)) && PcOk(cfg, s)
  }

  // ------------------------------------------------------------ small facts

  lemma BoundUnique(r: ActionRecord, p: Proposal, q: Proposal)
    requires Bound(r, p) && Bound(r, q)
    ensures p == q
  {
    hide Bound;
    RebuildReturnsBound(r, p);
  }

  lemma BoundTransfers(a: ActionRecord, b: ActionRecord)
    requires SameBinding(a, b)
    ensures forall p :: Bound(a, p) <==> Bound(b, p)
  {
  }

  lemma JustifiedGrows(cfg: Config, log: seq<Consultation>, c: Consultation, r: ActionRecord, p: Proposal)
    requires Justified(cfg, log, r, p)
    ensures Justified(cfg, log + [c], r, p)
  {
    hide Justifies;
    var d :| d in log && Justifies(cfg, d, r, p);
    assert d in log + [c];
  }

  lemma RecordOkGrows(cfg: Config, log: seq<Consultation>, c: Consultation, r: ActionRecord)
    requires RecordOk(cfg, log, r)
    ensures RecordOk(cfg, log + [c], r)
  {
    hide Justified, Bound, ReceiptMatches;
    if EffectState(r.state) {
      var p :| Bound(r, p) && Justified(cfg, log, r, p);
      JustifiedGrows(cfg, log, c, r, p);
    }
  }

  /** A record that differs only in fields outside the evidence keeps its justification. */
  lemma JustifiedTransfers(cfg: Config, log: seq<Consultation>, a: ActionRecord, b: ActionRecord, p: Proposal)
    requires Justified(cfg, log, a, p)
    requires b.decision == a.decision && b.controls == a.controls
    requires b.policyDigest == a.policyDigest && b.graphDigest == a.graphDigest
    requires if b.state == OutcomeUnknown then b.reasonCodes == UNKNOWN_REASONS
             else b.reasonCodes == a.reasonCodes && (b.state == Committed || a.state == Reserved)
    ensures Justified(cfg, log, b, p)
  {
    var c :| c in log && Justifies(cfg, c, a, p);
    assert Justifies(cfg, c, b, p);
  }

  lemma JustifiedHasDecision(cfg: Config, log: seq<Consultation>, r: ActionRecord, p: Proposal)
    requires Justified(cfg, log, r, p)
    ensures r.decision.Some? && r.graphDigest == Some(GraphDigest(cfg.graph))
  {
    var c :| c in log && Justifies(cfg, c, r, p);
  }

  // ------------------------------------------------- how the outside moves

  lemma DriftKeepsWorld(r: ActionRecord, landed: multiset<Effect>, inFlight: multiset<Effect>,
                        landed': multiset<Effect>, inFlight': multiset<Effect>)
    requires WorldOk(r, landed, inFlight) && Drifts(landed, inFlight, landed', inFlight')
    ensures WorldOk(r, landed', inFlight')
  {
    hide Bound;
    forall e | e in landed' + inFlight' ensures e in landed + inFlight && (landed' + inFlight')[e] <= (landed + inFlight)[e] {
    }
    if HasLanded(landed, r.actionId) {
      LandedStays(landed, landed', r.actionId);
    }
  }

  lemma LandedStays(landed: multiset<Effect>, landed': multiset<Effect>, id: string)
    requires HasLanded(landed, id) && landed <= landed'
    ensures HasLanded(landed', id)
  {
    var e :| e in landed && e.actionId == id;
    assert e in landed';
  }

  lemma DriftKeepsUntouched(landed: multiset<Effect>, inFlight: multiset<Effect>,
                            landed': multiset<Effect>, inFlight': multiset<Effect>, id: string)
    requires Untouched(landed, inFlight, id) && Drifts(landed, inFlight, landed', inFlight')
    ensures Untouched(landed', inFlight', id)
  {
    forall e | e in landed' + inFlight' ensures e in landed + inFlight {
    }
  }

  /** A commit request for one id is invisible to every other id. */
  lemma CommitKeepsOthers(landed: multiset<Effect>, inFlight: multiset<Effect>, e: Effect,
                          landed': multiset<Effect>, inFlight': multiset<Effect>, reply: Option<ConnectorResult>,
                          f: Effect)
    requires CommitContract(landed, inFlight, e, landed', inFlight', reply)
    requires f.actionId != e.actionId && f in landed' + inFlight'
    ensures f in landed + inFlight && (landed' + inFlight')[f] <= (landed + inFlight)[f]
  {
    assert f != e;
    assert (landed' + inFlight')[f] <= (landed + inFlight + multiset{e})[f] == (landed + inFlight)[f];
  }

  lemma CommitKeepsOtherWorld(r: ActionRecord, landed: multiset<Effect>, inFlight: multiset<Effect>, e: Effect,
                              landed': multiset<Effect>, inFlight': multiset<Effect>, reply: Option<ConnectorResult>)
    requires CommitContract(landed, inFlight, e, landed', inFlight', reply)
    requires r.actionId != e.actionId && WorldOk(r, landed, inFlight)
    ensures WorldOk(r, landed', inFlight')
  {
    hide Bound, CommitContract;
    forall f | f in landed' + inFlight' && f.actionId == r.actionId
      ensures f in landed + inFlight && (landed' + inFlight')[f] <= (landed + inFlight)[f]
    {
      CommitKeepsOthers(landed, inFlight, e, landed', inFlight', reply, f);
    }
    CommitGrowsLanded(landed, inFlight, e, landed', inFlight', reply);
    if HasLanded(landed, r.actionId) {
      LandedStays(landed, landed', r.actionId);
    }
  }

  lemma CommitGrowsLanded(landed: multiset<Effect>, inFlight: multiset<Effect>, e: Effect,
                          landed': multiset<Effect>, inFlight': multiset<Effect>, reply: Option<ConnectorResult>)
    requires CommitContract(landed, inFlight, e, landed', inFlight', reply)
    ensures landed <= landed'
  {
  }

  lemma CommitKeepsOtherUntouched(landed: multiset<Effect>, inFlight: multiset<Effect>, e: Effect,
                                  landed': multiset<Effect>, inFlight': multiset<Effect>,
                                  reply: Option<ConnectorResult>, id: string)
    requires CommitContract(landed, inFlight, e, landed', inFlight', reply)
    requires id != e.actionId && Untouched(landed, inFlight, id)
    ensures Untouched(landed', inFlight', id)
  {
    hide CommitContract;
    forall f | f in landed' + inFlight' ensures f.actionId != id {
      if f.actionId == id {
        CommitKeepsOthers(landed, inFlight, e, landed', inFlight', reply, f);
        assert false;
      }
    }
  }

  /** The first request for an untouched id is the only one there can be. */
  lemma CommitMakesOne(landed: multiset<Effect>, inFlight: multiset<Effect>, e: Effect,
                       landed': multiset<Effect>, inFlight': multiset<Effect>, reply: Option<ConnectorResult>)
    requires CommitContract(landed, inFlight, e, landed', inFlight', reply)
    requires Untouched(landed, inFlight, e.actionId)
    ensures AtMostOne(landed', inFlight', e.actionId)
    ensures forall f :: f in landed' + inFlight' && f.actionId == e.actionId ==> f == e
  {
    assert e !in landed + inFlight;
    forall f | f in landed' + inFlight' && f.actionId == e.actionId
      ensures f == e && (landed' + inFlight')[f] == 1
    {
      assert f !in landed + inFlight;
      assert (landed' + inFlight')[f] <= (landed + inFlight + multiset{e})[f];
      assert (landed + inFlight)[f] == 0;
    }
  }
}

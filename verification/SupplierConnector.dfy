/** The in-memory supplier connector: it meets the connector contract, and with it every commit call
    creates a supplier. */
module SupplierConnector {
  import opened Prelude
  import opened Canonical
  import opened Proposals
  import opened Records
  import opened GraphDigests
  import opened GatewayMachine
  import opened GatewayInvariant
  import opened GatewaySteps

  datatype Supplier = Supplier(supplierId: string, parametersDigest: string)

  function SupplierOf(p: Proposal): Supplier {
    Supplier(p.resource, p.parametersDigest)
  }

  function SupplierDocument(s: Supplier): Value {
    Dict(map["supplier_id" := Str(s.supplierId), "parameters_digest" := Str(s.parametersDigest)])
  }

  lemma SupplierDigestExists(s: Supplier)
    ensures ArtifactDigest(SupplierDocument(s)).Ok?
  {
    hide Canonicalize;
    var m := SupplierDocument(s).members;
    assert m - {"proof"} == m;
    assert forall k :: k in m ==> Accepted(m[k]);
    DigestIdentifiesContent(SupplierDocument(s), Null);
  }

  /** What the connector answers about an existing supplier, now and at every later time. */
  function SuccessFor(id: string, s: Supplier): ConnectorResult {
    SupplierDigestExists(s);
    ConnectorResult(EffectCommitted, Some("urn:gcp:supplier-result:" + id), Some(ArtifactDigest(SupplierDocument(s)).value))
  }

  /** The landed effects after a commit request: an id that has one keeps it. */
  ghost function Recorded(landed: multiset<Effect>, e: Effect): multiset<Effect> {
    if HasLanded(landed, e.actionId) then landed else landed + multiset{e}
  }

  datatype Answer = Replies(result: ConnectorResult) | Crashes

  ghost predicate Mirrored(suppliers: map<string, Supplier>, landed: multiset<Effect>) {
    && (forall e :: e in landed ==> e.actionId in suppliers && suppliers[e.actionId] == Supplier(e.proposal.resource, e.proposal.parametersDigest))
    && (forall id :: id in suppliers ==> HasLanded(landed, id))
  }

  lemma MirroredGrows(suppliers: map<string, Supplier>, landed: multiset<Effect>, e: Effect)
    requires Mirrored(suppliers, landed)
    ensures e.actionId in suppliers <==> HasLanded(landed, e.actionId)
    ensures e.actionId in suppliers ==> Mirrored(suppliers, Recorded(landed, e))
    ensures e.actionId !in suppliers ==> Mirrored(suppliers[e.actionId := SupplierOf(e.proposal)], Recorded(landed, e))
  {
    var landed' := landed + multiset{e};
    assert e in landed';
    forall id | HasLanded(landed, id) || id == e.actionId ensures HasLanded(landed', id) {
      if HasLanded(landed, id) {
        LandedStays(landed, landed', id);
      }
    }
  }

  lemma RecordedIsLawful(landed: multiset<Effect>, e: Effect, reply: Option<ConnectorResult>)
    requires reply.Some? ==> reply.value.outcome != EffectNotCommitted
    ensures CommitContract(landed, multiset{}, e, Recorded(landed, e), multiset{}, reply)
  {
    assert e in landed + multiset{e};
    assert HasLanded(Recorded(landed, e), e.actionId);
  }

  class InMemorySupplierConnector {
    var suppliers: map<string, Supplier>
    var commitCalls: nat
    var loseNextResponse: bool
    var crashAfterNextCommit: bool

    constructor ()
      ensures Mirrors(multiset{}) && commitCalls == 0
      ensures !loseNextResponse && !crashAfterNextCommit
    {
      suppliers, commitCalls, loseNextResponse, crashAfterNextCommit := map[], 0, false, false;
    }

    /** The suppliers are exactly the landed effects. */
    ghost predicate Mirrors(landed: multiset<Effect>)
      reads this
    {
      Mirrored(suppliers, landed)
    }

    method Commit(actionId: string, proposal: Proposal, ghost landed: multiset<Effect>) returns (answer: Answer)
      requires Mirrors(landed)
      modifies this
      ensures Mirrors(Recorded(landed, Effect(actionId, proposal)))
      ensures CommitContract(landed, multiset{}, Effect(actionId, proposal),
                             Recorded(landed, Effect(actionId, proposal)), multiset{},
                             if answer.Replies? then Some(answer.result) else None)
      ensures commitCalls == old(commitCalls) + 1
      ensures actionId in suppliers && suppliers == old(suppliers)[actionId := suppliers[actionId]]
      ensures suppliers[actionId] == if actionId in old(suppliers) then old(suppliers)[actionId] else SupplierOf(proposal)
      ensures answer ==
        if old(loseNextResponse) then Replies(SuccessFor(actionId, suppliers[actionId]).(outcome := EffectUnknown))
        else if old(crashAfterNextCommit) then Crashes
        else Replies(SuccessFor(actionId, suppliers[actionId]))
      ensures !loseNextResponse
      ensures crashAfterNextCommit == (old(crashAfterNextCommit) && old(loseNextResponse))
    {
      hide SuccessFor, CommitContract, Mirrored, Recorded;
      ghost var e := Effect(actionId, proposal);
      MirroredGrows(suppliers, landed, e);
      commitCalls := commitCalls + 1;
      if actionId !in suppliers {
        suppliers := suppliers[actionId := SupplierOf(proposal)];
      }
      var result := SuccessFor(actionId, suppliers[actionId]);
      SuccessIsCommitted(actionId, suppliers[actionId]);
      if loseNextResponse {
        loseNextResponse := false;
        answer := Replies(result.(outcome := EffectUnknown));
      } else if crashAfterNextCommit {
        crashAfterNextCommit := false;
        answer := Crashes;
      } else {
        answer := Replies(result);
      }
      RecordedIsLawful(landed, e, if answer.Replies? then Some(answer.result) else None);
    }

    method Reconcile(actionId: string, ghost landed: multiset<Effect>) returns (result: ConnectorResult)
      requires Mirrors(landed)
      ensures ReconcileContract(landed, multiset{}, actionId, landed, multiset{}, Some(result))
      ensures actionId in suppliers ==> result == SuccessFor(actionId, suppliers[actionId])
      ensures actionId !in suppliers ==> result == ConnectorResult(EffectNotCommitted, None, None)
    {
      if actionId !in suppliers {
        return ConnectorResult(EffectNotCommitted, None, None);
      }
      SuccessIsCommitted(actionId, suppliers[actionId]);
      return SuccessFor(actionId, suppliers[actionId]);
    }
  }

  lemma SuccessIsCommitted(id: string, s: Supplier)
    ensures SuccessFor(id, s).outcome == EffectCommitted
  {
  }

  /** The answer names the action and pins the supplier. */
  lemma SuccessIdentifies(id: string, s: Supplier, id': string, s': Supplier)
    ensures SuccessFor(id, s) == SuccessFor(id', s') <==> id == id' && s == s'
  {
    hide ArtifactDigest;
    var prefix := "urn:gcp:supplier-result:";
    if SuccessFor(id, s) == SuccessFor(id', s') {
      assert (prefix + id)[|prefix|..] == id && (prefix + id')[|prefix|..] == id';
      SupplierDigestExists(s);
      SupplierDigestExists(s');
      var a, b := SupplierDocument(s), SupplierDocument(s');
      DigestIdentifiesContent(a, b);
      assert a.members - {"proof"} == a.members && b.members - {"proof"} == b.members;
      assert a.members["supplier_id"] == b.members["supplier_id"];
      assert a.members["parameters_digest"] == b.members["parameters_digest"];
    }
  }

  // ------------------------------------------------------------ commit calls

  /** The outside moves only as this connector moves it. */
  ghost predicate InMemoryEvent(s: State, ev: Event) {
    match ev
    case Commit(landed', inFlight', _) =>
      s.pc.Calling? && inFlight' == multiset{} && landed' == Recorded(s.landed, Effect(s.pc.record.actionId, s.pc.p))
    case Ask(landed', inFlight', _) => landed' == s.landed && inFlight' == s.inFlight
    case Drift(landed', inFlight') => landed' == s.landed && inFlight' == s.inFlight
    case _ => true
  }

  ghost function Ids(landed: multiset<Effect>): set<string> {
    set e | e in landed :: e.actionId
  }

  ghost predicate CallsCounted(s: State) {
    s.inFlight == multiset{} && s.commitCalls == |Ids(s.landed)|
  }

  lemma UntouchedNotLanded(landed: multiset<Effect>, inFlight: multiset<Effect>, id: string)
    requires Untouched(landed, inFlight, id)
    ensures !HasLanded(landed, id)
  {
    forall e | e in landed ensures e.actionId != id {
      assert e in landed + inFlight;
    }
  }

  lemma CommitIsCounted(cfg: Config, s: State, landed': multiset<Effect>, inFlight': multiset<Effect>,
                        reply: Option<ConnectorResult>, t: State)
    requires PcOk(cfg, s) && CallsCounted(s) && CommitStep(cfg, s, landed', inFlight', reply, t)
    requires InMemoryEvent(s, Commit(landed', inFlight', reply))
    ensures CallsCounted(t)
  {
    hide Bound, Justified, CommitContract, HasLanded, GraphDigest, Applied;
    var e := Effect(s.pc.record.actionId, s.pc.p);
    UntouchedNotLanded(s.landed, s.inFlight, e.actionId);
    assert landed' == s.landed + multiset{e};
    assert Ids(landed') == Ids(s.landed) + {e.actionId};
    assert e.actionId !in Ids(s.landed);
  }

  lemma StepIsCounted(cfg: Config, s: State, ev: Event, t: State)
    requires PcOk(cfg, s) && CallsCounted(s) && Next(cfg, s, ev, t) && InMemoryEvent(s, ev)
    ensures CallsCounted(t)
  {
    hide PcOk, CommitStep, CommitContract, ReconcileContract, Rebuild, Ids, ProposalDigest, ReachAnswer, Assess;
    match ev
    case Commit(l, i, reply) => CommitIsCounted(cfg, s, l, i, reply, t);
    case _ =>
  }

  /** With the in-memory connector the number of commit calls is the number of suppliers, in every
      state of every execution: no call is ever spent on a supplier that exists. */
  lemma {:induction false} CallsEqualSuppliers(cfg: Config, states: seq<State>, events: seq<Event>, n: nat)
    requires Run(cfg, states, events) && states[0] == INIT && n <= |events|
    requires forall i :: 0 <= i < |events| ==> InMemoryEvent(states[i], events[i])
    ensures states[n].commitCalls == |Ids(states[n].landed)| && states[n].inFlight == multiset{}
    decreases n
  {
    hide Next, Inv, CellOk;
    if n == 0 {
      assert Ids(multiset{}) == {};
    } else {
      CallsEqualSuppliers(cfg, states, events, n - 1);
      InitInv(cfg);
      RunKeeps(cfg, states, events);
      InvPc(cfg, states[n - 1]);
      assert Next(cfg, states[n - 1], events[n - 1], states[n - 1 + 1]);
      StepIsCounted(cfg, states[n - 1], events[n - 1], states[n]);
    }
  }

  lemma InvPc(cfg: Config, s: State)
    requires Inv(cfg, s)
    ensures PcOk(cfg, s)
  {
  }

  /** The connector's own tables then have that size. */
  lemma MirroredSize(c: InMemorySupplierConnector, landed: multiset<Effect>)
    requires c.Mirrors(landed)
    ensures |c.suppliers| == |Ids(landed)|
  {
    forall id ensures id in c.suppliers.Keys <==> id in Ids(landed) {
    }
    assert c.suppliers.Keys == Ids(landed);
    assert |c.suppliers.Keys| == |c.suppliers|;
  }
}

/** The gateway cannot tell the SQLite store from the in-memory one. */
module GatewayOverStores {
  import opened Proposals
  import opened Records
  import opened ActionStores
  import opened GatewayMachine
  import opened GatewayInvariant
  import opened GatewaySteps
  import opened GatewayTheorems

  /** The store call a step makes. */
  function CallsOf(s: State, ev: Event): seq<StoreCall> {
    match ev
    case Claim =>
      if s.pc.Claiming? && ProposalDigest(s.pc.p).Ok?
      then [CallClaim(InitialRecord(s.pc.p, ProposalDigest(s.pc.p).value))] else []
    case Intend => if s.pc.Intending? then [CallPut(s.pc.record.(state := Committing))] else []
    case Save => if s.pc.Saving? then [CallPut(s.pc.record)] else []
    case Look => if s.pc.Looking? then [CallGet(s.pc.id)] else []
    case CheckWaiting => if s.pc.Resuming? then [CallGet(s.pc.p.actionId)] else []
    case Delete => if s.pc.Deleting? then [CallDelete(s.pc.p.actionId, AwaitingApproval)] else []
    case Snapshot(_) => [CallPending]
    case _ => []
  }

  function RunCalls(states: seq<State>, events: seq<Event>, n: nat): seq<StoreCall>
    requires n <= |events| && n <= |states|
  {
    if n == 0 then [] else RunCalls(states, events, n - 1) + CallsOf(states[n - 1], events[n - 1])
  }

  lemma BoundStorable(r: ActionRecord, p: Proposal)
    requires Bound(r, p)
    ensures Survives(r)
  {
    hide Values, RecordOf, ProposalDigest;
    DigestExistsIff(p);
    BoundRecordsSurvive(r, p);
    assert "action_id" in ProposalDocument(p).members;
  }

  /** A step changes the store as its call does, and its call is one both stores handle alike. */
  lemma StepIsCall(cfg: Config, s: State, ev: Event, t: State)
    requires Inv(cfg, s) && Next(cfg, s, ev, t)
    ensures forall i :: 0 <= i < |CallsOf(s, ev)| ==> CallStorable(CallsOf(s, ev)[i])
    ensures PutsPresent(s.store, CallsOf(s, ev)) && MemRun(s.store, CallsOf(s, ev)).0 == t.store
  {
    hide Next, CallStorable, MemStep, Inv, CallsOf;
    AtMostOneCall(s, ev);
    if CallsOf(s, ev) == [] {
      NoCallKeepsStore(cfg, s, ev, t);
    } else {
      CallHasOne(s, ev);
      CallIsSound(cfg, s, ev, t);
      CallMovesStore(cfg, s, ev, t);
    }
  }

  lemma AtMostOneCall(s: State, ev: Event)
    ensures |CallsOf(s, ev)| <= 1
  {
    hide ProposalDigest;
  }

  lemma NoCallKeepsStore(cfg: Config, s: State, ev: Event, t: State)
    requires Inv(cfg, s) && Next(cfg, s, ev, t) && CallsOf(s, ev) == []
    ensures t.store == s.store
  {
    hide CellOk, PcOk, SaveOk, CommitStep, AskStep, ConsultStep, HookStep, Drifts, ProposalDigest;
    match ev
    case Consult(c) => ConsultTarget(cfg, s, c, t);
    case Hook(hook) => HookTarget(cfg, s, hook, t);
    case Commit(l, i, reply) => CommitTarget(cfg, s, l, i, reply, t);
    case Ask(l, i, reply) => AskTarget(cfg, s, l, i, reply, t);
    case _ =>
  }

  lemma CallIsSound(cfg: Config, s: State, ev: Event, t: State)
    requires Inv(cfg, s) && Next(cfg, s, ev, t) && CallsOf(s, ev) != []
    ensures CallStorable(CallsOf(s, ev)[0])
    ensures CallsOf(s, ev)[0].CallPut? ==> CallsOf(s, ev)[0].record.actionId in s.store
  {
    hide CellOk, PcOk, Survives, SaveOk, ProposalDigest, Next;
    assert PcOk(cfg, s) && CellsOk(cfg, s);
    match ev
    case Claim =>
      InitialIsBound(s.pc.p);
      BoundStorable(InitialRecord(s.pc.p, ProposalDigest(s.pc.p).value), s.pc.p);
    case Intend => IntendingFacts(cfg, s);
    case Save => SavingFacts(cfg, s);
    case _ =>
  }

  lemma CallMovesStore(cfg: Config, s: State, ev: Event, t: State)
    requires Next(cfg, s, ev, t) && CallsOf(s, ev) != []
    ensures MemStep(s.store, CallsOf(s, ev)[0]).0 == t.store
  {
    hide ProposalDigest, PendingOf, CommitStep, AskStep, ConsultStep, HookStep, Drifts;
  }

  /** A sequence of one call runs as that call. */
  lemma CallHasOne(s: State, ev: Event)
    requires |CallsOf(s, ev)| == 1
    ensures MemRun(s.store, CallsOf(s, ev)).0 == MemStep(s.store, CallsOf(s, ev)[0]).0
    ensures PutsPresent(s.store, CallsOf(s, ev)) <==>
      (CallsOf(s, ev)[0].CallPut? ==> CallsOf(s, ev)[0].record.actionId in s.store)
  {
    hide MemStep, CallsOf;
    assert CallsOf(s, ev)[1..] == [];
  }

  lemma IntendingFacts(cfg: Config, s: State)
    requires PcOk(cfg, s) && s.pc.Intending?
    ensures s.pc.record.actionId in s.store && Survives(s.pc.record.(state := Committing))
  {
    hide Survives, Justified, Bound;
    var intent := s.pc.record.(state := Committing);
    BoundTransfers(s.pc.record, intent);
    BoundStorable(intent, s.pc.p);
  }

  lemma SavingFacts(cfg: Config, s: State)
    requires PcOk(cfg, s) && s.pc.Saving?
    ensures s.pc.record.actionId in s.store && Survives(s.pc.record)
  {
    hide Survives, Justified, Bound, Untouched, HasLanded, ReceiptMatches;
    var p :| Bound(s.pc.record, p);
    BoundStorable(s.pc.record, p);
  }

  lemma {:induction false} MemRunAppend(m: map<string, ActionRecord>, a: seq<StoreCall>, b: seq<StoreCall>)
    ensures MemRun(m, a + b).0 == MemRun(MemRun(m, a).0, b).0
    ensures PutsPresent(m, a) && PutsPresent(MemRun(m, a).0, b) ==> PutsPresent(m, a + b)
    decreases |a|
  {
    hide MemStep;
    if a == [] {
      assert a + b == b;
    } else {
      assert (a + b)[1..] == a[1..] + b;
      MemRunAppend(MemStep(m, a[0]).0, a[1..], b);
    }
  }

  lemma {:induction false} RunIsCalls(cfg: Config, states: seq<State>, events: seq<Event>, n: nat)
    requires Run(cfg, states, events) && states[0] == INIT && n <= |events|
    ensures forall i :: 0 <= i < |RunCalls(states, events, n)| ==> CallStorable(RunCalls(states, events, n)[i])
    ensures PutsPresent(map[], RunCalls(states, events, n))
    ensures MemRun(map[], RunCalls(states, events, n)).0 == states[n].store
    decreases n
  {
    hide Inv, Next, CallsOf, CallStorable;
    if n > 0 {
      RunIsCalls(cfg, states, events, n - 1);
      InitInv(cfg);
      RunKeeps(cfg, states, events);
      StepIsCall(cfg, states[n - 1], events[n - 1], states[n - 1 + 1]);
      MemRunAppend(map[], RunCalls(states, events, n - 1), CallsOf(states[n - 1], events[n - 1]));
    }
  }

  /** Along any execution from an empty store, the calls get the same answers from SQLite as from
      memory, and the table holds exactly the records of the machine's store. */
  lemma SqliteServesTheGateway(cfg: Config, states: seq<State>, events: seq<Event>)
    requires Run(cfg, states, events) && states[0] == INIT
    ensures var calls := RunCalls(states, events, |events|);
      && (forall i :: 0 <= i < |calls| ==> CallStorable(calls[i]))
      && SqlRun(map[], calls).1 == MemRun(map[], calls).1
      && Represents(SqlRun(map[], calls).0, states[|events|].store)
  {
    hide Next, CallsOf, CallStorable, SqlRun, MemRun, PutsPresent;
    RunIsCalls(cfg, states, events, |events|);
    SqliteRefinesMemory(map[], map[], RunCalls(states, events, |events|));
  }
}

/** Callbacks that call the gateway again. Its lock is re-entrant, so on the same thread they can: the operation
    they were called from is suspended while theirs runs. */
module Reentry {
  import opened Prelude
  import opened GraphDigests
  import opened Proposals
  import opened Records
  import opened GatewayMachine
  import opened GatewayInvariant
  import opened GatewaySteps
  import opened GatewayTheorems
  import opened GatewayRuns

  /** The machine, and the operations that wait for a callback of theirs to return, innermost first. */
  datatype Nested = Nested(s: State, suspended: seq<Pc>)

  datatype NestedEvent = Inner(ev: Event) | Enter | Leave

  const NESTED_INIT := Nested(INIT, [])

  /** The operation stands at a call to a verifier, a policy runtime or the hook. */
  predicate AtCallback(pc: Pc) {
    pc.Assessing? || pc.Hooking? || pc.Approving?
  }

  ghost predicate NestedNext(cfg: Config, a: Nested, ev: NestedEvent, b: Nested) {
    match ev
    case Inner(e) => Next(cfg, a.s, e, b.s) && b.suspended == if e.Crash? then [] else a.suspended
    case Enter => AtCallback(a.s.pc) && b == Nested(a.s.(pc := Idle), [a.s.pc] + a.suspended)
    case Leave => a.s.pc.Idle? && a.suspended != [] && b == Nested(a.s.(pc := a.suspended[0]), a.suspended[1..])
  }

  ghost predicate NestedRun(cfg: Config, states: seq<Nested>, events: seq<NestedEvent>) {
    && |states| == |events| + 1
    && forall i :: 0 <= i < |events| ==> NestedNext(cfg, states[i], events[i], states[i + 1])
  }

  ghost predicate NestedReaches(cfg: Config, a: Nested, b: Nested) {
    exists states, events :: NestedRun(cfg, states, events) && states[0] == a && states[|events|] == b
  }

  /** Nobody reconciles an action while the hook before its commit is running. */
  ghost predicate Guarded(a: Nested, ev: NestedEvent) {
    ev == Inner(Look) && a.s.pc.Looking? ==>
      forall i :: 0 <= i < |a.suspended| && a.suspended[i].Hooking? ==> a.suspended[i].record.actionId != a.s.pc.id
  }

  // ---------------------------------------------------------------- ownership

  /** The action whose record an operation has in hand. */
  function Owner(pc: Pc): Option<string> {
    match pc
    case Assessing(_, _, r) => Some(r.actionId)
    case Intending(_, r) => Some(r.actionId)
    case Hooking(_, r) => Some(r.actionId)
    case Calling(_, r, _) => Some(r.actionId)
    case Saving(r, _) => Some(r.actionId)
    case Asking(r, _) => Some(r.actionId)
    case _ => None
  }

  predicate Apart(x: Pc, y: Pc) {
    Owner(x).Some? ==> Owner(x) != Owner(y)
  }

  /** A suspended operation's premises still hold, and nobody else has its record in hand. */
  ghost predicate SuspendedOk(cfg: Config, s: State, q: Pc) {
    AtCallback(q) && PcOk(cfg, s.(pc := q))
  }

  ghost predicate NestedInv(cfg: Config, a: Nested) {
    && Inv(cfg, a.s)
    && (forall i :: 0 <= i < |a.suspended| ==> SuspendedOk(cfg, a.s, a.suspended[i]) && Apart(a.suspended[i], a.s.pc))
    && (forall i, j :: 0 <= i < j < |a.suspended| ==> Apart(a.suspended[i], a.suspended[j]))
  }

  /** How a step changes the record in hand. */
  lemma OwnerMoves(cfg: Config, s: State, ev: Event, t: State)
    requires Inv(cfg, s) && Next(cfg, s, ev, t)
    ensures Owner(t.pc).Some? ==>
      || Owner(t.pc) == Owner(s.pc)
      || (s.pc.Claiming? && Owner(t.pc).value !in s.store)
      || (ev == Look && s.pc.Looking? && Owner(t.pc) == Some(s.pc.id) && s.pc.id in s.store && Pending(s.store[s.pc.id].state))
  {
    hide ProposalDigest, CellOk, PcOk, CommitStep, AskStep, ConsultStep, HookStep, LookStep, Drifts, Distinct;
    match ev
    case Consult(c) => ConsultOwner(cfg, s, c, t);
    case Hook(hook) => HookOwner(cfg, s, hook, t);
    case Commit(l, i, reply) => CommitOwner(cfg, s, l, i, reply, t);
    case Ask(l, i, reply) => AskOwner(cfg, s, l, i, reply, t);
    case Look => LookOwner(cfg, s, t);
    case _ =>
  }

  lemma ConsultOwner(cfg: Config, s: State, c: Consultation, t: State)
    requires ConsultStep(cfg, s, c, t)
    ensures Owner(t.pc) == Owner(s.pc)
  {
    hide Assess, ReachAnswer, GraphDigest;
  }

  lemma HookOwner(cfg: Config, s: State, hook: Reply<()>, t: State)
    requires HookStep(cfg, s, hook, t)
    ensures Owner(t.pc) == Owner(s.pc)
  {
    hide GraphDigest, CodeText;
  }

  lemma CommitOwner(cfg: Config, s: State, l: multiset<Effect>, i: multiset<Effect>, reply: Option<ConnectorResult>, t: State)
    requires CommitStep(cfg, s, l, i, reply, t)
    ensures Owner(t.pc) == Owner(s.pc)
  {
    hide GraphDigest, CommitContract;
  }

  lemma AskOwner(cfg: Config, s: State, l: multiset<Effect>, i: multiset<Effect>, reply: Option<ConnectorResult>, t: State)
    requires AskStep(cfg, s, l, i, reply, t)
    ensures Owner(t.pc).Some? ==> Owner(t.pc) == Owner(s.pc)
  {
    hide GraphDigest, ReconcileContract, Rebuild;
  }

  lemma LookOwner(cfg: Config, s: State, t: State)
    requires CellsOk(cfg, s) && LookStep(s, t)
    ensures s.pc.Looking?
    ensures Owner(t.pc).Some? ==> Owner(t.pc) == Some(s.pc.id) && s.pc.id in s.store && Pending(s.store[s.pc.id].state)
  {
    hide RecordOk, WorldOk, Untouched;
    CellHere(cfg, s, s.pc.id);
  }

  // ------------------------------------------- what a step leaves to the others

  lemma OthersUntouched(cfg: Config, s: State, ev: Event, t: State, id: string)
    requires Next(cfg, s, ev, t) && Untouched(s.landed, s.inFlight, id) && Owner(s.pc) != Some(id)
    ensures Untouched(t.landed, t.inFlight, id)
  {
    hide Untouched, ProposalDigest, ClaimStep, ConsultStep, HookStep, IntendStep, SaveStep, LookStep, DeleteStep, CheckWaitingStep,
         ApproveStep, SnapshotStep, RecoverNextStep, CommitStep, AskStep, Drifts, CommitContract;
    match ev
    case Commit(l, i, reply) => OthersAfterCommit(cfg, s, l, i, reply, t, id);
    case Ask(l, i, reply) => OthersAfterAsk(cfg, s, l, i, reply, t, id);
    case Drift(l, i) => DriftKeepsUntouched(s.landed, s.inFlight, l, i, id);
    case _ => QuietOutside(cfg, s, ev, t);
  }

  lemma QuietOutside(cfg: Config, s: State, ev: Event, t: State)
    requires Next(cfg, s, ev, t) && !ev.Commit? && !ev.Ask? && !ev.Drift?
    ensures t.landed == s.landed && t.inFlight == s.inFlight
  {
    hide ProposalDigest, CommitStep, AskStep, ConsultStep, HookStep, Drifts, Distinct, Pending;
    match ev
    case Consult(c) => ConsultFrame(cfg, s, c, t);
    case Hook(hook) => HookFrame(cfg, s, hook, t);
    case _ =>
  }

  lemma OthersAfterCommit(cfg: Config, s: State, l: multiset<Effect>, i: multiset<Effect>, reply: Option<ConnectorResult>,
                          t: State, id: string)
    requires CommitStep(cfg, s, l, i, reply, t) && Untouched(s.landed, s.inFlight, id) && Owner(s.pc) != Some(id)
    ensures Untouched(t.landed, t.inFlight, id)
  {
    hide Untouched, CommitContract, GraphDigest, Applied;
    CommitKeepsOtherUntouched(s.landed, s.inFlight, Effect(s.pc.record.actionId, s.pc.p), l, i, reply, id);
  }

  lemma OthersAfterAsk(cfg: Config, s: State, l: multiset<Effect>, i: multiset<Effect>, reply: Option<ConnectorResult>,
                       t: State, id: string)
    requires AskStep(cfg, s, l, i, reply, t) && Untouched(s.landed, s.inFlight, id)
    ensures Untouched(t.landed, t.inFlight, id)
  {
    hide Untouched, Drifts, Truthful, GraphDigest, Applied, Rebuild;
    DriftKeepsUntouched(s.landed, s.inFlight, l, i, id);
  }

  lemma LogMoves(cfg: Config, s: State, ev: Event, t: State)
    requires Next(cfg, s, ev, t)
    ensures t.log == s.log || exists c :: t.log == s.log + [c]
  {
    hide ProposalDigest, CommitStep, AskStep, ConsultStep, HookStep, Drifts, Distinct, Pending;
    match ev
    case Consult(c) => ConsultFrame(cfg, s, c, t);
    case Hook(hook) => HookFrame(cfg, s, hook, t);
    case Commit(l, i, reply) => CommitLog(cfg, s, l, i, reply, t);
    case Ask(l, i, reply) => AskLog(cfg, s, l, i, reply, t);
    case _ =>
  }

  lemma ConsultFrame(cfg: Config, s: State, c: Consultation, t: State)
    requires ConsultStep(cfg, s, c, t)
    ensures t.log == s.log + [c] && t.landed == s.landed && t.inFlight == s.inFlight
  {
    hide Assess, ReachAnswer, GraphDigest, Finished;
  }

  lemma HookFrame(cfg: Config, s: State, hook: Reply<()>, t: State)
    requires HookStep(cfg, s, hook, t)
    ensures t.log == s.log && t.landed == s.landed && t.inFlight == s.inFlight
  {
    hide GraphDigest, CodeText, Finished;
  }

  lemma CommitLog(cfg: Config, s: State, l: multiset<Effect>, i: multiset<Effect>, reply: Option<ConnectorResult>, t: State)
    requires CommitStep(cfg, s, l, i, reply, t)
    ensures t.log == s.log
  {
    hide GraphDigest, CommitContract, Applied;
  }

  lemma AskLog(cfg: Config, s: State, l: multiset<Effect>, i: multiset<Effect>, reply: Option<ConnectorResult>, t: State)
    requires AskStep(cfg, s, l, i, reply, t)
    ensures t.log == s.log
  {
    hide GraphDigest, ReconcileContract, Rebuild, Applied;
  }

  lemma JustifiedStays(cfg: Config, s: State, ev: Event, t: State, r: ActionRecord, p: Proposal)
    requires Next(cfg, s, ev, t) && Justified(cfg, s.log, r, p)
    ensures Justified(cfg, t.log, r, p)
  {
    hide Next, Justified;
    LogMoves(cfg, s, ev, t);
    if t.log != s.log {
      var c :| t.log == s.log + [c];
      JustifiedGrows(cfg, s.log, c, r, p);
    }
  }

  /** The record of a suspended operation stays where it is while nobody else has it in hand. */
  lemma SuspendedRecordStays(cfg: Config, s: State, ev: Event, t: State, id: string)
    requires Inv(cfg, s) && Next(cfg, s, ev, t) && Owner(s.pc) != Some(id)
    requires id in s.store && (s.store[id].state == Validating || s.store[id].state == Committing)
    ensures id in t.store && t.store[id] == s.store[id]
  {
    hide CellOk, PcOk, Next, SavePermitted;
    NextMovesStore(cfg, s, ev, t);
  }

  lemma SuspendedKeeps(cfg: Config, s: State, ev: Event, t: State, q: Pc)
    requires Inv(cfg, s) && Next(cfg, s, ev, t) && SuspendedOk(cfg, s, q) && Apart(q, s.pc)
    ensures SuspendedOk(cfg, t, q)
  {
    hide Inv, Next, Bound, Justified, Untouched;
    if Owner(q).Some? {
      SuspendedRecordStays(cfg, s, ev, t, q.record.actionId);
      if q.Hooking? {
        OthersUntouched(cfg, s, ev, t, q.record.actionId);
        JustifiedStays(cfg, s, ev, t, q.record, q.p);
      }
    }
  }

  // -------------------------------------------------------------- the invariant

  lemma InnerKeeps(cfg: Config, a: Nested, e: Event, b: Nested)
    requires NestedInv(cfg, a) && NestedNext(cfg, a, Inner(e), b) && Guarded(a, Inner(e))
    ensures NestedInv(cfg, b)
  {
    hide Inv, Next, SuspendedOk, PcOk;
    NextKeeps(cfg, a.s, e, b.s);
    if !e.Crash? {
      forall i | 0 <= i < |a.suspended| ensures SuspendedOk(cfg, b.s, a.suspended[i]) && Apart(a.suspended[i], b.s.pc) {
        var q := a.suspended[i];
        SuspendedKeeps(cfg, a.s, e, b.s, q);
        if Owner(q).Some? {
          SuspendedHolds(cfg, a.s, q);
        }
        OwnerMoves(cfg, a.s, e, b.s);
      }
    }
  }

  lemma SuspendedHolds(cfg: Config, s: State, q: Pc)
    requires SuspendedOk(cfg, s, q) && Owner(q).Some?
    ensures q.record.actionId == Owner(q).value && Owner(q).value in s.store
    ensures s.store[Owner(q).value].state == if q.Hooking? then Committing else Validating
  {
    hide Bound, Justified, Untouched;
  }

  lemma PcIsOk(cfg: Config, s: State, q: Pc)
    requires Inv(cfg, s)
    ensures PcOk(cfg, s.(pc := s.pc)) && (AtCallback(s.pc) ==> SuspendedOk(cfg, s.(pc := Idle), s.pc))
  {
    hide CellOk, PcOk;
    assert s.(pc := s.pc) == s && s.(pc := Idle).(pc := s.pc) == s;
  }

  lemma SamePremises(cfg: Config, s: State, t: State, q: Pc)
    requires SuspendedOk(cfg, s, q) && t == s.(pc := t.pc)
    ensures SuspendedOk(cfg, t, q)
  {
    hide PcOk;
    assert t.(pc := q) == s.(pc := q);
  }

  lemma InvWithPc(cfg: Config, s: State, q: Pc)
    requires Inv(cfg, s) && PcOk(cfg, s.(pc := q))
    ensures Inv(cfg, s.(pc := q))
  {
    hide PcOk, RecordOk, WorldOk;
    forall id ensures CellOk(cfg, s.(pc := q), id) {
      assert CellOk(cfg, s, id);
    }
  }

  lemma EnterKeeps(cfg: Config, a: Nested, b: Nested)
    requires NestedInv(cfg, a) && NestedNext(cfg, a, Enter, b)
    ensures NestedInv(cfg, b)
  {
    hide Inv, PcOk, SuspendedOk;
    InvWithIdle(cfg, a.s);
    PcIsOk(cfg, a.s, Idle);
    forall i | 0 <= i < |b.suspended| ensures SuspendedOk(cfg, b.s, b.suspended[i]) && Apart(b.suspended[i], b.s.pc) {
      if i > 0 {
        assert b.suspended[i] == a.suspended[i - 1];
        SamePremises(cfg, a.s, b.s, a.suspended[i - 1]);
      }
    }
    forall i, j | 0 <= i < j < |b.suspended| ensures Apart(b.suspended[i], b.suspended[j]) {
      assert b.suspended[j] == a.suspended[j - 1];
      if i > 0 {
        assert b.suspended[i] == a.suspended[i - 1];
      }
    }
  }

  lemma InvWithIdle(cfg: Config, s: State)
    requires Inv(cfg, s)
    ensures Inv(cfg, s.(pc := Idle))
  {
    hide CellOk;
    InvWithPc(cfg, s, Idle);
  }

  lemma LeaveKeeps(cfg: Config, a: Nested, b: Nested)
    requires NestedInv(cfg, a) && NestedNext(cfg, a, Leave, b)
    ensures NestedInv(cfg, b)
  {
    hide Inv, PcOk;
    var q := a.suspended[0];
    assert SuspendedOk(cfg, a.s, q);
    InvWithPc(cfg, a.s, q);
    forall i | 0 <= i < |b.suspended| ensures SuspendedOk(cfg, b.s, b.suspended[i]) && Apart(b.suspended[i], b.s.pc) {
      assert b.suspended[i] == a.suspended[i + 1];
      SamePremises(cfg, a.s, b.s, a.suspended[i + 1]);
      assert Apart(a.suspended[0], a.suspended[i + 1]);
    }
    forall i, j | 0 <= i < j < |b.suspended| ensures Apart(b.suspended[i], b.suspended[j]) {
      assert Apart(a.suspended[i + 1], a.suspended[j + 1]);
    }
  }

  lemma {:induction false} GuardedRunKeeps(cfg: Config, states: seq<Nested>, events: seq<NestedEvent>, n: nat)
    requires NestedRun(cfg, states, events) && states[0] == NESTED_INIT && n < |states|
    requires forall i :: 0 <= i < |events| ==> Guarded(states[i], events[i])
    ensures NestedInv(cfg, states[n])
    decreases n
  {
    hide NestedInv, NestedNext, Guarded;
    if n == 0 {
      NestedStart(cfg);
    } else {
      GuardedRunKeeps(cfg, states, events, n - 1);
      assert NestedNext(cfg, states[n - 1], events[n - 1], states[n - 1 + 1]);
      NestedStep(cfg, states[n - 1], events[n - 1], states[n]);
    }
  }

  lemma NestedStart(cfg: Config)
    ensures NestedInv(cfg, NESTED_INIT)
  {
    hide Inv;
    InitInv(cfg);
  }

  lemma NestedStep(cfg: Config, a: Nested, ev: NestedEvent, b: Nested)
    requires NestedInv(cfg, a) && NestedNext(cfg, a, ev, b) && Guarded(a, ev)
    ensures NestedInv(cfg, b)
  {
    hide NestedInv, NestedNext, Guarded;
    match ev
    case Inner(e) => InnerKeeps(cfg, a, e, b);
    case Enter => EnterKeeps(cfg, a, b);
    case Leave => LeaveKeeps(cfg, a, b);
  }

  /** Callbacks may call back as they like, as long as nobody reconciles an action whose hook is running: there
      is still at most one effect per action, and records and world agree. */
  lemma GuardedAtMostOnce(cfg: Config, states: seq<Nested>, events: seq<NestedEvent>, n: nat, id: string)
    requires NestedRun(cfg, states, events) && states[0] == NESTED_INIT && n < |states|
    requires forall i :: 0 <= i < |events| ==> Guarded(states[i], events[i])
    ensures AtMostOne(states[n].s.landed, states[n].s.inFlight, id)
    ensures CellOk(cfg, states[n].s, id)
  {
    hide RecordOk, PcOk, NestedRun, Guarded, SuspendedOk;
    GuardedRunKeeps(cfg, states, events, n);
    assert CellOk(cfg, states[n].s, id);
  }

  // ------------------------------------------------- the guard is needed, always

  lemma NestedRefl(cfg: Config, a: Nested)
    ensures NestedReaches(cfg, a, a)
  {
    assert NestedRun(cfg, [a], []) && [a][0] == a;
  }

  lemma NestedReachesStep(cfg: Config, a: Nested, b: Nested, ev: NestedEvent, c: Nested)
    requires NestedReaches(cfg, a, b) && NestedNext(cfg, b, ev, c)
    ensures NestedReaches(cfg, a, c)
  {
    hide NestedNext;
    var states, events :| NestedRun(cfg, states, events) && states[0] == a && states[|events|] == b;
    var states', events' := states + [c], events + [ev];
    forall i | 0 <= i < |events'| ensures NestedNext(cfg, states'[i], events'[i], states'[i + 1]) {
      if i < |events| {
        assert states'[i] == states[i] && states'[i + 1] == states[i + 1];
      }
    }
    assert NestedRun(cfg, states', events') && states'[0] == a && states'[|events'|] == c;
  }

  lemma InnerReaches(cfg: Config, a: Nested, b: Nested, e: Event, t: State)
    requires NestedReaches(cfg, a, b) && Next(cfg, b.s, e, t) && !e.Crash?
    ensures NestedReaches(cfg, a, Nested(t, b.suspended))
  {
    hide Next, NestedReaches;
    NestedReachesStep(cfg, a, b, Inner(e), Nested(t, b.suspended));
  }

  /** Wherever a hook is running, a reconciliation of its action, a connector that is not idempotent and a lost
      response make two effects of one. */
  lemma ReconcilingUnderTheHook(cfg: Config, a: Nested) returns (b: Nested)
    requires NestedInv(cfg, a) && a.s.pc.Idle? && a.suspended != [] && a.suspended[0].Hooking?
    ensures NestedReaches(cfg, a, b)
    ensures var e := Effect(a.suspended[0].record.actionId, a.suspended[0].p);
      (b.s.landed + b.s.inFlight)[e] == 2 && !AtMostOne(b.s.landed, b.s.inFlight, e.actionId)
  {
    hide NestedReaches, Next, SuspendedOk, Inv, Bound, Justified, Rebuild, GraphDigest, Applied;
    var p, r := a.suspended[0].p, a.suspended[0].record;
    var e := Effect(r.actionId, p);
    UnderTheHook(cfg, a);
    NestedRefl(cfg, a);
    var asked := AskedUnderTheHook(cfg, a, a, p);
    var once := CommitOnce(cfg, a, asked, p, a.s.store[r.actionId]);
    var back := Nested(once.s.(pc := a.suspended[0]), a.suspended[1..]);
    NestedReachesStep(cfg, a, once, Leave, back);
    HookMoves(cfg, back.s);
    InnerReaches(cfg, a, back, Hook(Returns(())), back.s.(pc := Calling(p, r, Return)));
    b := CommitOnce(cfg, a, Nested(back.s.(pc := Calling(p, r, Return)), back.suspended), p, r);
    assert Untouched(a.s.landed, a.s.inFlight, e.actionId);
    assert e !in a.s.landed + a.s.inFlight;
    assert e in b.s.landed + b.s.inFlight;
  }

  lemma UnderTheHook(cfg: Config, a: Nested)
    requires NestedInv(cfg, a) && a.suspended != [] && a.suspended[0].Hooking?
    ensures var p, r := a.suspended[0].p, a.suspended[0].record;
      && r.actionId in a.s.store && a.s.store[r.actionId].state == Committing
      && a.s.store[r.actionId].actionId == r.actionId && Rebuild(a.s.store[r.actionId]) == Ok(p)
      && Untouched(a.s.landed, a.s.inFlight, r.actionId)
  {
    hide Bound, Justified, Untouched, RecordOk, WorldOk;
    var p, r := a.suspended[0].p, a.suspended[0].record;
    assert SuspendedOk(cfg, a.s, a.suspended[0]);
    assert CellOk(cfg, a.s, r.actionId);
    BoundTransfers(a.s.store[r.actionId], r);
    RebuildReturnsBound(a.s.store[r.actionId], p);
  }

  lemma HookMoves(cfg: Config, s: State)
    requires s.pc.Hooking?
    ensures Next(cfg, s, Hook(Returns(())), s.(pc := Calling(s.pc.p, s.pc.record, Return)))
  {
    hide CodeText, GraphDigest;
  }

  /** The nested `reconcile` up to its commit: the lookup truthfully finds nothing. */
  lemma AskedUnderTheHook(cfg: Config, start: Nested, a: Nested, p: Proposal) returns (b: Nested)
    requires NestedReaches(cfg, start, a) && a.s.pc.Idle? && a.suspended != [] && a.suspended[0].Hooking?
    requires var id := a.suspended[0].record.actionId;
      && id in a.s.store && a.s.store[id].state == Committing && a.s.store[id].actionId == id
      && Rebuild(a.s.store[id]) == Ok(p) && Untouched(a.s.landed, a.s.inFlight, id)
    ensures NestedReaches(cfg, start, b)
    ensures b == Nested(a.s.(pc := Calling(p, a.s.store[a.suspended[0].record.actionId], Return)), a.suspended)
  {
    hide NestedReaches, Rebuild, GraphDigest, Applied, Untouched, CommitStep, ConsultStep, HookStep, IntendStep, SnapshotStep,
         RecoverNextStep, ClaimStep, SaveStep, DeleteStep, CheckWaitingStep, ApproveStep;
    var id := a.suspended[0].record.actionId;
    var r := a.s.store[id];
    var s1 := a.s.(pc := Looking(id, Return));
    var s2 := a.s.(pc := Asking(r, Return));
    var s3 := a.s.(pc := Calling(p, r, Return));
    var nothing := ConnectorResult(EffectNotCommitted, None, None);
    InnerReaches(cfg, start, a, BeginReconcile(id), s1);
    InnerReaches(cfg, start, Nested(s1, a.suspended), Look, s2);
    assert AskStep(cfg, s2, a.s.landed, a.s.inFlight, Some(nothing), s3);
    InnerReaches(cfg, start, Nested(s2, a.suspended), Ask(a.s.landed, a.s.inFlight, Some(nothing)), s3);
    b := Nested(s3, a.suspended);
  }

  /** One commit that lands without its response, and the record that is stored for it. */
  lemma CommitOnce(cfg: Config, start: Nested, a: Nested, p: Proposal, r: ActionRecord) returns (b: Nested)
    requires NestedReaches(cfg, start, a) && a.s.pc == Calling(p, r, Return)
    ensures NestedReaches(cfg, start, b) && b.suspended == a.suspended && b.s.pc.Idle?
    ensures b.s.landed == a.s.landed + multiset{Effect(r.actionId, p)} && b.s.inFlight == a.s.inFlight
  {
    hide NestedReaches, GraphDigest, Applied, AskStep, ConsultStep, HookStep, IntendStep, SnapshotStep,
         RecoverNextStep, ClaimStep, LookStep, DeleteStep, CheckWaitingStep, ApproveStep;
    var e := Effect(r.actionId, p);
    var applied := Applied(cfg.gatewayId, GraphDigest(cfg.graph), r, UNKNOWN_RESULT);
    var s1 := a.s.(landed := a.s.landed + multiset{e}, commitCalls := a.s.commitCalls + 1, pc := Saving(applied, Return));
    var s2 := s1.(store := s1.store[applied.actionId := applied], pc := Idle);
    assert CommitStep(cfg, a.s, a.s.landed + multiset{e}, a.s.inFlight, Some(UNKNOWN_RESULT), s1);
    InnerReaches(cfg, start, a, Commit(a.s.landed + multiset{e}, a.s.inFlight, Some(UNKNOWN_RESULT)), s1);
    InnerReaches(cfg, start, Nested(s1, a.suspended), Save, s2);
    b := Nested(s2, a.suspended);
  }

  // --------------------------------------------------------- and it does happen

  lemma {:induction false} NestedLift(cfg: Config, states: seq<State>, events: seq<Event>, n: nat)
    requires Run(cfg, states, events) && states[0] == INIT && n < |states|
    requires forall i :: 0 <= i < |events| ==> !events[i].Crash?
    ensures NestedReaches(cfg, NESTED_INIT, Nested(states[n], []))
    decreases n
  {
    hide NestedReaches, Next;
    if n == 0 {
      NestedRefl(cfg, NESTED_INIT);
    } else {
      NestedLift(cfg, states, events, n - 1);
      assert Next(cfg, states[n - 1], events[n - 1], states[n - 1 + 1]);
      InnerReaches(cfg, NESTED_INIT, Nested(states[n - 1], []), events[n - 1], states[n]);
    }
  }

  /** For every proposal that can be digested: its `execute`, a hook that reconciles it, two effects. */
  lemma TwoEffectsAreReachable(cfg: Config, p: Proposal, node: string) returns (b: Nested)
    requires ProposalDigest(p).Ok? && node in cfg.graph.nodes
    ensures NestedReaches(cfg, NESTED_INIT, b) && (b.s.landed + b.s.inFlight)[Effect(p.actionId, p)] == 2
  {
    hide NestedReaches, NestedInv, ProposalDigest, Next;
    var states, events := HookIsReached(cfg, p, node);
    var n := |events|;
    NestedLift(cfg, states, events, n);
    var s := states[n];
    var a := Nested(s.(pc := Idle), [s.pc]);
    assert [s.pc] + [] == [s.pc];
    NestedReachesStep(cfg, NESTED_INIT, Nested(s, []), Enter, a);
    HookInv(cfg, states, events);
    var c := ReconcilingUnderTheHook(cfg, a);
    NestedCompose(cfg, NESTED_INIT, a, c);
    b := c;
  }

  lemma HookInv(cfg: Config, states: seq<State>, events: seq<Event>)
    requires Run(cfg, states, events) && states[0] == INIT && states[|events|].pc.Hooking?
    ensures var s := states[|events|];
      NestedInv(cfg, Nested(s.(pc := Idle), [s.pc]))
  {
    hide Inv, Next, SuspendedOk;
    InitInv(cfg);
    RunKeeps(cfg, states, events);
    var s := states[|events|];
    InvWithIdle(cfg, s);
    PcIsOk(cfg, s, Idle);
  }

  lemma NestedCompose(cfg: Config, a: Nested, b: Nested, c: Nested)
    requires NestedReaches(cfg, a, b) && NestedReaches(cfg, b, c)
    ensures NestedReaches(cfg, a, c)
  {
    hide NestedNext;
    var s1, e1 :| NestedRun(cfg, s1, e1) && s1[0] == a && s1[|e1|] == b;
    var s2, e2 :| NestedRun(cfg, s2, e2) && s2[0] == b && s2[|e2|] == c;
    var states, events := s1 + s2[1..], e1 + e2;
    forall i | 0 <= i < |events| ensures NestedNext(cfg, states[i], events[i], states[i + 1]) {
      if i < |e1| {
        assert NestedNext(cfg, s1[i], e1[i], s1[i + 1]);
      } else {
        var k := i - |e1|;
        assert NestedNext(cfg, s2[k], e2[k], s2[k + 1]);
        assert states[i] == s2[k] && states[i + 1] == s2[k + 1];
      }
    }
    assert NestedRun(cfg, states, events);
    assert states[|events|] == c by {
      if e2 != [] {
        assert states[|events|] == s2[|e2|];
      }
    }
  }
}

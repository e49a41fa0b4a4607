/** `recover_pending` settles what a crash left open. */
module Recovery {
  import opened Prelude
  import opened Records
  import opened GraphDigests
  import opened GatewayMachine
  import opened GatewayInvariant
  import opened GatewaySteps
  import opened GatewayTheorems

  /** The steps of a recovery pass after its snapshot: no crash, and `reconcile` answers. */
  ghost predicate PassEvent(ev: Event) {
    ev.RecoverNext? || ev.Look? || (ev.Ask? && ev.answer.Some?) || ev.Commit? || ev.Save? || ev.Drift?
  }

  /** An undisturbed `recover_pending` from `states[0]`, run to its end. */
  ghost predicate Pass(cfg: Config, states: seq<State>, events: seq<Event>) {
    && Run(cfg, states, events) && events != []
    && states[0].pc.Idle? && states[0].waiting == multiset{}
    && events[0].Snapshot? && (forall i :: 1 <= i < |events| ==> PassEvent(events[i]))
    && states[|events|].pc.Idle? && states[|events|].waiting == multiset{}
  }

  /** The reconcile lookups of a pass all told the outcome. */
  ghost predicate Authoritative(events: seq<Event>) {
    forall i :: 0 <= i < |events| && events[i].Ask? && events[i].answer.Some? ==>
      events[i].answer.value.outcome != EffectUnknown
  }

  /** The one live thread recovers `todo`; its first entry may already be in the critical section. */
  ghost predicate Alone(s: State, todo: seq<string>) {
    if s.pc.Idle? then s.waiting == if todo == [] then multiset{} else multiset{Recovering(todo)}
    else
      && s.waiting == multiset{} && todo != []
      && (s.pc.Looking? || s.pc.Asking? || s.pc.Calling? || s.pc.Saving?)
      && s.pc.after == Recover(todo[1..])
      && todo[0] == if s.pc.Looking? then s.pc.id else s.pc.record.actionId
  }

  ghost predicate AllPending(s: State, todo: seq<string>) {
    Distinct(todo) && forall id :: id in todo ==> id in s.store && Pending(s.store[id].state)
  }

  ghost predicate InPass(s: State, todo: seq<string>) {
    Alone(s, todo) && AllPending(s, todo)
  }

  ghost predicate CoversCommitting(s: State, todo: seq<string>) {
    forall id :: id in s.store && s.store[id].state == Committing ==> id in todo
  }

  /** In a second pass nothing is COMMITTING any more, so nothing is committed again. */
  ghost predicate CoversUnknown(s: State, todo: seq<string>) {
    && (forall id :: id in s.store && Pending(s.store[id].state) ==> id in todo && s.store[id].state == OutcomeUnknown)
    && !s.pc.Calling?
    && (s.pc.Saving? ==> Terminal(s.pc.record.state))
  }

  /** What is left to do in a pass, counted in steps. */
  ghost function Distance(s: State, todo: seq<string>): int {
    5 * |todo| - (if s.pc.Looking? then 1 else if s.pc.Asking? then 2 else if s.pc.Calling? then 3
                  else if s.pc.Saving? then 4 else 0)
  }

  lemma SnapshotStarts(cfg: Config, s: State, ids: seq<string>, t: State)
    requires s.pc.Idle? && s.waiting == multiset{} && Next(cfg, s, Snapshot(ids), t)
    ensures InPass(t, ids) && CoversCommitting(t, ids)
    ensures (forall id :: id in s.store ==> s.store[id].state != Committing) ==> CoversUnknown(t, ids)
    ensures Distance(t, ids) == 5 * |ids|
  {
  }

  lemma RestOf(todo: seq<string>)
    requires todo != []
    ensures todo == [todo[0]] + todo[1..]
    ensures Distinct(todo) ==> Distinct(todo[1..]) && todo[0] !in todo[1..]
  {
  }

  lemma SaveAdvances(cfg: Config, s: State, todo: seq<string>, t: State)
    requires PcOk(cfg, s) && InPass(s, todo) && SaveStep(s, t)
    ensures InPass(t, todo[1..])
    ensures CoversCommitting(s, todo) ==> CoversCommitting(t, todo[1..])
    ensures CoversUnknown(s, todo) ==> CoversUnknown(t, todo[1..])
  {
    hide Bound, Justified, Untouched, HasLanded, SaveOk;
    RestOf(todo);
    SaveIsPermitted(cfg, s, s.pc.record);
  }

  lemma AskNeverFails(cfg: Config, s: State, l: multiset<Effect>, i: multiset<Effect>, reply: Option<ConnectorResult>,
                      t: State)
    requires CellsOk(cfg, s) && PcOk(cfg, s) && AskStep(cfg, s, l, i, reply, t) && reply.Some?
    ensures t.store == s.store && t.waiting == s.waiting
    ensures reply.value.outcome == EffectNotCommitted && s.pc.record.state == Committing ==> t.pc.Calling?
    ensures !(reply.value.outcome == EffectNotCommitted && s.pc.record.state == Committing) ==>
      t.pc.Saving? && (reply.value.outcome != EffectUnknown ==> Terminal(t.pc.record.state))
    ensures (t.pc.Calling? || t.pc.Saving?) && t.pc.after == s.pc.after && t.pc.record.actionId == s.pc.record.actionId
  {
    hide Bound, Justified, WorldOk, ReconcileContract, Rebuild, GraphDigest, ReceiptMatches, CellsOk;
    var r := s.pc.record;
    CellHere(cfg, s, r.actionId);
    var p :| Bound(r, p);
    RebuildReturnsBound(r, p);
  }

  lemma LookFinds(s: State, todo: seq<string>, t: State)
    requires InPass(s, todo) && LookStep(s, t) && (forall id :: id in s.store ==> s.store[id].actionId == id)
    ensures InPass(t, todo) && t.store == s.store && t.pc.Asking? && s.pc.Looking?
  {
    assert todo[0] in todo;
  }

  lemma CommitAdvances(cfg: Config, s: State, l: multiset<Effect>, i: multiset<Effect>, reply: Option<ConnectorResult>,
                       t: State)
    requires CommitStep(cfg, s, l, i, reply, t)
    ensures s.pc.Calling? && t.pc.Saving? && t.store == s.store && t.waiting == s.waiting
    ensures t.pc.after == s.pc.after && t.pc.record.actionId == s.pc.record.actionId
  {
    hide CommitContract, GraphDigest;
  }

  lemma CellIds(cfg: Config, s: State)
    requires CellsOk(cfg, s)
    ensures forall id :: id in s.store ==> s.store[id].actionId == id
  {
    hide RecordOk, WorldOk, Untouched;
    forall id | id in s.store ensures s.store[id].actionId == id {
      assert CellOk(cfg, s, id);
    }
  }

  /** A step keeps to the list, covers what is open, and comes closer to the end. */
  ghost predicate Advances(s: State, todo: seq<string>, ev: Event, t: State, todo': seq<string>) {
    && InPass(t, todo')
    && (CoversCommitting(s, todo) ==> CoversCommitting(t, todo'))
    && (CoversUnknown(s, todo) && (ev.Ask? && ev.answer.Some? ==> ev.answer.value.outcome != EffectUnknown) ==>
          CoversUnknown(t, todo'))
    && (ev.Drift? ==> Distance(t, todo') == Distance(s, todo))
    && (!ev.Drift? ==> 0 <= Distance(t, todo') < Distance(s, todo))
  }

  lemma LookPasses(cfg: Config, s: State, todo: seq<string>, t: State)
    requires CellsOk(cfg, s) && InPass(s, todo) && LookStep(s, t)
    ensures Advances(s, todo, Look, t, todo)
  {
    hide CellsOk;
    CellIds(cfg, s);
    LookFinds(s, todo, t);
  }

  lemma AskPasses(cfg: Config, s: State, todo: seq<string>, l: multiset<Effect>, i: multiset<Effect>,
                  reply: Option<ConnectorResult>, t: State)
    requires CellsOk(cfg, s) && PcOk(cfg, s) && InPass(s, todo) && AskStep(cfg, s, l, i, reply, t) && reply.Some?
    ensures Advances(s, todo, Ask(l, i, reply), t, todo)
  {
    hide CellsOk, Bound, Justified, Untouched, HasLanded, SaveOk, ReconcileContract, Rebuild, GraphDigest;
    AskNeverFails(cfg, s, l, i, reply, t);
    assert s.pc.Asking? && todo[0] in todo;
  }

  lemma CommitPasses(cfg: Config, s: State, todo: seq<string>, l: multiset<Effect>, i: multiset<Effect>,
                     reply: Option<ConnectorResult>, t: State)
    requires InPass(s, todo) && CommitStep(cfg, s, l, i, reply, t)
    ensures Advances(s, todo, Commit(l, i, reply), t, todo)
  {
    hide CommitStep;
    CommitAdvances(cfg, s, l, i, reply, t);
  }

  lemma SavePasses(cfg: Config, s: State, todo: seq<string>, t: State)
    requires PcOk(cfg, s) && InPass(s, todo) && SaveStep(s, t)
    ensures todo != [] && Advances(s, todo, Save, t, todo[1..])
  {
    hide Bound, Justified, Untouched, HasLanded, SaveOk, PcOk;
    SaveReleases(s, todo, t);
    SaveAdvances(cfg, s, todo, t);
  }

  lemma SaveReleases(s: State, todo: seq<string>, t: State)
    requires SaveStep(s, t) && Alone(s, todo)
    ensures s.pc.Saving? && t.pc.Idle? && todo != []
  {
  }

  lemma NextRecordPasses(s: State, todo: seq<string>, ids: seq<string>, t: State)
    requires InPass(s, todo) && RecoverNextStep(s, ids, t)
    ensures Advances(s, todo, RecoverNext(ids), t, todo)
  {
    assert ids == todo;
  }

  lemma DriftPasses(s: State, todo: seq<string>, l: multiset<Effect>, i: multiset<Effect>, t: State)
    requires InPass(s, todo) && t == s.(landed := l, inFlight := i)
    ensures Advances(s, todo, Drift(l, i), t, todo)
  {
  }

  lemma PassStep(cfg: Config, s: State, todo: seq<string>, ev: Event, t: State) returns (todo': seq<string>)
    requires Inv(cfg, s) && Next(cfg, s, ev, t) && PassEvent(ev) && InPass(s, todo)
    ensures Advances(s, todo, ev, t, todo')
  {
    hide CellOk, PcOk, SaveStep, AskStep, CommitStep, LookStep, RecoverNextStep, Drifts, Advances, InPass;
    assert CellsOk(cfg, s) && PcOk(cfg, s);
    todo' := todo;
    match ev
    case RecoverNext(ids) => NextRecordPasses(s, todo, ids, t);
    case Look => LookPasses(cfg, s, todo, t);
    case Ask(l, i, reply) => AskPasses(cfg, s, todo, l, i, reply, t);
    case Commit(l, i, reply) => CommitPasses(cfg, s, todo, l, i, reply, t);
    case Save =>
      SavePasses(cfg, s, todo, t);
      todo' := todo[1..];
    case Drift(l, i) => DriftPasses(s, todo, l, i, t);
  }

  /** The steps of the recovering thread itself among the first `n` events, after the snapshot. */
  function Work(events: seq<Event>, n: nat): nat
    requires n <= |events|
  {
    if n <= 1 then 0 else Work(events, n - 1) + (if events[n - 1].Drift? then 0 else 1)
  }

  lemma {:induction false} PassKeeps(cfg: Config, states: seq<State>, events: seq<Event>, n: nat) returns (todo: seq<string>)
    requires Pass(cfg, states, events) && Inv(cfg, states[0]) && 1 <= n <= |events|
    ensures InPass(states[n], todo) && CoversCommitting(states[n], todo)
    ensures Work(events, n) + Distance(states[n], todo) <= 5 * |events[0].ids|
    ensures (forall id :: id in states[0].store ==> states[0].store[id].state != Committing) && Authoritative(events) ==>
      CoversUnknown(states[n], todo)
    decreases n
  {
    hide Inv, Next, InPass, CoversCommitting, CoversUnknown, PassEvent;
    RunKeeps(cfg, states, events);
    if n == 1 {
      todo := events[0].ids;
      assert Next(cfg, states[0], events[0], states[0 + 1]);
      SnapshotStarts(cfg, states[0], todo, states[1]);
    } else {
      var before := PassKeeps(cfg, states, events, n - 1);
      PassEventAnswers(events[n - 1]);
      todo := PassStep(cfg, states[n - 1], before, events[n - 1], states[n - 1 + 1]);
    }
  }

  lemma PassEventAnswers(ev: Event)
    requires PassEvent(ev)
    ensures ev.Ask? ==> ev.answer.Some?
  {
  }

  /** After one undisturbed pass no record is COMMITTING, whatever the lookups answered. */
  lemma PassSettlesIntents(cfg: Config, states: seq<State>, events: seq<Event>)
    requires Pass(cfg, states, events) && Reachable(cfg, states[0])
    ensures forall id :: id in states[|events|].store ==> states[|events|].store[id].state != Committing
  {
    hide Inv, Reachable, Next, PassEvent;
    ReachableInv(cfg, states[0]);
    var todo := PassKeeps(cfg, states, events, |events|);
  }

  /** A pass is short: each record of the snapshot costs its thread at most five steps. */
  lemma PassIsBounded(cfg: Config, states: seq<State>, events: seq<Event>)
    requires Pass(cfg, states, events) && Reachable(cfg, states[0])
    ensures Work(events, |events|) <= 5 * |events[0].ids|
  {
    hide Inv, Reachable, Next, PassEvent, InPass;
    ReachableInv(cfg, states[0]);
    var todo := PassKeeps(cfg, states, events, |events|);
  }

  /** A second undisturbed pass whose lookups are authoritative leaves nothing pending. */
  lemma TwoPassesSettle(cfg: Config, first: seq<State>, events1: seq<Event>, second: seq<State>, events2: seq<Event>)
    requires Pass(cfg, first, events1) && Reachable(cfg, first[0])
    requires Pass(cfg, second, events2) && second[0] == first[|events1|] && Authoritative(events2)
    ensures forall id :: id in second[|events2|].store ==> !Pending(second[|events2|].store[id].state)
  {
    hide Inv, Reachable, Next, PassEvent;
    PassSettlesIntents(cfg, first, events1);
    ReachableInv(cfg, first[0]);
    RunKeeps(cfg, first, events1);
    var todo := PassKeeps(cfg, second, events2, |events2|);
  }
}

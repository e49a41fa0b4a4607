/** Where the reason codes of a record come from. */
module GatewayReasons {
  import opened Carm
  import opened Records
  import opened GatewayMachine
  import opened GatewayInvariant
  import opened GatewaySteps
  import opened GatewayTheorems

  /** In every reachable state, a record on the way to or past a commit has the reason codes of a consultation
      that justified it, or says that the outcome is unknown; the latter only once it was, see below. */
  lemma ReasonsAreGiven(cfg: Config, s: State, id: string)
    requires Reachable(cfg, s) && id in s.store && EffectState(s.store[id].state)
    ensures exists p, c :: c in s.log && Bound(s.store[id], p) && Justifies(cfg, c, s.store[id], p)
  {
    hide Reachable, PcOk, Bound, Justifies, WorldOk, ReceiptMatches;
    ReachableInv(cfg, s);
    assert CellOk(cfg, s, id);
    var p :| Bound(s.store[id], p) && Justified(cfg, s.log, s.store[id], p);
    var c :| c in s.log && Justifies(cfg, c, s.store[id], p);
  }

  /** No resolution carries the code of an unknown outcome. */
  lemma ResolutionNeverUnknown(c: Consultation)
    requires c.policy.Returns? && c.reach.Ok?
    ensures Resolve(c.policy.value, c.reach.value, DEFAULT_CONFIG).reasonCodes != UNKNOWN_REASONS
  {
    hide Conflicts, PriorityEffect, MaxSeverity, Reports;
    var codes := Resolve(c.policy.value, c.reach.value, DEFAULT_CONFIG).reasonCodes;
    assert codes[0][0] == 'C' && UNKNOWN_REASONS[0][0] == 'G';
  }

  lemma CommittingIsResolved(cfg: Config, s: State, id: string)
    requires Inv(cfg, s) && id in s.store && s.store[id].state == Committing
    ensures s.store[id].reasonCodes != UNKNOWN_REASONS
  {
    hide PcOk, Bound, WorldOk, ReceiptMatches, Resolve, ReachAnswer, Controls, PolicyDigest;
    assert CellOk(cfg, s, id);
    var p :| Bound(s.store[id], p) && Justified(cfg, s.log, s.store[id], p);
    var c :| c in s.log && Justifies(cfg, c, s.store[id], p);
    ResolutionNeverUnknown(c);
  }

  /** Some state up to the n-th stored the record as COMMIT_OUTCOME_UNKNOWN. */
  ghost predicate WasUnknown(states: seq<State>, n: nat, id: string)
    requires n < |states|
  {
    exists i :: 0 <= i <= n && id in states[i].store && states[i].store[id].state == OutcomeUnknown
  }

  ghost predicate Early(s: State, id: string) {
    id !in s.store || s.store[id].state in {Validating, AwaitingApproval, Committing}
  }

  /** The record's history, as far as its reason codes go. */
  ghost predicate HistoryTold(states: seq<State>, n: nat, id: string)
    requires n < |states|
  {
    var s := states[n];
    && (Early(s, id) ==> !WasUnknown(states, n, id))
    && (id in s.store && s.store[id].state == Committed ==>
          (s.store[id].reasonCodes == UNKNOWN_REASONS <==> WasUnknown(states, n, id)))
  }

  /** How one step may move a record. */
  ghost predicate CellMove(s: State, t: State, id: string) {
    || (id in s.store && id in t.store && t.store[id] == s.store[id])
    || (id !in s.store && id !in t.store)
    || (id !in s.store && id in t.store && t.store[id].state == Validating)
    || (id in s.store && id !in t.store && s.store[id].state == AwaitingApproval)
    || (id in s.store && id in t.store && s.store[id].state == Validating && t.store[id].state == Committing)
    || (id in s.store && id in t.store && SavePermitted(s.store[id].state, t.store[id].state)
        && (t.store[id].state == Committed ==> Pending(s.store[id].state) && t.store[id].reasonCodes == s.store[id].reasonCodes))
  }

  lemma StepMovesCell(cfg: Config, s: State, ev: Event, t: State, id: string)
    requires Inv(cfg, s) && Next(cfg, s, ev, t)
    ensures CellMove(s, t, id)
  {
    hide Next, CellOk, PcOk, SavePermitted, SaveOk, Bound, Justified;
    NextMovesStore(cfg, s, ev, t);
    if s.pc.Saving? {
      SavingTells(cfg, s);
    }
  }

  lemma SavingTells(cfg: Config, s: State)
    requires PcOk(cfg, s) && s.pc.Saving?
    ensures var r := s.pc.record;
      && r.actionId in s.store
      && (r.state == Committed ==> Pending(s.store[r.actionId].state) && r.reasonCodes == s.store[r.actionId].reasonCodes)
  {
    hide RecordOk, Untouched, HasLanded;
  }

  lemma {:induction false} HistoryIsTold(cfg: Config, states: seq<State>, events: seq<Event>, n: nat, id: string)
    requires Run(cfg, states, events) && states[0] == INIT && n < |states|
    ensures HistoryTold(states, n, id)
    decreases n
  {
    hide Inv, Next, CellMove, WasUnknown;
    if n > 0 {
      HistoryIsTold(cfg, states, events, n - 1, id);
      InitInv(cfg);
      RunKeeps(cfg, states, events);
      assert Next(cfg, states[n - 1], events[n - 1], states[n - 1 + 1]);
      StepMovesCell(cfg, states[n - 1], events[n - 1], states[n], id);
      HistoryStep(cfg, states, n, id);
    } else {
      NothingWasUnknown(states, id);
    }
  }

  lemma NothingWasUnknown(states: seq<State>, id: string)
    requires states != [] && states[0] == INIT
    ensures HistoryTold(states, 0, id)
  {
  }

  lemma WasUnknownStep(states: seq<State>, n: nat, id: string)
    requires 0 < n < |states|
    ensures WasUnknown(states, n, id) <==>
      WasUnknown(states, n - 1, id) || (id in states[n].store && states[n].store[id].state == OutcomeUnknown)
  {
  }

  lemma HistoryStep(cfg: Config, states: seq<State>, n: nat, id: string)
    requires 0 < n < |states| && HistoryTold(states, n - 1, id) && CellMove(states[n - 1], states[n], id)
    requires Inv(cfg, states[n - 1])
    ensures HistoryTold(states, n, id)
  {
    hide Inv, WasUnknown;
    var s := states[n - 1];
    WasUnknownStep(states, n, id);
    if id in s.store {
      if s.store[id].state == Committing {
        CommittingIsResolved(cfg, s, id);
      } else if s.store[id].state == OutcomeUnknown {
        UnknownNow(states, n - 1, id);
        UnknownSaysSo(cfg, s, id);
      }
    }
  }

  lemma UnknownNow(states: seq<State>, n: nat, id: string)
    requires n < |states| && id in states[n].store && states[n].store[id].state == OutcomeUnknown
    ensures WasUnknown(states, n, id)
  {
  }

  lemma UnknownSaysSo(cfg: Config, s: State, id: string)
    requires Inv(cfg, s) && id in s.store && s.store[id].state == OutcomeUnknown
    ensures s.store[id].reasonCodes == UNKNOWN_REASONS
  {
    hide PcOk, Bound, WorldOk, ReceiptMatches, Authorises;
    assert CellOk(cfg, s, id);
    var p :| Bound(s.store[id], p) && Justified(cfg, s.log, s.store[id], p);
    var c :| c in s.log && Justifies(cfg, c, s.store[id], p);
  }

  /** A COMMITTED record says that its outcome is unknown exactly when it was stored as COMMIT_OUTCOME_UNKNOWN
      before; a COMMITTING record never does. */
  lemma CommittedSaysUnknownIff(cfg: Config, states: seq<State>, events: seq<Event>, n: nat, id: string)
    requires Run(cfg, states, events) && states[0] == INIT && n < |states| && id in states[n].store
    ensures states[n].store[id].state == Committed ==>
      (states[n].store[id].reasonCodes == UNKNOWN_REASONS <==> WasUnknown(states, n, id))
    ensures states[n].store[id].state == Committing ==> states[n].store[id].reasonCodes != UNKNOWN_REASONS
  {
    hide Inv, Next, WasUnknown;
    HistoryIsTold(cfg, states, events, n, id);
    InitInv(cfg);
    RunKeeps(cfg, states, events);
    if states[n].store[id].state == Committing {
      CommittingIsResolved(cfg, states[n], id);
    }
  }
}

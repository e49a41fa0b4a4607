/** The two action stores (gateway.py, persistence.py) and the refinement between them. */
module ActionStores {
  import opened Prelude
  import opened Ordering
  import opened Canonical
  import opened Carm
  import opened Proposals
  import opened Records

  // ----------------------------------------------------- the in-memory store

  function PendingOf(records: map<string, ActionRecord>): map<string, ActionRecord> {
    map id | id in records && Pending(records[id].state) :: records[id]
  }

  /** The pending ids of a dict that lists its keys in this order. */
  function PendingIds(order: seq<string>, records: map<string, ActionRecord>): seq<string> {
    if order == [] then []
    else
      var last := order[|order| - 1];
      PendingIds(order[..|order| - 1], records) + (if last in records && Pending(records[last].state) then [last] else [])
  }

  function Without(order: seq<string>, id: string): seq<string> {
    if order == [] then []
    else
      var last := order[|order| - 1];
      Without(order[..|order| - 1], id) + (if last == id then [] else [last])
  }

  lemma {:induction false} PendingIdsAre(order: seq<string>, records: map<string, ActionRecord>)
    requires Distinct(order)
    ensures Distinct(PendingIds(order, records))
    ensures forall id :: id in PendingIds(order, records) <==> id in order && id in records && Pending(records[id].state)
  {
    hide Pending;
    if order != [] {
      var front := order[..|order| - 1];
      var last := order[|order| - 1];
      assert order == front + [last];
      PendingIdsAre(front, records);
      assert last !in front;
      var listed := PendingIds(front, records);
      assert forall i :: 0 <= i < |listed| ==> listed[i] in listed && listed[i] != last;
    }
  }

  lemma {:induction false} WithoutIs(order: seq<string>, id: string)
    requires Distinct(order)
    ensures Distinct(Without(order, id))
    ensures forall x :: x in Without(order, id) <==> x in order && x != id
  {
    if order != [] {
      var front := order[..|order| - 1];
      var last := order[|order| - 1];
      assert order == front + [last];
      WithoutIs(front, id);
      assert last !in front;
      var kept := Without(front, id);
      if last != id {
        assert forall i :: 0 <= i < |kept| ==> kept[i] in kept && kept[i] != last;
      }
    }
  }

  /** A Python dict: its content, and the order in which its keys were inserted. */
  ghost predicate Lists(order: seq<string>, records: map<string, ActionRecord>) {
    Distinct(order) && forall id :: id in order <==> id in records
  }

  lemma ListsMore(order: seq<string>, records: map<string, ActionRecord>, r: ActionRecord)
    requires Lists(order, records)
    ensures Lists(if r.actionId in records then order else order + [r.actionId], records[r.actionId := r])
  {
    if r.actionId !in records {
      var more := order + [r.actionId];
      assert forall id :: id in more <==> id in order || id == r.actionId;
      forall i, j | 0 <= i < j < |more| ensures more[i] != more[j] {
        assert more[i] in order;
        if j < |order| {
          assert order[i] != order[j];
        }
      }
      assert Distinct(more);
      assert Lists(more, records[r.actionId := r]);
    } else {
      assert records[r.actionId := r].Keys == records.Keys;
    }
  }

  class InMemoryActionStore {
    var records: map<string, ActionRecord>
    var order: seq<string>

    ghost predicate Valid()
      reads this
    {
      Lists(order, records)
    }

    constructor ()
      ensures Valid() && records == map[] && order == []
    {
      records, order := map[], [];
    }

    /** The record already stored under the id, if any; otherwise the given one is stored. */
    method Claim(record: ActionRecord) returns (existing: Option<ActionRecord>)
      requires Valid()
      modifies this
      ensures Valid()
      ensures record.actionId in old(records) ==>
        existing == Some(old(records)[record.actionId]) && records == old(records) && order == old(order)
      ensures record.actionId !in old(records) ==>
        existing == None && records == old(records)[record.actionId := record] && order == old(order) + [record.actionId]
    {
      hide Lists;
      existing := Get(record.actionId);
      if existing.None? {
        Put(record);
      }
    }

    method Get(id: string) returns (record: Option<ActionRecord>)
      ensures record == if id in records then Some(records[id]) else None
    {
      record := if id in records then Some(records[id]) else None;
    }

    method Put(record: ActionRecord)
      requires Valid()
      modifies this
      ensures Valid() && records == old(records)[record.actionId := record]
      ensures order == if record.actionId in old(records) then old(order) else old(order) + [record.actionId]
    {
      hide Lists;
      ListsMore(order, records, record);
      if record.actionId !in records {
        order := order + [record.actionId];
      }
      records := records[record.actionId := record];
    }

    method DeleteWaiting(id: string, expected: ActionState) returns (r: Result<(), ErrorCode>)
      requires Valid()
      modifies this
      ensures Valid()
      ensures id in old(records) && old(records)[id].state == expected ==>
        r == Ok(()) && records == old(records) - {id} && order == Without(old(order), id)
      ensures !(id in old(records) && old(records)[id].state == expected) ==>
        r == Err(ActionStateInvalid) && records == old(records) && order == old(order)
    {
      var current := Get(id);
      if current.None? || current.value.state != expected {
        return Err(ActionStateInvalid);
      }
      WithoutIs(order, id);
      records, order := records - {id}, Without(order, id);
      return Ok(());
    }

    /** The pending records, in insertion order. */
    method PendingCommits() returns (found: seq<ActionRecord>)
      requires Valid()
      ensures |found| == |PendingIds(order, records)|
      ensures forall i :: 0 <= i < |found| ==>
        PendingIds(order, records)[i] in records && found[i] == records[PendingIds(order, records)[i]]
    {
      hide Pending, Lists;
      found := [];
      for i := 0 to |order|
        invariant |found| == |PendingIds(order[..i], records)|
        invariant forall j :: 0 <= j < |found| ==>
          PendingIds(order[..i], records)[j] in records && found[j] == records[PendingIds(order[..i], records)[j]]
      {
        var id := order[i];
        assert order[..i + 1][..i] == order[..i];
        if id in records && Pending(records[id].state) {
          found := found + [records[id]];
        }
      }
      assert order[..|order|] == order;
    }
  }

  // ---------------------------------------------------------------- rows

  /** One row of `governed_actions`. JSON columns hold the printed text; the receipt column is kept
      as its content. */
  datatype Row = Row(
    actionId: string,
    proposalDigest: Digest,
    state: string,
    attempt: nat,
    decision: Option<string>,
    controlsJson: string,
    reasonCodesJson: string,
    graphDigest: Option<Digest>,
    policyDigest: Option<Digest>,
    resultReference: Option<string>,
    resultDigest: Option<Digest>,
    receipt: Option<Receipt>,
    proposalJson: Option<string>)

  function StateText(s: ActionState): string {
    match s
    case Proposed => "PROPOSED"
    case Validating => "VALIDATING"
    case AwaitingApproval => "APPROVAL_REQUIRED"
    case Authorized => "AUTHORIZED"
    case Reserved => "RESERVED"
    case Committing => "COMMITTING"
    case Committed => "COMMITTED"
    case OutcomeUnknown => "COMMIT_OUTCOME_UNKNOWN"
    case Rejected => "REJECTED"
    case Failed => "FAILED"
  }

  /** `ActionState(text)`; `None` where the enum lookup raises. */
  function StateOf(text: string): Option<ActionState> {
    if text == "PROPOSED" then Some(Proposed)
    else if text == "VALIDATING" then Some(Validating)
    else if text == "APPROVAL_REQUIRED" then Some(AwaitingApproval)
    else if text == "AUTHORIZED" then Some(Authorized)
    else if text == "RESERVED" then Some(Reserved)
    else if text == "COMMITTING" then Some(Committing)
    else if text == "COMMITTED" then Some(Committed)
    else if text == "COMMIT_OUTCOME_UNKNOWN" then Some(OutcomeUnknown)
    else if text == "REJECTED" then Some(Rejected)
    else if text == "FAILED" then Some(Failed)
    else None
  }

  function DecisionText(d: RuntimeDecision): string {
    match d
    case AllowAction => "ALLOW"
    case BlockAction => "BLOCK"
    case ApprovalRequired => "APPROVAL_REQUIRED"
  }

  function DecisionFrom(text: string): Option<RuntimeDecision> {
    if text == "ALLOW" then Some(AllowAction)
    else if text == "BLOCK" then Some(BlockAction)
    else if text == "APPROVAL_REQUIRED" then Some(ApprovalRequired)
    else None
  }

  lemma StateRoundTrip(s: ActionState)
    ensures StateOf(StateText(s)) == Some(s)
  {
    match s {
      case Proposed => assert StateText(s)[0] == 'P';
      case Validating => assert StateText(s)[0] == 'V';
      case AwaitingApproval => assert StateText(s)[..2] == "AP";
      case Authorized => assert StateText(s)[..2] == "AU";
      case Reserved => assert |StateText(s)| == 8 && StateText(s)[2] == 'S';
      case Committing => assert |StateText(s)| == 10 && StateText(s)[0] == 'C';
      case Committed => assert |StateText(s)| == 9;
      case OutcomeUnknown => assert |StateText(s)| == 22;
      case Rejected => assert |StateText(s)| == 8 && StateText(s)[2] == 'J';
      case Failed => assert |StateText(s)| == 6;
    }
  }

  lemma DecisionRoundTrip(d: RuntimeDecision)
    ensures DecisionFrom(DecisionText(d)) == Some(d)
  {
  }

  /** `json.loads` of a whole text. */
  function Loads(text: string): Option<Value> {
    var r := ReadValue(text);
    if r.Some? && r.value.1 == "" then Some(r.value.0) else None
  }

  /** `json.dumps`, for values in the canonical domain. */
  function Dumps(v: Value): string
    requires Accepted(v)
  {
    Encode(v)
  }

  lemma LoadsOfDumps(v: Value)
    requires Accepted(v)
    ensures Loads(Dumps(v)) == Some(v)
  {
    ReadOfEncode(v, "");
    assert Encode(v) + "" == Encode(v);
  }

  lemma TextsAccepted(items: seq<string>)
    ensures Accepted(List(Texts(items)))
  {
  }

  function StringsOf(v: Value): Option<seq<string>> {
    if v.List? && forall i :: 0 <= i < |v.items| ==> v.items[i].Str?
    then Some(seq(|v.items|, i requires 0 <= i < |v.items| => v.items[i].s)) else None
  }

  lemma StringsOfTexts(items: seq<string>)
    ensures StringsOf(List(Texts(items))) == Some(items)
  {
    var v := List(Texts(items));
    assert |v.items| == |items|;
    assert forall i :: 0 <= i < |items| ==> v.items[i] == Str(items[i]);
    assert seq(|v.items|, i requires 0 <= i < |v.items| => v.items[i].s) == items;
  }

  /** Python's truth test on the stored proposal. */
  predicate Truthy(v: Value) {
    match v
    case Null => false
    case Bool(b) => b
    case Int(n) => n != 0
    case Str(s) => s != ""
    case List(items) => items != []
    case Dict(members) => members != map[]
    case _ => true
  }

  predicate Storable(r: ActionRecord) {
    r.proposal.Some? ==> Accepted(r.proposal.value)
  }

  /** `_values`. */
  function Values(r: ActionRecord): Row
    requires Storable(r)
  {
    TextsAccepted(r.controls);
    TextsAccepted(r.reasonCodes);
    Row(r.actionId, r.proposalDigest, StateText(r.state), r.attempt,
        if r.decision.Some? then Some(DecisionText(r.decision.value)) else None,
        Dumps(List(Texts(r.controls))), Dumps(List(Texts(r.reasonCodes))),
        r.graphDigest, r.policyDigest, r.resultReference, r.resultDigest, r.receipt,
        if r.proposal.Some? && Truthy(r.proposal.value) then Some(Dumps(r.proposal.value)) else None)
  }

  /** `_record`; `None` where decoding raises. */
  function RecordOf(row: Row): Option<ActionRecord> {
    var state := StateOf(row.state);
    var decision := if row.decision.Some? then DecisionFrom(row.decision.value) else None;
    var controls := Loads(row.controlsJson);
    var reasons := Loads(row.reasonCodesJson);
    var proposal := if row.proposalJson.Some? then Loads(row.proposalJson.value) else None;
    if state.None? || (row.decision.Some? && decision.None?) || (row.proposalJson.Some? && proposal.None?) then None
    else if controls.None? || reasons.None? || StringsOf(controls.value).None? || StringsOf(reasons.value).None? then None
    else
      Some(ActionRecord(row.actionId, row.proposalDigest, state.value, row.attempt, decision,
                        StringsOf(controls.value).value, StringsOf(reasons.value).value, row.graphDigest,
                        row.policyDigest, row.resultReference, row.resultDigest, row.receipt, proposal))
  }

  /** What a row gives back: everything, except that an empty proposal payload becomes none. */
  lemma RowReadsBack(r: ActionRecord)
    requires Storable(r)
    ensures RecordOf(Values(r))
         == Some(if r.proposal.Some? && !Truthy(r.proposal.value) then r.(proposal := None) else r)
  {
    hide StateOf, StateText, DecisionText, DecisionFrom, Loads, Dumps, StringsOf, Texts, Accepted, Truthy;
    StateRoundTrip(r.state);
    if r.decision.Some? {
      DecisionRoundTrip(r.decision.value);
    }
    TextsAccepted(r.controls);
    TextsAccepted(r.reasonCodes);
    LoadsOfDumps(List(Texts(r.controls)));
    LoadsOfDumps(List(Texts(r.reasonCodes)));
    StringsOfTexts(r.controls);
    StringsOfTexts(r.reasonCodes);
    if r.proposal.Some? {
      LoadsOfDumps(r.proposal.value);
    }
  }

  /** A record survives the database exactly when it has no empty proposal payload. */
  lemma RowRoundTripIff(r: ActionRecord)
    requires Storable(r)
    ensures RecordOf(Values(r)) == Some(r) <==> (r.proposal.Some? ==> Truthy(r.proposal.value))
  {
    hide Values, RecordOf;
    RowReadsBack(r);
  }

  /** Records that the gateway makes survive. */
  lemma BoundRecordsSurvive(r: ActionRecord, p: Proposal)
    requires Bound(r, p)
    ensures Storable(r) && RecordOf(Values(r)) == Some(r)
  {
    hide Values, RecordOf, Canonicalize;
    DigestExistsIff(p);
    var m := ProposalDocument(p).members;
    assert "action_id" in m;
    assert m["metadata"] == Dict(p.metadata);
    assert forall k :: k in m ==> Accepted(m[k]);
    RowRoundTripIff(r);
  }

  // ------------------------------------------------------- the SQLite store

  function PendingRows(rows: map<string, Row>): set<string> {
    set id | id in rows && (rows[id].state == "COMMITTING" || rows[id].state == "COMMIT_OUTCOME_UNKNOWN")
  }

  class SQLiteActionStore {
    var rows: map<string, Row>

    constructor ()
      ensures rows == map[]
    {
      rows := map[];
    }

    /** `INSERT OR IGNORE`, then a lookup when the row was already there. */
    method Claim(record: ActionRecord) returns (existing: Option<ActionRecord>)
      requires Storable(record)
      modifies this
      ensures (rows, existing) == SqlClaim(old(rows), record)
    {
      if record.actionId !in rows {
        rows := rows[record.actionId := Values(record)];
        return None;
      }
      existing := Get(record.actionId);
    }

    method Get(id: string) returns (record: Option<ActionRecord>)
      ensures record == SqlGet(rows, id)
    {
      record := if id in rows then RecordOf(rows[id]) else None;
    }

    /** `UPDATE ... WHERE action_id=?`, which must hit one row. */
    method Put(record: ActionRecord) returns (r: Result<(), ErrorCode>)
      requires Storable(record)
      modifies this
      ensures (rows, r) == SqlPut(old(rows), record)
    {
      if record.actionId !in rows {
        return Err(ActionStateInvalid);
      }
      rows := rows[record.actionId := Values(record)];
      return Ok(());
    }

    method DeleteWaiting(id: string, expected: ActionState) returns (r: Result<(), ErrorCode>)
      modifies this
      ensures (rows, r) == SqlDelete(old(rows), id, expected)
    {
      if id in rows && rows[id].state == StateText(expected) {
        rows := rows - {id};
        return Ok(());
      }
      return Err(ActionStateInvalid);
    }

    /** `SELECT ... ORDER BY action_id`. */
    method PendingCommits() returns (found: seq<Option<ActionRecord>>)
      ensures |found| == |PendingRows(rows)|
      ensures forall i :: 0 <= i < |found| ==> found[i] == SqlGet(rows, Sorted(CodePoint, PendingRows(rows))[i])
    {
      hide RecordOf, PendingRows, Sorted;
      var ids := Sorted(CodePoint, PendingRows(rows));
      found := [];
      for i := 0 to |ids|
        invariant |found| == i
        invariant forall j :: 0 <= j < i ==> found[j] == SqlGet(rows, ids[j])
      {
        var record := Get(ids[i]);
        found := found + [record];
      }
    }
  }

  function SqlClaim(rows: map<string, Row>, r: ActionRecord): (map<string, Row>, Option<ActionRecord>)
    requires Storable(r)
  {
    if r.actionId in rows then (rows, RecordOf(rows[r.actionId])) else (rows[r.actionId := Values(r)], None)
  }

  function SqlGet(rows: map<string, Row>, id: string): Option<ActionRecord> {
    if id in rows then RecordOf(rows[id]) else None
  }

  function SqlPut(rows: map<string, Row>, r: ActionRecord): (map<string, Row>, Result<(), ErrorCode>)
    requires Storable(r)
  {
    if r.actionId in rows then (rows[r.actionId := Values(r)], Ok(())) else (rows, Err(ActionStateInvalid))
  }

  function SqlDelete(rows: map<string, Row>, id: string, expected: ActionState): (map<string, Row>, Result<(), ErrorCode>) {
    if id in rows && rows[id].state == StateText(expected) then (rows - {id}, Ok(())) else (rows, Err(ActionStateInvalid))
  }

  // ------------------------------------------------------------- refinement

  datatype StoreCall =
    | CallClaim(record: ActionRecord)
    | CallGet(id: string)
    | CallPut(record: ActionRecord)
    | CallDelete(id: string, expected: ActionState)
    | CallPending

  datatype StoreAnswer =
    | Found(record: Option<ActionRecord>)
    | Done(outcome: Result<(), ErrorCode>)
    | Listed(records: map<string, ActionRecord>)

  /** The in-memory store as a function. */
  function MemStep(m: map<string, ActionRecord>, call: StoreCall): (map<string, ActionRecord>, StoreAnswer) {
    match call
    case CallClaim(r) =>
      if r.actionId in m then (m, Found(Some(m[r.actionId]))) else (m[r.actionId := r], Found(None))
    case CallGet(id) => (m, Found(if id in m then Some(m[id]) else None))
    case CallPut(r) => (m[r.actionId := r], Done(Ok(())))
    case CallDelete(id, expected) =>
      if id in m && m[id].state == expected then (m - {id}, Done(Ok(()))) else (m, Done(Err(ActionStateInvalid)))
    case CallPending => (m, Listed(PendingOf(m)))
  }

  predicate CallStorable(call: StoreCall) {
    (call.CallClaim? || call.CallPut?) ==> Survives(call.record)
  }

  predicate Survives(r: ActionRecord) {
    Storable(r) && (r.proposal.Some? ==> Truthy(r.proposal.value))
  }

  /** The SQLite store as a function. */
  function SqlStep(rows: map<string, Row>, call: StoreCall): (map<string, Row>, StoreAnswer)
    requires CallStorable(call)
  {
    match call
    case CallClaim(r) => var (rows', found) := SqlClaim(rows, r); (rows', Found(found))
    case CallGet(id) => (rows, Found(SqlGet(rows, id)))
    case CallPut(r) => var (rows', outcome) := SqlPut(rows, r); (rows', Done(outcome))
    case CallDelete(id, expected) => var (rows', outcome) := SqlDelete(rows, id, expected); (rows', Done(outcome))
    case CallPending =>
      (rows, Listed(map id | id in PendingRows(rows) && RecordOf(rows[id]).Some? :: RecordOf(rows[id]).value))
  }

  /** The table holds exactly these records. */
  ghost predicate Represents(rows: map<string, Row>, m: map<string, ActionRecord>) {
    && rows.Keys == m.Keys
    && forall id :: id in m ==> Survives(m[id]) && rows[id] == Values(m[id])
  }

  lemma RepresentedReads(rows: map<string, Row>, m: map<string, ActionRecord>, id: string)
    requires Represents(rows, m) && id in m
    ensures RecordOf(rows[id]) == Some(m[id])
    ensures forall s :: rows[id].state == StateText(s) <==> m[id].state == s
  {
    hide RecordOf, StateText, StateOf;
    RowRoundTripIff(m[id]);
    forall s | rows[id].state == StateText(s) ensures m[id].state == s {
      StateRoundTrip(s);
      StateRoundTrip(m[id].state);
    }
  }

  /** From equal contents, the two stores answer a call alike and keep equal contents, exactly when
      the call is not a `put` for an id that was never claimed. */
  lemma StepRefines(rows: map<string, Row>, m: map<string, ActionRecord>, call: StoreCall)
    requires Represents(rows, m) && CallStorable(call)
    ensures Represents(SqlStep(rows, call).0, MemStep(m, call).0) && SqlStep(rows, call).1 == MemStep(m, call).1
      <==> !(call.CallPut? && call.record.actionId !in m)
  {
    hide RecordOf, StateText, StateOf, Values, Storable;
    match call
    case CallClaim(r) =>
      if r.actionId in m {
        RepresentedReads(rows, m, r.actionId);
      }
    case CallGet(id) =>
      if id in m {
        RepresentedReads(rows, m, id);
      }
    case CallPut(r) =>
    case CallDelete(id, expected) =>
      if id in m {
        RepresentedReads(rows, m, id);
      }
    case CallPending =>
      PendingAgree(rows, m);
  }

  lemma PendingAgree(rows: map<string, Row>, m: map<string, ActionRecord>)
    requires Represents(rows, m)
    ensures (map id | id in PendingRows(rows) && RecordOf(rows[id]).Some? :: RecordOf(rows[id]).value) == PendingOf(m)
  {
    hide RecordOf, StateOf, Values, Storable, Truthy;
    forall id | id in m
      ensures RecordOf(rows[id]) == Some(m[id]) && (id in PendingRows(rows) <==> Pending(m[id].state))
    {
      RepresentedReads(rows, m, id);
      assert StateText(Committing) == "COMMITTING" && StateText(OutcomeUnknown) == "COMMIT_OUTCOME_UNKNOWN";
    }
  }

  function MemRun(m: map<string, ActionRecord>, calls: seq<StoreCall>): (map<string, ActionRecord>, seq<StoreAnswer>)
    decreases |calls|
  {
    if calls == [] then (m, [])
    else
      var (m', answer) := MemStep(m, calls[0]);
      var (m'', answers) := MemRun(m', calls[1..]);
      (m'', [answer] + answers)
  }

  function SqlRun(rows: map<string, Row>, calls: seq<StoreCall>): (map<string, Row>, seq<StoreAnswer>)
    requires forall i :: 0 <= i < |calls| ==> CallStorable(calls[i])
    decreases |calls|
  {
    if calls == [] then (rows, [])
    else
      var (rows', answer) := SqlStep(rows, calls[0]);
      var (rows'', answers) := SqlRun(rows', calls[1..]);
      (rows'', [answer] + answers)
  }

  /** Every `put` in the sequence is for an id that is present when it is made. */
  ghost predicate PutsPresent(m: map<string, ActionRecord>, calls: seq<StoreCall>)
    decreases |calls|
  {
    calls == [] ||
    ((calls[0].CallPut? ==> calls[0].record.actionId in m) && PutsPresent(MemStep(m, calls[0]).0, calls[1..]))
  }

  /** Over any sequence of calls a gateway can make, the SQLite store answers like the in-memory one. */
  lemma {:induction false} SqliteRefinesMemory(rows: map<string, Row>, m: map<string, ActionRecord>, calls: seq<StoreCall>)
    requires Represents(rows, m) && PutsPresent(m, calls)
    requires forall i :: 0 <= i < |calls| ==> CallStorable(calls[i])
    ensures SqlRun(rows, calls).1 == MemRun(m, calls).1
    ensures Represents(SqlRun(rows, calls).0, MemRun(m, calls).0)
    decreases |calls|
  {
    hide SqlStep, MemStep, Represents, CallStorable;
    if calls != [] {
      StepRefines(rows, m, calls[0]);
      SqliteRefinesMemory(SqlStep(rows, calls[0]).0, MemStep(m, calls[0]).0, calls[1..]);
    }
  }
}

/** `assert_proposal_matches_transport`: when a received proposal counts as the transported one, and
    what that leaves open. */
module TransportMatch {
  import opened Prelude
  import opened Canonical
  import opened Doubles
  import opened PythonEquality
  import opened Proposals
  import opened Transport

  // ---------------------------------------------------------------- matching

  const VALUE_ERROR := OtherCode("ValueError")

  /** One element of an iterable handed to `dict`. */
  function PairOf(v: Value): Result<(Value, Value), ErrorCode> {
    match v
    case Str(s) => if |s| == 2 then Ok((Str([s[0]]), Str([s[1]]))) else Err(VALUE_ERROR)
    case List(items) => if |items| == 2 then Ok((items[0], items[1])) else Err(VALUE_ERROR)
    case Dict(_) => Err(VALUE_ERROR)
    case _ => Err(TYPE_ERROR)
  }

  /** `dict(items)`: later pairs win. */
  function PairsToDict(items: seq<Value>): Result<Value, ErrorCode> {
    if items == [] then Ok(Dict(map[]))
    else
      var front := PairsToDict(items[..|items| - 1]);
      if front.Err? then front
      else
        var pair := PairOf(items[|items| - 1]);
        if pair.Err? then Err(pair.error)
        else
          var (k, x) := pair.value;
          if k.List? || k.Dict? || k.ForeignKeyDict? then Err(TYPE_ERROR)
          else if k.Str? && front.value.Dict? then Ok(Dict(front.value.members[k.s := x]))
          else Ok(ForeignKeyDict)
  }

  /** `dict(proposal.metadata)` of whatever the envelope holds there. */
  function AsDict(v: Value): Result<Value, ErrorCode> {
    match v
    case Dict(_) => Ok(v)
    case ForeignKeyDict => Ok(v)
    case List(items) => PairsToDict(items)
    case Str(s) => if s == "" then Ok(Dict(map[])) else Err(VALUE_ERROR)
    case _ => Err(TYPE_ERROR)
  }

  /** `assert_proposal_matches_transport`. */
  function Match(p: Proposal, transported: RawProposal): Result<(), ErrorCode> {
    match AsDict(transported.metadata)
    case Err(e) => Err(e)
    case Ok(metadata) =>
      if PythonEqual(ProposalDocument(p), RawMembers(transported.(metadata := metadata)))
      then Ok(()) else Err(TransportProposalMismatch)
  }

  lemma NormalMembers(a: RawProposal, b: RawProposal)
    ensures PythonEqual(RawMembers(a), RawMembers(b)) <==>
      && PythonEqual(a.actionId, b.actionId) && PythonEqual(a.action, b.action) && PythonEqual(a.resource, b.resource)
      && PythonEqual(a.parametersDigest, b.parametersDigest) && PythonEqual(a.metadata, b.metadata)
  {
    hide Normal;
    var m, n := RawMembers(a).members, RawMembers(b).members;
    NormalOfDict(m);
    NormalOfDict(n);
    var x, y := Normal(Dict(m)).members, Normal(Dict(n)).members;
    assert m.Keys == PROPOSAL_KEYS && n.Keys == PROPOSAL_KEYS;
    if x == y {
      assert x["action_id"] == y["action_id"] && x["action"] == y["action"] && x["resource"] == y["resource"];
      assert x["parameters_digest"] == y["parameters_digest"] && x["metadata"] == y["metadata"];
    }
    if && PythonEqual(a.actionId, b.actionId) && PythonEqual(a.action, b.action) && PythonEqual(a.resource, b.resource)
       && PythonEqual(a.parametersDigest, b.parametersDigest) && PythonEqual(a.metadata, b.metadata) {
      forall k | k in x ensures x[k] == y[k] {
        assert k in PROPOSAL_KEYS;
      }
      assert x == y;
    }
  }

  lemma NormalOfDict(m: map<string, Value>)
    ensures Normal(Dict(m)).Dict? && Normal(Dict(m)).members.Keys == m.Keys
    ensures forall k :: k in m ==> Normal(Dict(m)).members[k] == Normal(m[k])
  {
  }

  lemma RawDocument(p: Proposal)
    ensures RawMembers(Raw(p)) == ProposalDocument(p)
  {
    assert RawMembers(Raw(p)).members == ProposalDocument(p).members;
  }

  /** A received proposal matches exactly when all five members agree, the metadata up to Python's
      equality of booleans and integers. */
  lemma MatchIff(p: Proposal, transported: RawProposal)
    ensures Match(p, transported).Ok? <==>
      && transported.actionId == Str(p.actionId) && transported.action == Str(p.action)
      && transported.resource == Str(p.resource) && transported.parametersDigest == Str(p.parametersDigest)
      && AsDict(transported.metadata).Ok? && PythonEqual(Dict(p.metadata), AsDict(transported.metadata).value)
  {
    hide AsDict, RawMembers, ProposalDocument, PythonEqual;
    if AsDict(transported.metadata).Ok? {
      RawDocument(p);
      NormalMembers(Raw(p), transported.(metadata := AsDict(transported.metadata).value));
      TextIsExact(p.actionId, transported.actionId);
      TextIsExact(p.action, transported.action);
      TextIsExact(p.resource, transported.resource);
      TextIsExact(p.parametersDigest, transported.parametersDigest);
    }
  }

  lemma TextIsExact(s: string, v: Value)
    ensures PythonEqual(Str(s), v) <==> v == Str(s)
  {
  }

  /** Only the transported proposal itself matches, of all JSON metadata, exactly when its metadata is
      rigid: no boolean, no integral float, no integer that is also a float. */
  lemma MatchIsExactIff(p: Proposal)
    requires Json(Dict(p.metadata))
    ensures (forall q: Proposal :: Json(Dict(q.metadata)) && Match(q, Raw(p)).Ok? ==> q == p) <==> Rigid(Dict(p.metadata))
  {
    hide Match, Rigid, Json, Bitless, PythonEqual;
    if Rigid(Dict(p.metadata)) {
      forall q: Proposal | Json(Dict(q.metadata)) && Match(q, Raw(p)).Ok? ensures q == p {
        MatchIff(q, Raw(p));
        PythonEqualSymmetric(Dict(p.metadata), Dict(q.metadata));
        EqualIsSame(Dict(p.metadata), Dict(q.metadata));
      }
    } else {
      var w := LooseTwin(Dict(p.metadata));
      var q := Twin(p, w);
    }
  }

  /** Of the proposals that `execute` can digest, exactly when its metadata holds no boolean and neither
      0 nor 1; otherwise one with another digest matches as well. */
  lemma DigestibleMatchIsExactIff(p: Proposal)
    requires ProposalDigest(p).Ok?
    ensures (forall q :: ProposalDigest(q).Ok? && Match(q, Raw(p)).Ok? ==> q == p) <==> Bitless(Dict(p.metadata))
    ensures !Bitless(Dict(p.metadata)) ==> exists q :: DigestsApart(p, q) && Match(q, Raw(p)).Ok?
  {
    hide Match, Rigid, Json, Bitless, PythonEqual, ProposalDigest, ProposalDocument, Accepted;
    DigestExistsIff(p);
    if Bitless(Dict(p.metadata)) {
      forall q | ProposalDigest(q).Ok? && Match(q, Raw(p)).Ok? ensures q == p {
        DigestExistsIff(q);
        MatchIff(q, Raw(p));
        PythonEqualSymmetric(Dict(p.metadata), Dict(q.metadata));
        EqualIsSame(Dict(p.metadata), Dict(q.metadata));
      }
    } else {
      var w := BitTwin(Dict(p.metadata));
      var q := Twin(p, w);
      DigestExistsIff(q);
      if ProposalDigest(q) == ProposalDigest(p) {
        DigestIdentifiesProposal(p, q);
      }
      assert DigestsApart(p, q);
    }
  }

  ghost predicate DigestsApart(p: Proposal, q: Proposal) {
    ProposalDigest(p).Ok? && ProposalDigest(q).Ok? && ProposalDigest(q) != ProposalDigest(p) && q.actionId == p.actionId
  }

  lemma Twin(p: Proposal, w: Value) returns (q: Proposal)
    requires w.Dict? && w != Dict(p.metadata) && PythonEqual(Dict(p.metadata), w)
    ensures q == p.(metadata := w.members) && q != p && Match(q, Raw(p)).Ok?
  {
    hide Match, PythonEqual;
    q := p.(metadata := w.members);
    PythonEqualSymmetric(Dict(p.metadata), w);
    MatchIff(q, Raw(p));
  }

  lemma BitIsLoose(k: string)
    ensures PythonEqual(Dict(map[k := Bool(true)]), Dict(map[k := Int(1)]))
  {
    assert Normal(Dict(map[k := Bool(true)])).members == Normal(Dict(map[k := Int(1)])).members;
  }

  /** True and 1 in one place: the receiver may act on metadata the sender did not write. */
  lemma TrueMatchesOne(sent: Proposal, received: Proposal)
    requires sent.metadata == map["approved" := Int(1)]
    requires received == sent.(metadata := map["approved" := Bool(true)])
    ensures Match(received, Raw(sent)).Ok? && received != sent
  {
    hide Match, PythonEqual;
    BitIsLoose("approved");
    MatchIff(received, Raw(sent));
    assert received.metadata["approved"] != sent.metadata["approved"];
  }

  /** 2.0 for a transported 2: it matches, although `execute` would refuse to digest it. */
  lemma FloatMatchesInteger(sent: Proposal, received: Proposal, two: Double)
    requires two == 2.0 && sent.metadata == map["amount" := Int(2)]
    requires received == sent.(metadata := map["amount" := Float(two)])
    ensures Match(received, Raw(sent)).Ok? && received != sent && ProposalDigest(received).Err?
  {
    hide Match, PythonEqual, ProposalDigest;
    FloatIsLoose("amount", two);
    MatchIff(received, Raw(sent));
    assert received.metadata["amount"] != sent.metadata["amount"];
    DigestExistsIff(received);
    assert !Accepted(received.metadata["amount"]);
  }

  lemma FloatIsLoose(k: string, two: Double)
    requires two == 2.0
    ensures PythonEqual(Dict(map[k := Float(two)]), Dict(map[k := Int(2)]))
  {
    assert Normal(Dict(map[k := Float(two)])).members == Normal(Dict(map[k := Int(2)])).members;
  }
}

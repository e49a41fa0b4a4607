/** revocation.py: the status cache and the evaluation of a lineage. */
module Revocation {
  import opened Prelude
  import opened Delegation

  datatype StatusRecord = StatusRecord(
    capsuleDigest: string,
    checkedAt: int,
    revoked: bool,
    cascade: bool,
    authenticated: bool)

  datatype ProviderReply = Status(record: StatusRecord) | ProviderRaises(code: ErrorCode) | ProviderFails

  /** Endpoint and digest to reply. */
  type Provider = (string, string) -> ProviderReply

  type Cache = map<string, StatusRecord>

  datatype Source = Live | Cached | Offline

  datatype StatusEvidence = StatusEvidence(capsuleDigest: string, freshness: Freshness, checkedAt: Option<int>, source: Source)

  datatype RevocationResult = RevocationResult(evidence: seq<StatusEvidence>, offlineResidualRisk: bool)

  /** `cache`, for an authenticated record. */
  function Remember(cache: Cache, r: StatusRecord): Cache {
    if r.capsuleDigest !in cache || r.checkedAt >= cache[r.capsuleDigest].checkedAt
    then cache[r.capsuleDigest := r] else cache
  }

  /** `_fetch`. */
  function Fetch(cache: Cache, digest: string, endpoint: string, provider: Option<Provider>): (Cache, Result<StatusRecord, ErrorCode>) {
    if provider.None? then (cache, Err(StatusUnavailable))
    else
      match provider.value(endpoint, digest)
      case ProviderRaises(code) => (cache, Err(code))
      case ProviderFails => (cache, Err(StatusUnavailable))
      case Status(r) =>
        if r.capsuleDigest != digest || !r.authenticated then (cache, Err(StatusUnavailable))
        else (Remember(cache, r), Ok(r))
  }

  datatype Consulted = Consulted(record: Option<StatusRecord>, source: Source)

  function Wrap(fetched: (Cache, Result<StatusRecord, ErrorCode>)): (Cache, Result<Consulted, ErrorCode>) {
    match fetched.1
    case Err(e) => (fetched.0, Err(e))
    case Ok(r) => (fetched.0, Ok(Consulted(Some(r), Live)))
  }

  /** `_record_for`. */
  function RecordFor(cache: Cache, digest: string, freshness: Freshness, now: int, provider: Option<Provider>,
                     allowOffline: bool): (Cache, Result<Consulted, ErrorCode>)
  {
    match freshness
    case OnlineStrict(endpoint) => Wrap(Fetch(cache, digest, endpoint, provider))
    case BoundedStale(endpoint, maxStaleness) =>
      if digest in cache && now - cache[digest].checkedAt <= maxStaleness then
        if cache[digest].authenticated then (cache, Ok(Consulted(Some(cache[digest]), Cached)))
        else (cache, Err(StatusUnavailable))
      else if provider.None? then (cache, Err(RevocationStatusStale))
      else Wrap(Fetch(cache, digest, endpoint, provider))
    case OfflineUntilExpiry =>
      if !allowOffline then (cache, Err(OfflineProfileDisallowed))
      else if digest in cache then
        if cache[digest].authenticated then (cache, Ok(Consulted(Some(cache[digest]), Cached)))
        else (cache, Err(StatusUnavailable))
      else (cache, Ok(Consulted(None, Offline)))
  }

  predicate Blocks(c: Consulted, last: bool) {
    c.record.Some? && c.record.value.revoked && (last || c.record.value.cascade)
  }

  function EvidenceOf(digest: string, freshness: Freshness, c: Consulted): StatusEvidence {
    StatusEvidence(digest, freshness, if c.record.Some? then Some(c.record.value.checkedAt) else None, c.source)
  }

  /** `evaluate` over what is left of the lineage; the leaf is its last entry. */
  function EvaluateFrom(hash: Capsule -> string, cache: Cache, lineage: seq<Capsule>, now: int,
                        provider: Option<Provider>, allowOffline: bool): (Cache, Result<RevocationResult, ErrorCode>)
    decreases |lineage|
  {
    if lineage == [] then (cache, Ok(RevocationResult([], false)))
    else
      var digest, freshness := hash(lineage[0]), lineage[0].freshness;
      var (cache', consulted) := RecordFor(cache, digest, freshness, now, provider, allowOffline);
      match consulted
      case Err(e) => (cache', Err(e))
      case Ok(c) =>
        if Blocks(c, |lineage| == 1) then (cache', Err(Revoked))
        else
          var (cache'', rest) := EvaluateFrom(hash, cache', lineage[1..], now, provider, allowOffline);
          match rest
          case Err(e) => (cache'', Err(e))
          case Ok(r) =>
            (cache'', Ok(RevocationResult([EvidenceOf(digest, freshness, c)] + r.evidence,
                                          freshness.OfflineUntilExpiry? || r.offlineResidualRisk)))
  }

  // ---------------------------------------------------------------- classes

  class RevocationEvaluator {
    var statuses: Cache

    constructor ()
      ensures statuses == map[]
    {
      statuses := map[];
    }

    method Cache(record: StatusRecord) returns (r: Result<(), ErrorCode>)
      modifies this
      ensures !record.authenticated ==> r == Err(StatusUnavailable) && statuses == old(statuses)
      ensures record.authenticated ==> r == Ok(()) && statuses == Remember(old(statuses), record)
    {
      if !record.authenticated {
        return Err(StatusUnavailable);
      }
      if record.capsuleDigest !in statuses || record.checkedAt >= statuses[record.capsuleDigest].checkedAt {
        statuses := statuses[record.capsuleDigest := record];
      }
      return Ok(());
    }

    method FetchStatus(digest: string, endpoint: string, provider: Option<Provider>) returns (r: Result<StatusRecord, ErrorCode>)
      modifies this
      ensures (statuses, r) == Fetch(old(statuses), digest, endpoint, provider)
    {
      if provider.None? {
        return Err(StatusUnavailable);
      }
      var reply := provider.value(endpoint, digest);
      match reply {
        case ProviderRaises(code) => return Err(code);
        case ProviderFails => return Err(StatusUnavailable);
        case Status(record) =>
          if record.capsuleDigest != digest {
            return Err(StatusUnavailable);
          }
          var cached := Cache(record);
          if cached.Err? {
            return Err(cached.error);
          }
          return Ok(record);
      }
    }

    method StatusFor(digest: string, freshness: Freshness, now: int, provider: Option<Provider>, allowOffline: bool)
      returns (r: Result<Consulted, ErrorCode>)
      modifies this
      ensures (statuses, r) == RecordFor(old(statuses), digest, freshness, now, provider, allowOffline)
    {
      match freshness {
        case OnlineStrict(endpoint) =>
          var fetched := FetchStatus(digest, endpoint, provider);
          return if fetched.Ok? then Ok(Consulted(Some(fetched.value), Live)) else Err(fetched.error);
        case BoundedStale(endpoint, maxStaleness) =>
          if digest in statuses && now - statuses[digest].checkedAt <= maxStaleness {
            return if statuses[digest].authenticated then Ok(Consulted(Some(statuses[digest]), Cached))
                   else Err(StatusUnavailable);
          }
          if provider.None? {
            return Err(RevocationStatusStale);
          }
          var fetched := FetchStatus(digest, endpoint, provider);
          return if fetched.Ok? then Ok(Consulted(Some(fetched.value), Live)) else Err(fetched.error);
        case OfflineUntilExpiry =>
          if !allowOffline {
            return Err(OfflineProfileDisallowed);
          }
          if digest !in statuses {
            return Ok(Consulted(None, Offline));
          }
          return if statuses[digest].authenticated then Ok(Consulted(Some(statuses[digest]), Cached))
                 else Err(StatusUnavailable);
      }
    }

    /** `evaluate` of a lineage, ancestors first. */
    method Evaluate(hash: Capsule -> string, lineage: seq<Capsule>, now: int, provider: Option<Provider>,
                    allowOffline: bool) returns (r: Result<RevocationResult, ErrorCode>)
      modifies this
      ensures (statuses, r) == EvaluateFrom(hash, old(statuses), lineage, now, provider, allowOffline)
    {
      hide RecordFor;
      var evidence: seq<StatusEvidence> := [];
      var offlineRisk := false;
      PrependNothing(EvaluateFrom(hash, statuses, lineage, now, provider, allowOffline));
      assert lineage[0..] == lineage;
      for i := 0 to |lineage|
        invariant Prepend(evidence, offlineRisk, EvaluateFrom(hash, statuses, lineage[i..], now, provider, allowOffline))
               == EvaluateFrom(hash, old(statuses), lineage, now, provider, allowOffline)
      {
        assert lineage[i..][0] == lineage[i] && lineage[i..][1..] == lineage[i + 1..];
        var item := lineage[i];
        var digest := hash(item);
        var consulted := StatusFor(digest, item.freshness, now, provider, allowOffline);
        if consulted.Err? {
          return Err(consulted.error);
        }
        if item.freshness.OfflineUntilExpiry? {
          offlineRisk := true;
        }
        ghost var earlier := evidence;
        evidence := evidence + [EvidenceOf(digest, item.freshness, consulted.value)];
        if Blocks(consulted.value, i == |lineage| - 1) {
          return Err(Revoked);
        }
        PrependStep(earlier, evidence[|earlier|],
                    EvaluateFrom(hash, statuses, lineage[i + 1..], now, provider, allowOffline));
      }
      assert lineage[|lineage|..] == [];
      assert evidence + [] == evidence;
      return Ok(RevocationResult(evidence, offlineRisk));
    }
  }

  ghost function Prepend(evidence: seq<StatusEvidence>, risk: bool, r: (Cache, Result<RevocationResult, ErrorCode>))
    : (Cache, Result<RevocationResult, ErrorCode>)
  {
    match r.1
    case Err(_) => r
    case Ok(v) => (r.0, Ok(RevocationResult(evidence + v.evidence, risk || v.offlineResidualRisk)))
  }

  lemma PrependNothing(r: (Cache, Result<RevocationResult, ErrorCode>))
    ensures Prepend([], false, r) == r
  {
    if r.1.Ok? {
      assert [] + r.1.value.evidence == r.1.value.evidence;
    }
  }

  lemma PrependStep(evidence: seq<StatusEvidence>, e: StatusEvidence, r: (Cache, Result<RevocationResult, ErrorCode>))
    ensures r.1.Ok? ==> (evidence + [e]) + r.1.value.evidence == evidence + ([e] + r.1.value.evidence)
  {
  }

  // -------------------------------------------------------------- properties

  /** A provider's reply that lets a capsule through under the online-strict profile. */
  ghost predicate ReportedClear(hash: Capsule -> string, c: Capsule, last: bool, provider: Option<Provider>) {
    && provider.Some?
    && c.freshness.OnlineStrict?
    && var reply := provider.value(c.freshness.endpoint, hash(c));
       && reply.Status?
       && reply.record.capsuleDigest == hash(c) && reply.record.authenticated
       && !(reply.record.revoked && (last || reply.record.cascade))
  }

  /** An evaluation that returns saw every online-strict capsule reported live and not revoked: the
      leaf not at all, an ancestor not with cascade. */
  lemma {:induction false} EvaluatedOnlineIsClear(hash: Capsule -> string, cache: Cache, lineage: seq<Capsule>, now: int,
                                                  provider: Option<Provider>, allowOffline: bool, k: nat)
    requires EvaluateFrom(hash, cache, lineage, now, provider, allowOffline).1.Ok?
    requires k < |lineage| && lineage[k].freshness.OnlineStrict?
    ensures ReportedClear(hash, lineage[k], k == |lineage| - 1, provider)
    decreases |lineage|
  {
    if k > 0 {
      var cache' := RecordFor(cache, hash(lineage[0]), lineage[0].freshness, now, provider, allowOffline).0;
      EvaluatedOnlineIsClear(hash, cache', lineage[1..], now, provider, allowOffline, k - 1);
    }
  }

  /** Where every capsule is online-strict, these reports are also enough. */
  lemma {:induction false} OnlineEvaluationIff(hash: Capsule -> string, cache: Cache, lineage: seq<Capsule>, now: int,
                                               provider: Option<Provider>, allowOffline: bool)
    requires forall i :: 0 <= i < |lineage| ==> lineage[i].freshness.OnlineStrict?
    ensures EvaluateFrom(hash, cache, lineage, now, provider, allowOffline).1.Ok? <==>
      forall k :: 0 <= k < |lineage| ==> ReportedClear(hash, lineage[k], k == |lineage| - 1, provider)
    decreases |lineage|
  {
    hide ReportedClear;
    if EvaluateFrom(hash, cache, lineage, now, provider, allowOffline).1.Ok? {
      forall k | 0 <= k < |lineage| ensures ReportedClear(hash, lineage[k], k == |lineage| - 1, provider) {
        EvaluatedOnlineIsClear(hash, cache, lineage, now, provider, allowOffline, k);
      }
    } else if forall k :: 0 <= k < |lineage| ==> ReportedClear(hash, lineage[k], k == |lineage| - 1, provider) {
      OnlineEvaluates(hash, cache, lineage, now, provider, allowOffline);
    }
  }

  lemma {:induction false} OnlineEvaluates(hash: Capsule -> string, cache: Cache, lineage: seq<Capsule>, now: int,
                                           provider: Option<Provider>, allowOffline: bool)
    requires forall k :: 0 <= k < |lineage| ==> ReportedClear(hash, lineage[k], k == |lineage| - 1, provider)
    ensures EvaluateFrom(hash, cache, lineage, now, provider, allowOffline).1.Ok?
    decreases |lineage|
  {
    if lineage != [] {
      assert ReportedClear(hash, lineage[0], 0 == |lineage| - 1, provider);
      var cache' := RecordFor(cache, hash(lineage[0]), lineage[0].freshness, now, provider, allowOffline).0;
      forall k | 0 <= k < |lineage| - 1
        ensures ReportedClear(hash, lineage[1..][k], k == |lineage[1..]| - 1, provider)
      {
        assert ReportedClear(hash, lineage[k + 1], k + 1 == |lineage| - 1, provider);
      }
      OnlineEvaluates(hash, cache', lineage[1..], now, provider, allowOffline);
    }
  }

  // ------------------------------------------------------------------- cache

  /** The cache after these authenticated records were offered to it in turn. */
  function RememberAll(cache: Cache, offered: seq<StatusRecord>): Cache {
    if offered == [] then cache
    else Remember(RememberAll(cache, offered[..|offered| - 1]), offered[|offered| - 1])
  }

  /** Entry `i` is the latest-checked record offered for its digest; of equally recent ones, the last. */
  ghost predicate Latest(offered: seq<StatusRecord>, i: int) {
    0 <= i < |offered| &&
    forall j :: 0 <= j < |offered| && offered[j].capsuleDigest == offered[i].capsuleDigest ==>
      offered[j].checkedAt < offered[i].checkedAt || (offered[j].checkedAt == offered[i].checkedAt && j <= i)
  }

  /** Over any sequence of offers the cache holds, per digest, exactly the latest-checked record. */
  lemma {:induction false} CacheHoldsLatest(offered: seq<StatusRecord>)
    ensures forall i :: 0 <= i < |offered| ==> offered[i].capsuleDigest in RememberAll(map[], offered)
    ensures forall d :: d in RememberAll(map[], offered) ==>
      exists i :: Latest(offered, i) && offered[i].capsuleDigest == d && RememberAll(map[], offered)[d] == offered[i]
  {
    if offered != [] {
      var n := |offered| - 1;
      var front, r := offered[..n], offered[n];
      CacheHoldsLatest(front);
      var before, after := RememberAll(map[], front), RememberAll(map[], offered);
      forall i | 0 <= i < |offered| ensures offered[i].capsuleDigest in after {
        if i < n {
          assert front[i] == offered[i];
        }
      }
      forall d | d in after
        ensures exists i :: Latest(offered, i) && offered[i].capsuleDigest == d && after[d] == offered[i]
      {
        if d in before {
          var i :| Latest(front, i) && front[i].capsuleDigest == d && before[d] == front[i];
          LatestExtends(offered, i);
        } else {
          NewDigestLatest(offered, front, before);
        }
      }
    }
  }

  lemma LatestExtends(offered: seq<StatusRecord>, i: int)
    requires offered != [] && Latest(offered[..|offered| - 1], i)
    ensures var n := |offered| - 1;
      if offered[n].capsuleDigest == offered[i].capsuleDigest && offered[n].checkedAt >= offered[i].checkedAt
      then Latest(offered, n) else Latest(offered, i)
  {
    var n := |offered| - 1;
    var front := offered[..n];
    assert forall j :: 0 <= j < n ==> front[j] == offered[j];
  }

  lemma NewDigestLatest(offered: seq<StatusRecord>, front: seq<StatusRecord>, held: Cache)
    requires offered != [] && front == offered[..|offered| - 1]
    requires offered[|offered| - 1].capsuleDigest !in held
    requires forall i :: 0 <= i < |front| ==> front[i].capsuleDigest in held
    ensures Latest(offered, |offered| - 1)
  {
    assert forall j :: 0 <= j < |front| ==> front[j] == offered[j];
  }

  /** The provider sent this authenticated record for its digest. */
  ghost predicate Sent(provider: Option<Provider>, r: StatusRecord) {
    && r.authenticated && provider.Some?
    && exists endpoint :: provider.value(endpoint, r.capsuleDigest) == Status(r)
  }

  lemma LookupOffers(cache: Cache, digest: string, freshness: Freshness, now: int, provider: Option<Provider>,
                     allowOffline: bool) returns (offered: seq<StatusRecord>)
    ensures RecordFor(cache, digest, freshness, now, provider, allowOffline).0 == RememberAll(cache, offered)
    ensures forall r :: r in offered ==> Sent(provider, r)
  {
    var (cache', consulted) := RecordFor(cache, digest, freshness, now, provider, allowOffline);
    offered := [];
    if consulted.Ok? && consulted.value.source == Live {
      var r := consulted.value.record.value;
      assert provider.value(freshness.endpoint, digest) == Status(r);
      offered := [r];
      assert offered[..0] == [];
    }
  }

  /** What an evaluation leaves in the cache is what offering it the fetched records would. */
  lemma {:induction false} EvaluationOffers(hash: Capsule -> string, cache: Cache, lineage: seq<Capsule>, now: int,
                                            provider: Option<Provider>, allowOffline: bool)
    returns (offered: seq<StatusRecord>)
    ensures EvaluateFrom(hash, cache, lineage, now, provider, allowOffline).0 == RememberAll(cache, offered)
    ensures forall r :: r in offered ==> Sent(provider, r)
    decreases |lineage|
  {
    hide RecordFor, Sent, Blocks;
    offered := [];
    if lineage != [] {
      var digest, freshness := hash(lineage[0]), lineage[0].freshness;
      offered := LookupOffers(cache, digest, freshness, now, provider, allowOffline);
      var (cache', consulted) := RecordFor(cache, digest, freshness, now, provider, allowOffline);
      if consulted.Ok? && !Blocks(consulted.value, |lineage| == 1) {
        var rest := EvaluationOffers(hash, cache', lineage[1..], now, provider, allowOffline);
        RememberAppend(cache, offered, rest);
        offered := offered + rest;
      }
    }
  }

  lemma {:induction false} RememberAppend(cache: Cache, a: seq<StatusRecord>, b: seq<StatusRecord>)
    ensures RememberAll(cache, a + b) == RememberAll(RememberAll(cache, a), b)
  {
    if b == [] {
      assert a + b == a;
    } else {
      assert (a + b)[..|a + b| - 1] == a + b[..|b| - 1];
      RememberAppend(cache, a, b[..|b| - 1]);
    }
  }
}

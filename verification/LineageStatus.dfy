/** When a lineage passes the revocation checks, whatever mixture of freshness profiles its capsules have:
    which record each capsule rests on, and how old it may be. */
module LineageStatus {
  import opened Prelude
  import opened Delegation
  import opened Revocation

  /** The record does not stop the capsule it is about. */
  predicate Harmless(r: StatusRecord, last: bool) {
    r.authenticated && !(r.revoked && (last || r.cascade))
  }

  /** Asked about this digest at this endpoint, the provider sends an authenticated record for it. */
  predicate Sends(provider: Option<Provider>, endpoint: string, digest: string) {
    && provider.Some? && provider.value(endpoint, digest).Status?
    && provider.value(endpoint, digest).record.capsuleDigest == digest
    && provider.value(endpoint, digest).record.authenticated
  }

  predicate SendsHarmless(provider: Option<Provider>, endpoint: string, digest: string, last: bool) {
    Sends(provider, endpoint, digest) && Harmless(provider.value(endpoint, digest).record, last)
  }

  /** The cache holds a record no older than this. */
  predicate Young(cache: Cache, digest: string, now: int, maxStaleness: nat) {
    digest in cache && now - cache[digest].checkedAt <= maxStaleness
  }

  /** What one capsule needs. Online-strict: a live report. Bounded-stale: a cached record within the age
      limit, or else a live report. Offline: the local policy's leave, and no cached record against it. */
  predicate Cleared(hash: Capsule -> string, cache: Cache, c: Capsule, last: bool, now: int,
                    provider: Option<Provider>, allowOffline: bool)
  {
    var digest := hash(c);
    match c.freshness
    case OnlineStrict(endpoint) => SendsHarmless(provider, endpoint, digest, last)
    case BoundedStale(endpoint, maxStaleness) =>
      if Young(cache, digest, now, maxStaleness) then Harmless(cache[digest], last)
      else SendsHarmless(provider, endpoint, digest, last)
    case OfflineUntilExpiry => allowOffline && (digest in cache ==> Harmless(cache[digest], last))
  }

  /** The capsule's status is asked for live. */
  predicate AsksLive(cache: Cache, digest: string, freshness: Freshness, now: int) {
    match freshness
    case OnlineStrict(_) => true
    case BoundedStale(_, maxStaleness) => !Young(cache, digest, now, maxStaleness)
    case OfflineUntilExpiry => false
  }

  /** The cache once a capsule has been looked at. */
  function Learnt(hash: Capsule -> string, cache: Cache, c: Capsule, now: int, provider: Option<Provider>): Cache {
    if AsksLive(cache, hash(c), c.freshness, now) && Sends(provider, c.freshness.endpoint, hash(c))
    then Remember(cache, provider.value(c.freshness.endpoint, hash(c)).record) else cache
  }

  /** The cache as it stands when the k-th capsule is looked at. */
  function CacheAt(hash: Capsule -> string, cache: Cache, lineage: seq<Capsule>, now: int, provider: Option<Provider>,
                   k: nat): Cache
    requires k <= |lineage|
    decreases k
  {
    if k == 0 then cache else CacheAt(hash, Learnt(hash, cache, lineage[0], now, provider), lineage[1..], now, provider, k - 1)
  }

  lemma LookupIs(hash: Capsule -> string, cache: Cache, c: Capsule, last: bool, now: int, provider: Option<Provider>,
                 allowOffline: bool)
    ensures var (after, r) := RecordFor(cache, hash(c), c.freshness, now, provider, allowOffline);
      && (r.Ok? && !Blocks(r.value, last) <==> Cleared(hash, cache, c, last, now, provider, allowOffline))
      && (r.Ok? ==> after == Learnt(hash, cache, c, now, provider))
  {
  }

  /** Capsule k is cleared on the cache as it stands by then. */
  predicate ClearedAt(hash: Capsule -> string, cache: Cache, lineage: seq<Capsule>, now: int, provider: Option<Provider>,
                      allowOffline: bool, k: nat)
    requires k < |lineage|
  {
    Cleared(hash, CacheAt(hash, cache, lineage, now, provider, k), lineage[k], k == |lineage| - 1, now, provider, allowOffline)
  }

  lemma ClearedLater(hash: Capsule -> string, cache: Cache, lineage: seq<Capsule>, now: int, provider: Option<Provider>,
                     allowOffline: bool, k: nat)
    requires 0 < k < |lineage|
    ensures ClearedAt(hash, cache, lineage, now, provider, allowOffline, k)
        <==> ClearedAt(hash, Learnt(hash, cache, lineage[0], now, provider), lineage[1..], now, provider, allowOffline, k - 1)
  {
    hide Cleared, Learnt;
  }

  /** A mixed lineage passes exactly when each of its capsules is cleared, on the cache as it stands when the
      capsule is reached. */
  lemma {:induction false} EvaluationIff(hash: Capsule -> string, cache: Cache, lineage: seq<Capsule>, now: int,
                                         provider: Option<Provider>, allowOffline: bool)
    ensures var (after, r) := EvaluateFrom(hash, cache, lineage, now, provider, allowOffline);
      && (r.Ok? <==> forall k :: 0 <= k < |lineage| ==> ClearedAt(hash, cache, lineage, now, provider, allowOffline, k))
      && (r.Ok? ==> after == CacheAt(hash, cache, lineage, now, provider, |lineage|))
      && (r.Ok? ==> (r.value.offlineResidualRisk <==> exists k :: 0 <= k < |lineage| && lineage[k].freshness.OfflineUntilExpiry?))
    decreases |lineage|
  {
    hide RecordFor, Blocks, Cleared, Learnt, ClearedAt;
    if lineage != [] {
      var last := |lineage| == 1;
      var learnt := Learnt(hash, cache, lineage[0], now, provider);
      LookupIs(hash, cache, lineage[0], last, now, provider, allowOffline);
      ClearedFirst(hash, cache, lineage, now, provider, allowOffline);
      EvaluationIff(hash, learnt, lineage[1..], now, provider, allowOffline);
      forall k | 0 < k < |lineage|
        ensures ClearedAt(hash, cache, lineage, now, provider, allowOffline, k)
            <==> ClearedAt(hash, learnt, lineage[1..], now, provider, allowOffline, k - 1)
      {
        ClearedLater(hash, cache, lineage, now, provider, allowOffline, k);
      }
      forall k | 0 <= k < |lineage| - 1
        ensures ClearedAt(hash, learnt, lineage[1..], now, provider, allowOffline, k)
            <==> ClearedAt(hash, cache, lineage, now, provider, allowOffline, k + 1)
      {
      }
      OfflineSplit(lineage);
    }
  }

  lemma ClearedFirst(hash: Capsule -> string, cache: Cache, lineage: seq<Capsule>, now: int,
                     provider: Option<Provider>, allowOffline: bool)
    requires lineage != []
    ensures ClearedAt(hash, cache, lineage, now, provider, allowOffline, 0)
        <==> Cleared(hash, cache, lineage[0], |lineage| == 1, now, provider, allowOffline)
  {
    hide Cleared;
  }

  lemma OfflineSplit(lineage: seq<Capsule>)
    requires lineage != []
    ensures (exists k :: 0 <= k < |lineage| && lineage[k].freshness.OfflineUntilExpiry?) <==>
      lineage[0].freshness.OfflineUntilExpiry? ||
      exists k :: 0 <= k < |lineage[1..]| && lineage[1..][k].freshness.OfflineUntilExpiry?
  {
    if k :| 0 <= k < |lineage| && lineage[k].freshness.OfflineUntilExpiry? {
      if k > 0 {
        assert lineage[1..][k - 1] == lineage[k];
      }
    }
  }

  /** The evidence for one capsule: whose status, under which profile, as of when and from where. */
  function EvidenceFor(hash: Capsule -> string, cache: Cache, c: Capsule, now: int, provider: Option<Provider>): StatusEvidence {
    var digest := hash(c);
    if AsksLive(cache, digest, c.freshness, now) then
      StatusEvidence(digest, c.freshness,
                     if Sends(provider, c.freshness.endpoint, digest)
                     then Some(provider.value(c.freshness.endpoint, digest).record.checkedAt) else None, Live)
    else if digest in cache then StatusEvidence(digest, c.freshness, Some(cache[digest].checkedAt), Cached)
    else StatusEvidence(digest, c.freshness, None, Offline)
  }

  lemma EvidenceOfLookup(hash: Capsule -> string, cache: Cache, c: Capsule, now: int, provider: Option<Provider>,
                         allowOffline: bool)
    requires RecordFor(cache, hash(c), c.freshness, now, provider, allowOffline).1.Ok?
    ensures EvidenceOf(hash(c), c.freshness, RecordFor(cache, hash(c), c.freshness, now, provider, allowOffline).1.value)
         == EvidenceFor(hash, cache, c, now, provider)
  {
  }

  /** An evaluation that returns reports on each capsule of the lineage in turn. */
  lemma {:induction false} EvidenceTells(hash: Capsule -> string, cache: Cache, lineage: seq<Capsule>, now: int,
                                         provider: Option<Provider>, allowOffline: bool)
    requires EvaluateFrom(hash, cache, lineage, now, provider, allowOffline).1.Ok?
    ensures var evidence := EvaluateFrom(hash, cache, lineage, now, provider, allowOffline).1.value.evidence;
      && |evidence| == |lineage|
      && forall k :: 0 <= k < |lineage| ==>
           evidence[k] == EvidenceFor(hash, CacheAt(hash, cache, lineage, now, provider, k), lineage[k], now, provider)
    decreases |lineage|
  {
    hide RecordFor, Blocks, Learnt, EvidenceOf, EvidenceFor;
    if lineage != [] {
      LookupIs(hash, cache, lineage[0], |lineage| == 1, now, provider, allowOffline);
      EvidenceOfLookup(hash, cache, lineage[0], now, provider, allowOffline);
      EvidenceTells(hash, Learnt(hash, cache, lineage[0], now, provider), lineage[1..], now, provider, allowOffline);
    }
  }

  // ------------------------------------------------------- distinct digests

  predicate DistinctDigests(hash: Capsule -> string, lineage: seq<Capsule>) {
    forall i, j :: 0 <= i < j < |lineage| ==> hash(lineage[i]) != hash(lineage[j])
  }

  /** Looking at other capsules leaves a capsule's own record alone. */
  lemma {:induction false} RecordStays(hash: Capsule -> string, cache: Cache, lineage: seq<Capsule>, now: int,
                                       provider: Option<Provider>, k: nat, digest: string)
    requires k <= |lineage| && forall i :: 0 <= i < k ==> hash(lineage[i]) != digest
    ensures var later := CacheAt(hash, cache, lineage, now, provider, k);
      (digest in later <==> digest in cache) && (digest in cache ==> later[digest] == cache[digest])
    decreases k
  {
    if k > 0 {
      RecordStays(hash, Learnt(hash, cache, lineage[0], now, provider), lineage[1..], now, provider, k - 1, digest);
    }
  }

  lemma ClearedOnSameRecord(hash: Capsule -> string, a: Cache, b: Cache, c: Capsule, last: bool, now: int,
                            provider: Option<Provider>, allowOffline: bool)
    requires hash(c) in a <==> hash(c) in b
    requires hash(c) in a ==> a[hash(c)] == b[hash(c)]
    ensures Cleared(hash, a, c, last, now, provider, allowOffline) <==> Cleared(hash, b, c, last, now, provider, allowOffline)
  {
  }

  /** Where no two capsules share a digest, the cache from before the evaluation decides for each. */
  lemma DistinctEvaluationIff(hash: Capsule -> string, cache: Cache, lineage: seq<Capsule>, now: int,
                              provider: Option<Provider>, allowOffline: bool)
    requires DistinctDigests(hash, lineage)
    ensures EvaluateFrom(hash, cache, lineage, now, provider, allowOffline).1.Ok? <==>
      forall k :: 0 <= k < |lineage| ==>
        Cleared(hash, cache, lineage[k], k == |lineage| - 1, now, provider, allowOffline)
  {
    hide EvaluateFrom, Cleared, CacheAt;
    EvaluationIff(hash, cache, lineage, now, provider, allowOffline);
    forall k | 0 <= k < |lineage|
      ensures ClearedAt(hash, cache, lineage, now, provider, allowOffline, k)
          <==> Cleared(hash, cache, lineage[k], k == |lineage| - 1, now, provider, allowOffline)
    {
      RecordStays(hash, cache, lineage, now, provider, k, hash(lineage[k]));
      ClearedOnSameRecord(hash, CacheAt(hash, cache, lineage, now, provider, k), cache, lineage[k], k == |lineage| - 1, now,
                          provider, allowOffline);
    }
  }

  /** Records are kept under the digest they are about. */
  predicate Keyed(cache: Cache) {
    forall d :: d in cache ==> cache[d].capsuleDigest == d
  }

  lemma {:induction false} OffersKeepKeyed(cache: Cache, offered: seq<StatusRecord>)
    requires Keyed(cache)
    ensures Keyed(RememberAll(cache, offered))
  {
    if offered != [] {
      OffersKeepKeyed(cache, offered[..|offered| - 1]);
    }
  }

  lemma EvaluationKeepsKeyed(hash: Capsule -> string, cache: Cache, lineage: seq<Capsule>, now: int,
                             provider: Option<Provider>, allowOffline: bool)
    requires Keyed(cache)
    ensures Keyed(EvaluateFrom(hash, cache, lineage, now, provider, allowOffline).0)
  {
    hide EvaluateFrom, Keyed;
    var offered := EvaluationOffers(hash, cache, lineage, now, provider, allowOffline);
    OffersKeepKeyed(cache, offered);
  }

  /** The record a capsule rests on: authenticated, about this capsule, not against it, and either held
      before at an age the profile allows, or sent in this very call. */
  ghost predicate RestsOn(hash: Capsule -> string, cache: Cache, c: Capsule, last: bool, now: int,
                          provider: Option<Provider>, r: StatusRecord)
  {
    && r.authenticated && r.capsuleDigest == hash(c) && !(r.revoked && (last || r.cascade))
    && ((hash(c) in cache && r == cache[hash(c)] && c.freshness.BoundedStale? && now - r.checkedAt <= c.freshness.maxStaleness)
        || (hash(c) in cache && r == cache[hash(c)] && c.freshness.OfflineUntilExpiry?)
        || (!c.freshness.OfflineUntilExpiry? && provider.Some? && provider.value(c.freshness.endpoint, hash(c)) == Status(r)))
  }

  ghost predicate HasGrounds(hash: Capsule -> string, cache: Cache, c: Capsule, last: bool, now: int,
                             provider: Option<Provider>)
  {
    exists r :: RestsOn(hash, cache, c, last, now, provider, r)
  }

  lemma ClearedRestsOn(hash: Capsule -> string, cache: Cache, c: Capsule, last: bool, now: int,
                       provider: Option<Provider>, allowOffline: bool)
    requires Keyed(cache) && Cleared(hash, cache, c, last, now, provider, allowOffline)
    ensures c.freshness.OfflineUntilExpiry? ==> allowOffline
    ensures (c.freshness.OfflineUntilExpiry? && hash(c) !in cache) || HasGrounds(hash, cache, c, last, now, provider)
  {
    var d := hash(c);
    var useCache := c.freshness.OfflineUntilExpiry? || (c.freshness.BoundedStale? && Young(cache, d, now, c.freshness.maxStaleness));
    if useCache {
      if d in cache {
        assert RestsOn(hash, cache, c, last, now, provider, cache[d]);
      }
    } else {
      assert RestsOn(hash, cache, c, last, now, provider, provider.value(c.freshness.endpoint, d).record);
    }
  }
}

/** Shared vocabulary: optional values, results of operations that may raise, and the
    protocol's error codes that the modelled operations can raise. */
module Prelude {

  datatype Option<+T> = None | Some(value: T)

  /** `Err` stands for a raised exception. */
  datatype Result<+T, +E> = Ok(value: T) | Err(error: E)

  datatype ErrorCode =
    | UnsupportedSemantics
    | InvalidSignature
    | UnknownVerificationMethod
    | ParentMismatch
    | InvalidDelegationProof
    | LineageCycle
    | AuthorityExpansion
    | ObligationRemoved
    | ObligationModified
    | BudgetOverallocated
    | BudgetUnitMismatch
    | AllocationConflict
    | TemporalExpansion
    | DelegationDepthExceeded
    | WrongAudience
    | ReplayDetected
    | Revoked
    | StatusUnavailable
    | RevocationStatusStale
    | OfflineProfileDisallowed
    | InvalidGovernanceGraph
    | ActionIdConflict
    | ActionStateInvalid
    | UnauthorizedCapsuleIssuer
    | CapsuleNotYetValid
    | CapsuleExpired
    | ActionNotAuthorized
    | ObligationUnsatisfied
    | TransportInvalid
    | TransportSourceUntrusted
    | TransportDestinationMismatch
    | TransportExpired
    | TransportProposalMismatch
    | OtherCode(name: string)

  ghost predicate Distinct<T>(s: seq<T>) {
    forall i, j :: 0 <= i < j < |s| ==> s[i] != s[j]
  }

  ghost function Elements<T>(s: seq<T>): set<T> {
    set x | x in s
  }

  lemma {:induction false} DistinctSize<T>(s: seq<T>)
    requires Distinct(s)
    ensures |Elements(s)| == |s|
  {
    if s == [] {
      assert Elements(s) == {};
    } else {
      var front := s[..|s| - 1];
      var last := s[|s| - 1];
      DistinctSize(front);
      assert s == front + [last];
      assert Elements(s) == Elements(front) + {last};
      assert last !in Elements(front);
    }
  }

  lemma SubsetSize<T>(a: set<T>, b: set<T>)
    requires a <= b
    ensures |a| <= |b|
    ensures |a| == |b| ==> a == b
  {
    assert b == a + (b - a);
    assert |b| == |a| + |b - a|;
  }
}

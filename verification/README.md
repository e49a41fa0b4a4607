# Verification model of the trusted enforcement path

A Dafny 4.11 model of the Governance Capsule Protocol reference library: how a proposed action is
verified, decided, executed at most once, recovered after a crash, and carried between frameworks.
`dafny verify dfyconfig.toml` checks everything.

## What is modelled

- **Gateway** (`GatewayMachine`, `GatewayInvariant`, `GatewaySteps`, `GatewayTheorems`, `Recovery`,
  `GatewayRuns`, `GatewayReasons`, `GatewayVerdicts`, `GatewayResults`, `Reentry`, `Gateway`, `SupplierConnector`, `ActionStores`,
  `GatewayOverStores`, `Records`, `Proposals`). A transition system whose steps are what happens between two consecutive touches of the store, the
  connector or a callback. The store and the outside world are durable; a crash drops the rest. The
  class `GovernedActionGateway` has the methods of the original, and each is proved to perform an
  execution of the machine, so that the theorems hold of it.
- **Governance graph and CARM** (`Topology`, `GraphLoops`, `GovernanceGraphs`, `GraphDigests`,
  `Policies`, `Carm`, `CarmProperties`, `DefaultCarm`, `CarmRuntime`). Kahn's loop, the reach worklist and the
  conflict scan, against reachability and a closed form.
- **Canonical JSON** (`Unicode`, `Ordering`, `Doubles`, `Canonical`, `Canonicity`,
  `PythonEquality`). The printer, and a reader that accepts its output and nothing else.
- **Delegation kernel** (`Delegation`, `ChainAuthority`, `Revocation`, `LineageStatus`, `Kernel`,
  `KernelChecks`, `KernelRuntime`). One-link checks, lifted to chains of any length, exact conditions for a
  call to return, and runs of verifier calls.
- **Budget ledger** (`Decimals`, `WrittenDecimals`, `Ledger`, `WrittenBudgets`). Decimal arithmetic rounded to 28 digits, and atomic
  allocation.
- **Signed transport** (`Transport`, `TransportMatch`, `TransportRuntime`, `GoogleAdk`,
  `AdkGateway`). Envelope round trip, replay, and the composition with the gateway.

Main theorems: `AtMostOnce`, `RecordAndWorldAgree`, `EffectsAreAuthorised`, `TwoPassesSettle`,
`RecordsAreExplained`, `SqliteServesTheGateway`, `CanonicalIff`, `DigestIdentifiesGraph`, `EscalationUpwardClosed`,
`ResolveIsClosedForm`, `DelegatedCallIsSound`, `DelegatedCallIff`, `EvaluationIff`, `EscapesIff`, `OneLinkIff`, `UsesAreLimited`,
`LedgerConserves`, `AnySplitAnyOrder`, `ExactIff`, `BuiltIsAcceptedIff`, `OneNonceOneEffect`,
`GatewayDeliversOnce`, `GuardedAtMostOnce`.

## What is assumed

- SHA-256 is collision free (`Digest` remembers its preimage). Ed25519 is ideal: one signature fits one
  key and one digest, however its bytes are written (`Transport.Ideal`). Capsule digests are an
  injective function parameter.
- The connector is constrained only by the contract of
  `docs/commit-intent-recovery-v0.1.md:35-41` (`CommitContract`, `ReconcileContract`): it never claims a
  commit that did not land, never denies one while the outcome is open, and its lookup has no side
  effect. It need not be idempotent.
- Kernel, policy, approval and hook callbacks are arbitrary: they may answer, raise, or take the process
  down. They do not call back into the gateway, except in `Reentry`, which states when they may. The
  connector does not. Store writes and receipt signing do not raise.
- One live gateway at a time works on a store; its lock is held for a whole operation, except that
  `resume_approved` releases it between the delete and the new claim and `recover_pending` between two
  records.
- Timestamps are integers. Decimals of confidences are a text with its number; ledger quantities are
  digits with a number of places; the score sum uses an arbitrary monotone rounding.
- Outcomes of JSON Schema validation hold where the code runs after it: non-negative decimals without an
  exponent, the constraint operators with their value types, a non-negative delegation depth.

## Where the code falls short of what it says

- `resume_approved`: the comment at `src/gcp_reference/gateway.py:286-287` says that the proposal binding
  is checked before re-entry. It is not: the waiting record, which holds the binding, is deleted first.
  `BindingFixedIff` gives the exact condition, `RebindingIsReachable` a run from the start.
- A crash between the claim and the commit intent leaves the record in VALIDATING for good; no operation
  accepts it any more (`CrashStrands`, `StrandedForever`). It never has an effect. VALIDATING and the
  terminal states are exactly the ones a record never leaves (`UnchangingIff`).
- The gateway's lock is re-entrant (`src/gcp_reference/gateway.py:184`). A `before_connector` hook that
  reconciles its own action gets a second effect from a connector that is not idempotent
  (`TwoEffectsAreReachable`); any other call back is harmless (`GuardedAtMostOnce`).
- Python's `==` compares numbers by value. The receiver may act on metadata with `True` for a transported
  `1` (`DigestibleMatchIsExactIff`, `TrueMatchesOne`), and lets `2.0` for `2` pass, which only `execute` then
  refuses (`MatchIsExactIff`, `FloatMatchesInteger`). A delegated obligation may differ likewise from the
  inherited one (`ObligationUnchangedIff`).
- Attenuation ignores `critical` and keeps the last of two constraints with one name, so a child may permit
  what its parent refuses: `EscapesIff` says when for a fixed table of verifiers, `OneLinkIff` what one
  delegation can bring about, `DroppedCriticalEscapes` gives the capsules. The ADK boundary registers no
  constraint verifier, so behind it only grants without critical constraints bind beyond action and resource
  (`EffectsBehindTheBoundary`).
- The ledger's 28-digit arithmetic overlooks an overdraft for every limit of more than 28 digits at the
  scale in use (`ExactIff`, `Overlooked`).
- `accept` spends the nonce before it looks at the continuity of the lineage, so a refused envelope cannot
  be presented again (`RefusedButSpentIff`, `DiscontinuousIsSpent`).
- `_apply_connector_result` replaces the reason codes by GCP_COMMIT_OUTCOME_UNKNOWN on an unknown outcome,
  and a later COMMITTED keeps that code (`CommittedSaysUnknownIff`, `CommittedSaysUnknown`).
- `fixed_priority` raises when the report that sorts first says REQUIRE_APPROVAL, which is no runtime decision
  (`FixedPriorityIff`, `FixedPriorityRaises`).

## Model

| member | source | states |
|---|---|---|
| Canonical.ParseOfCanonical | src/gcp_reference/canonical.py:41-67 | a reader that accepts RFC 8785 output only (short escapes where there are, no needless escape, no leading zero or -0, members in ascending code unit order, strict UTF-8) gives back the very value that was printed, for every accepted value |
| Canonicity.CanonicalOfParsed | src/gcp_reference/canonical.py:41-67 | conversely, bytes which that reader accepts are the canonical bytes of the value it reads |
| Canonicity.CanonicalIff | src/gcp_reference/canonical.py:41-67 | so `canonicalize` returns these bytes for this value exactly when the reader reads this value from these bytes |
| Canonicity.StringPrints | src/gcp_reference/canonical.py:60-61 | a string the reader accepts is written with exactly the escapes `json.dumps` uses |
| Canonicity.IntPrints | src/gcp_reference/canonical.py:58-59 | a number the reader accepts is the decimal text of its value |
| Canonicity.AscendingIsSorted | src/gcp_reference/canonical.py:64 | a listing of keys in strictly ascending code unit order is the one `sorted` makes |
| Canonical.CanonicalBytesIdentify | src/gcp_reference/canonical.py:14-67 | two values get the same bytes exactly when both are accepted and are the same JSON value (member order ignored) |
| Canonical.MembersInCodeUnitOrder | src/gcp_reference/canonical.py:64-65 | every member of an object is printed once, in ascending order of its key's UTF-16 code units (RFC 8785 section 3.2.3) |
| Ordering.ByteOrderIsCodeUnitOrder | src/gcp_reference/canonical.py:10-11 | comparing big-endian UTF-16 bytes is comparing code units |
| Ordering.SortedAscending | src/gcp_reference/canonical.py:64 | sorting lists each key once, in ascending order |
| Unicode.Utf16UnitsInjective | src/gcp_reference/canonical.py:10-11 | different keys have different sort keys, so the member order is total |
| Unicode.Utf8RoundTrip | src/gcp_reference/canonical.py:67 | the UTF-8 encoding of the text loses nothing |
| Unicode.Utf8OfDecoded | src/gcp_reference/canonical.py:67 | only the encoding of a text decodes to it: no overlong form and no stray continuation byte is read |
| Unicode.UnitsAre | src/gcp_reference/canonical.py:10-11 | the code units are the scalar value itself, or a surrogate pair that holds its upper and lower ten bits |
| Canonical.DigestIdentifiesContent | src/gcp_reference/crypto.py:28-33 | a digest exists exactly for an object whose content apart from `proof` is accepted; equal digests mean equal content apart from `proof`, and conversely |
| PythonEquality.EqualityIsExactIff | src/gcp_reference/transport.py:142 | among JSON values, floats included, `==` with a value means being that value exactly when it holds no boolean, no integral float and no integer that is also a double |
| PythonEquality.AcceptedEqualityIsExactIff | src/gcp_reference/transport.py:142 | among values that can be canonicalised, exactly when it holds no boolean and neither 0 nor 1 |
| PythonEquality.EqualityIs | src/gcp_reference/transport.py:142 | `==` compares numbers, booleans among them, by value, lists and objects member by member, texts and null by identity, and nothing across these kinds |
| GovernanceGraphs.GovernanceGraph.Build | src/gcp_reference/governance_graph.py:46-76 | construction succeeds exactly for distinct nodes, proper distinct edges, confidences in [0,1], the join rules and no cycle; the tables then describe the declared graph |
| GovernanceGraphs.GovernanceGraph.CollectNodes | src/gcp_reference/governance_graph.py:47-53 | accepts exactly distinct node ids with confidences in [0,1], and stores them |
| GovernanceGraphs.GovernanceGraph.CollectEdges | src/gcp_reference/governance_graph.py:55-74 | accepts exactly distinct, non-loop edges between known nodes with confidences in [0,1]; the three tables then hold in- and out-neighbours and confidences |
| GovernanceGraphs.GovernanceGraph.JoinTypesHold | src/gcp_reference/governance_graph.py:82-94 | true exactly when every node meets the join rule |
| GovernanceGraphs.GovernanceGraph.IsAcyclic | src/gcp_reference/governance_graph.py:96-109 | Kahn's loop ends and answers true exactly when no node reaches itself |
| GovernanceGraphs.GovernanceGraph.Release | src/gcp_reference/governance_graph.py:101-107 | one visit keeps the loop state: counts are the unmet predecessors, the ready list is exactly the unvisited nodes with none |
| GovernanceGraphs.GovernanceGraph.EstimateReach | src/gcp_reference/governance_graph.py:134-170 | unknown source raises; otherwise reachable nodes are exactly the strict descendants, the score is their weights added in sorted order under the rounding, confidence is the minimum over source, descendants, their incoming edges and 0.5 for an UNKNOWN join, and the digest is the graph's |
| GovernanceGraphs.GovernanceGraph.Score | src/gcp_reference/governance_graph.py:150-163 | the rounded sum over the sorted reachable nodes, the UNKNOWN nodes in order, and the lowered confidence |
| GovernanceGraphs.GovernanceGraph.Close | src/gcp_reference/governance_graph.py:137-148 | the worklist with duplicates ends with exactly the strict descendants and the minimum confidence over them and their incoming edges |
| GovernanceGraphs.GovernanceGraph.LowerByIncoming | src/gcp_reference/governance_graph.py:146-147 | lowers the confidence to the minimum over all incoming edges of the node |
| GraphLoops.KahnDecides | src/gcp_reference/governance_graph.py:100-109 | when nothing is ready any more, all nodes were visited if and only if the graph is acyclic |
| GraphLoops.ReachDone | src/gcp_reference/governance_graph.py:138-148 | an empty frontier means the reachable set is the descendant set |
| Topology.PredecessorsMakeCycle | src/gcp_reference/governance_graph.py:96-109 | a non-empty set of nodes each with a predecessor in the set contains a cycle |
| Topology.ReachGrowsUpstream | src/gcp_reference/governance_graph.py:134-170 | at an ancestor the reach score is no lower and the topology confidence no higher, under any monotone rounding |
| Topology.ScoreMonotone | src/gcp_reference/governance_graph.py:150-163 | adding nodes never lowers the rounded running sum, although it changes every later partial sum |
| Topology.ExactReach | src/gcp_reference/governance_graph.py:150-163 | without rounding the score is the number of descendants that are no OR joins, plus one k-th for each OR join with k ways in |
| Topology.ConfidenceTells | src/gcp_reference/governance_graph.py:137-163 | an UNKNOWN join downstream makes the confidence at most one half; otherwise it is one that some node or edge declares |
| Topology.UnknownJoinsAre | src/gcp_reference/governance_graph.py:151-163 | the unknown joins listed are exactly the reachable nodes of that kind |
| GraphDigests.DigestIdentifiesGraph | src/gcp_reference/governance_graph.py:111-132 | two graphs share a digest exactly when they declare the same nodes and edges, in whatever order |
| CarmRuntime.DetectConflicts | src/gcp_reference/carm.py:51-64 | the loops compute the specified list of conflicts |
| Carm.ConflictsAre | src/gcp_reference/carm.py:51-64 | every pair of an ALLOW and a BLOCK report gives a conflict, and nothing else does |
| Carm.SortKeeps | src/gcp_reference/carm.py:64 | sorting the conflicts keeps them as a multiset |
| Carm.SortOrders | src/gcp_reference/carm.py:64 | the conflicts come out in order of their policy ids |
| CarmRuntime.FindPriorityEffect | src/gcp_reference/carm.py:67-76 | the table loop yields the effect of the first policy in priority order |
| CarmRuntime.ResolveCarm | src/gcp_reference/carm.py:79-158 | fails exactly for an unknown node; otherwise decides on the graph's exact reach estimate |
| Policies.TopIsTop | src/gcp_reference/carm.py:72-76 | the selected policy precedes or equals every other one |
| Policies.TopUnique | src/gcp_reference/carm.py:72-76 | with unique policy keys there is one such policy |
| CarmProperties.ConflictIff | src/gcp_reference/carm.py:51-64 | without REQUIRE_APPROVAL, a conflict exists exactly when both an ALLOW and a BLOCK were reported |
| CarmProperties.SeverityIs | src/gcp_reference/carm.py:113 | severity is the heaviest ALLOW weight times the heaviest BLOCK weight |
| CarmProperties.PriorityIs | src/gcp_reference/carm.py:132-150 | the priority branch picks the effect `fixed_priority` picks over all reports |
| CarmProperties.FixedPriorityIff | src/gcp_reference/carm.py:169-177 | `fixed_priority` allows without reports; otherwise it does what the report that sorts first says, and raises exactly when that one asks for approval |
| CarmProperties.FixedPriorityRaises | src/gcp_reference/carm.py:161-177 | a regulatory REQUIRE_APPROVAL beside a task-level ALLOW: it raises, while `most_restrictive` allows |
| CarmProperties.ResolveIsClosedForm | src/gcp_reference/carm.py:79-158 | mode, decision, severity and reason codes equal a closed form without pairs or tables |
| DefaultCarm.DefaultDecision | src/gcp_reference/carm.py:34-158 | for reports with distinct keys, under the gateway's configuration: BLOCK exactly when something blocks and nothing allows or asks; APPROVAL_REQUIRED exactly when a report asks, or an ALLOW and a BLOCK meet and the confidence is negative, or both come from above the task layer and the reach is at least 2 or a BLOCK ranks first; ALLOW otherwise |
| DefaultCarm.DefaultReasons | src/gcp_reference/carm.py:88-158 | the reason code names which of these conditions decided |
| DefaultCarm.BlocksIff | src/gcp_reference/carm.py:88-158 | the condition for BLOCK holds even if policy keys repeat |
| DefaultCarm.SevereIff | src/gcp_reference/carm.py:34-39 | the severity threshold of 4 is reached exactly when an ALLOW and a BLOCK both come from above the task layer |
| DefaultCarm.HeaviestLayer | src/gcp_reference/policy.py:9-21 | the weights: 3 means a regulatory report, at least 2 one above the task layer, 0 none |
| DefaultCarm.RanksIsPrecedes | src/gcp_reference/carm.py:72-76 | the precedence is regulatory, organizational, task; then policy id; then version |
| CarmProperties.VerdictIgnoresOrder | src/gcp_reference/carm.py:79-158 | the order in which the reports are listed does not change the verdict |
| CarmProperties.EscalationMonotone | src/gcp_reference/carm.py:114-131 | more reach and less confidence never turn an escalation into an automatic decision |
| CarmProperties.EscalationUpwardClosed | src/gcp_reference/carm.py:79-158 | if CARM asks for approval at a node it asks for approval at every ancestor |
| Proposals.DigestIdentifiesProposal | src/gcp_reference/gateway.py:128-135 | equal proposal digests mean equal proposals |
| Proposals.DigestExistsIff | src/gcp_reference/gateway.py:190-191 | a proposal has a digest exactly when its metadata is in the canonical domain |
| Proposals.ProposalOfDocument | src/gcp_reference/gateway.py:332-338 | reading a proposal document gives the proposal back; without the metadata member, the proposal without metadata |
| Records.RebuildReturnsBound | src/gcp_reference/gateway.py:323-345 | rebuilding from a record bound to a proposal returns that proposal, the only one it is bound to |
| Records.RebuildIff | src/gcp_reference/gateway.py:323-345 | rebuilding never returns another proposal than the one the stored digest names, and returns that one exactly when the stored document reads as it |
| Records.PolicyDigestIdentifies | src/gcp_reference/gateway.py:138-154 | the policy snapshot digest pins down every report, in order |
| GatewaySteps.NextKeeps | src/gcp_reference/gateway.py:190-345 | every step of every operation, crash and drift of the outside world keeps the gateway invariant |
| GatewaySteps.ReachableInv | src/gcp_reference/gateway.py:190-345 | the invariant holds in every reachable state |
| GatewaySteps.CommitKeeps | src/gcp_reference/gateway.py:313-321 | the step that calls the connector keeps it, whatever a contract-abiding, possibly non-idempotent connector does |
| GatewayTheorems.AtMostOnce | src/gcp_reference/gateway.py:190-345 | in every reachable state each action id has at most one effect, landed or still in flight |
| GatewayTheorems.RecordAndWorldAgree | src/gcp_reference/gateway.py:347-418 | COMMITTED means the effect landed once; absent, VALIDATING, APPROVAL_REQUIRED, REJECTED and FAILED mean none exists or can land; PROPOSED, AUTHORIZED, RESERVED are never stored; the receipt agrees with the record |
| GatewayTheorems.EffectsAreAuthorised | src/gcp_reference/gateway.py:211-259 | every effect, recovery included, is for a proposal the kernel verified, CARM did not block, and an approver approved where due; the record holds that proposal, that decision evidence, and its reason codes or the code of an unknown outcome |
| GatewayVerdicts.AssessmentIff | src/gcp_reference/gateway.py:211-277 | by the replies alone: REJECTED exactly when a reached callback or the reach raises a protocol error or the reports block; FAILED exactly when one raises anything else; APPROVAL_REQUIRED exactly when CARM asks and the approver says no; the commit intent in every other case |
| GatewayVerdicts.AssessmentTells | src/gcp_reference/gateway.py:211-277 | decision, controls, reason codes and digests recorded in each of these cases |
| GatewayVerdicts.DecisionOfReplies | src/gcp_reference/gateway.py:215-245 | the decision behind it is CARM's closed form of the replies |
| GatewayVerdicts.ConsultDecides | src/gcp_reference/gateway.py:211-277 | the machine's consultation step goes where the replies say, and calls nothing and stores nothing by itself |
| GatewayVerdicts.RecordsAreExplained | src/gcp_reference/gateway.py:226-277 | in every reachable state: a stored APPROVAL_REQUIRED record has a logged consultation for its own proposal in which CARM asked and the approver said no; a REJECTED one a consultation that was blocked or refused, or passed before the hook refused; a FAILED one a consultation that broke, or passed before the hook broke or the connector denied; with the evidence that each leaves |
| GatewayVerdicts.HookDecides | src/gcp_reference/gateway.py:256-277 | only a hook that returns lets the connector be called; a protocol error rejects, any other exception fails |
| GatewayVerdicts.CommitDecides | src/gcp_reference/gateway.py:313-376 | the answer of a commit decides between COMMITTED, FAILED and COMMIT_OUTCOME_UNKNOWN, and an exception means the last |
| GatewayVerdicts.AskDecides | src/gcp_reference/gateway.py:291-303 | in reachable states a denied COMMITTING record is committed again with its own proposal, a denied unknown outcome fails, a confirmed effect is COMMITTED, an open one stays unknown, an exception changes nothing |
| GatewayResults.RecordsCarryTheResult | src/gcp_reference/gateway.py:347-376 | along every execution a COMMITTED or COMMIT_OUTCOME_UNKNOWN record carries the reference and digest of what the connector answered for this very action when it said so, none if it raised; a FAILED one those of the denial or none; others none |
| GatewayResults.ReceiptsAreIssued | src/gcp_reference/gateway.py:378-418 | every receipt is this gateway's own, under an id made of the action's |
| GatewayResults.ControlsAre | src/gcp_reference/gateway.py:216-225 | the controls listed are exactly those of the kernel and of the reports, once each and sorted |
| GatewayTheorems.RebuildNeverFails | src/gcp_reference/gateway.py:323-345 | the proposal of any stored record can be rebuilt and is the one it is bound to |
| GatewayTheorems.PutsOnlyClaimedIds | src/gcp_reference/gateway.py:255 | `put` is only called for an id that is in the store |
| GatewayTheorems.SettledForever | src/gcp_reference/gateway.py:347-418 | COMMITTED, REJECTED and FAILED records never change; from COMMITTING on the proposal digest never changes |
| GatewayTheorems.StrandedForever | src/gcp_reference/gateway.py:200-214 | a claim left in VALIDATING is never picked up by any operation |
| GatewayRuns.CrashStrands | src/gcp_reference/gateway.py:192-209 | for every proposal that can be digested, a crash right after its claim leaves such a record |
| GatewayRuns.UnchangingIff | src/gcp_reference/gateway.py:190-311 | nothing that happens later touches a record exactly when it is VALIDATING, COMMITTED, REJECTED or FAILED |
| GatewayRuns.PendingCanSettle | src/gcp_reference/gateway.py:291-303 | every COMMITTING or COMMIT_OUTCOME_UNKNOWN record can reach a terminal state |
| GatewayRuns.WaitIsReachable | src/gcp_reference/gateway.py:234-245 | a record waits for approval after a REQUIRE_APPROVAL report and an approver's no, for any node of the graph |
| GatewayRuns.RebindingIsReachable | src/gcp_reference/gateway.py:279-289 | a run in which an id first waits with one proposal and then holds another |
| GatewayRuns.CommittedSaysUnknown | src/gcp_reference/gateway.py:347-367 | a run that ends COMMITTED with the reason code GCP_COMMIT_OUTCOME_UNKNOWN |
| GatewayReasons.ReasonsAreGiven | src/gcp_reference/gateway.py:246-254 | in every reachable state a COMMITTING, COMMIT_OUTCOME_UNKNOWN or COMMITTED record has the evidence and the reason codes of a consultation that justified it, or the code of an unknown outcome |
| GatewayReasons.CommittedSaysUnknownIff | src/gcp_reference/gateway.py:347-367 | a COMMITTED record has the code of an unknown outcome exactly when it was stored as COMMIT_OUTCOME_UNKNOWN before; a COMMITTING one never has |
| Reentry.GuardedAtMostOnce | src/gcp_reference/gateway.py:184-260 | with callbacks that call the gateway again, at most one effect per action and agreement of record and world, as long as nobody reconciles an action while its hook is running |
| Reentry.ReconcilingUnderTheHook | src/gcp_reference/gateway.py:255-303 | wherever a hook is running, reconciling its action can make two effects of one, with a connector that keeps its contract |
| Reentry.TwoEffectsAreReachable | src/gcp_reference/gateway.py:190-303 | such a run from the start, for every proposal that can be digested |
| GatewayTheorems.ResumeRebinds | src/gcp_reference/gateway.py:279-289 | `resume_approved` with another proposal rebinds a waiting id to it |
| GatewayTheorems.BindingFixedIff | src/gcp_reference/gateway.py:279-303 | an id keeps its proposal in every later state exactly when its record is not APPROVAL_REQUIRED |
| Recovery.PassSettlesIntents | src/gcp_reference/gateway.py:305-311 | after one undisturbed `recover_pending` no record is COMMITTING, whatever the lookups answered |
| Recovery.PassIsBounded | src/gcp_reference/gateway.py:305-311 | a pass takes at most five steps per record of its snapshot |
| Recovery.TwoPassesSettle | src/gcp_reference/gateway.py:291-311 | a second pass with authoritative lookups leaves nothing pending |
| Recovery.PassStep | src/gcp_reference/gateway.py:291-311 | each step of a pass advances it: the record in hand is the head of what is left to do |
| Gateway.GovernedActionGateway.constructor | src/gcp_reference/gateway.py:160-184 | takes over a store and an outside world that are in a state of the invariant, empty or left by an earlier process |
| Gateway.GovernedActionGateway.Execute | src/gcp_reference/gateway.py:190-277 | performs an execution of the machine; a known id returns its record or ActionIdConflict and changes nothing; for a fresh id no other record changes, result and record are ruled by the replies as in `AssessmentIff` (blocked or refused: REJECTED, broken: FAILED, approval denied and only then: APPROVAL_REQUIRED), and only a consultation that passes can touch the outside world |
| Gateway.GovernedActionGateway.ExecuteClaiming | src/gcp_reference/gateway.py:192-209 | the claim: existing id answered without side effect, fresh id carried on |
| Gateway.GovernedActionGateway.ExecuteAssessing | src/gcp_reference/gateway.py:211-277 | the assessment and its outcome, as machine steps |
| Gateway.GovernedActionGateway.ConsultCallbacks | src/gcp_reference/gateway.py:212-245 | the answers used are the callbacks' own, asked in order and each only if reached; the result is the assessment that `AssessmentIff` classifies |
| Gateway.GovernedActionGateway.CommitIntent | src/gcp_reference/gateway.py:246-259 | the intent is stored before the hook and the connector are called, and stays if they take the process down |
| Gateway.GovernedActionGateway.HookAndCommit | src/gcp_reference/gateway.py:256-277 | a raising hook ends REJECTED or FAILED with the outside world untouched; otherwise the connector's own result is applied |
| Gateway.GovernedActionGateway.CommitAndFinish | src/gcp_reference/gateway.py:313-321 | one commit; an exception counts as UNKNOWN; the result is applied and stored |
| Gateway.GovernedActionGateway.Finish | src/gcp_reference/gateway.py:378-418 | stores the finished record and returns it |
| Gateway.GovernedActionGateway.Reconcile | src/gcp_reference/gateway.py:291-303 | raises unless the record is pending; otherwise result, store and outside world are those of one reconciliation: look up, commit the rebuilt proposal if NOT_COMMITTED while COMMITTING, apply the answer |
| Gateway.GovernedActionGateway.ReconcileLooking | src/gcp_reference/gateway.py:292-303 | the same below the lock |
| Gateway.GovernedActionGateway.ReconcileAsking | src/gcp_reference/gateway.py:299-303 | NOT_COMMITTED for a COMMITTING record commits the rebuilt proposal; any other answer is applied |
| Gateway.GovernedActionGateway.ResumeApproved | src/gcp_reference/gateway.py:279-289 | raises unless waiting; without approval nothing changes; with approval the record is deleted and the passed proposal is claimed anew, with everything that follows |
| Gateway.GovernedActionGateway.ResumeWaiting | src/gcp_reference/gateway.py:284-289 | the same from the approval verifier on |
| Gateway.GovernedActionGateway.DeleteAndExecute | src/gcp_reference/gateway.py:288-289 | the lock is released between the delete and the new claim |
| Gateway.GovernedActionGateway.RecoverRecord | src/gcp_reference/gateway.py:310 | one reconciliation under its own lock, with exactly the result specified for it |
| Gateway.GovernedActionGateway.RecoverPending | src/gcp_reference/gateway.py:305-311 | reconciles exactly the pending records in the store's order, up to the first that does not return; results, store and outside world are those of the reconciliations; when all return no record is COMMITTING |
| SupplierConnector.InMemorySupplierConnector.Commit | src/gcp_reference/gateway.py:430-448 | keeps the connector contract: one supplier per id, a lost response reports UNKNOWN, a crash after the commit answers nothing |
| SupplierConnector.InMemorySupplierConnector.Reconcile | src/gcp_reference/gateway.py:450-458 | a truthful lookup that changes nothing |
| SupplierConnector.SuccessIdentifies | src/gcp_reference/gateway.py:437-441 | a confirmation names its action and pins down its supplier: two are equal exactly when both agree |
| SupplierConnector.CallsEqualSuppliers | src/gcp_reference/gateway.py:421-458 | behind the gateway, commit calls equal the number of ids with a supplier, in every reachable state |
| SupplierConnector.MirroredSize | src/gcp_reference/gateway.py:421-458 | the connector's own table has that size |
| ActionStores.InMemoryActionStore.Claim | src/gcp_reference/gateway.py:98-103 | inserts an absent record and returns None, else returns the existing one and changes nothing |
| ActionStores.InMemoryActionStore.Get | src/gcp_reference/gateway.py:105-107 | the stored record, if any |
| ActionStores.InMemoryActionStore.Put | src/gcp_reference/gateway.py:109-111 | stores the record under its id, known or not |
| ActionStores.InMemoryActionStore.DeleteWaiting | src/gcp_reference/gateway.py:113-118 | deletes exactly a record in the expected state, else raises and changes nothing |
| ActionStores.InMemoryActionStore.PendingCommits | src/gcp_reference/gateway.py:120-125 | exactly the COMMITTING and COMMIT_OUTCOME_UNKNOWN records, in insertion order |
| ActionStores.SQLiteActionStore.Claim | src/gcp_reference/persistence.py:57-71 | INSERT OR IGNORE and the row count, as the table function |
| ActionStores.SQLiteActionStore.Get | src/gcp_reference/persistence.py:73-75 | the decoded row |
| ActionStores.SQLiteActionStore.Put | src/gcp_reference/persistence.py:77-90 | UPDATE of one row; raises when there is none |
| ActionStores.SQLiteActionStore.DeleteWaiting | src/gcp_reference/persistence.py:92-99 | DELETE guarded by the state column |
| ActionStores.SQLiteActionStore.PendingCommits | src/gcp_reference/persistence.py:101-107 | the decoded pending rows, in id order |
| ActionStores.RowRoundTripIff | src/gcp_reference/persistence.py:115-149 | a record survives encoding and decoding exactly when its proposal payload is not empty |
| ActionStores.BoundRecordsSurvive | src/gcp_reference/persistence.py:115-149 | every record bound to a proposal survives |
| ActionStores.StepRefines | src/gcp_reference/persistence.py:57-107 | from equal contents the two stores answer alike and stay equal exactly unless the call is a `put` on an absent id |
| ActionStores.SqliteRefinesMemory | src/gcp_reference/persistence.py:57-107 | over any call sequence that puts only present ids, SQLite answers as memory does |
| GatewayOverStores.StepIsCall | src/gcp_reference/gateway.py:190-345 | the store change of each gateway step is the effect of one store call that SQLite serves alike |
| GatewayOverStores.SqliteServesTheGateway | src/gcp_reference/persistence.py:57-149 | along any gateway run, SQLite gives the answers memory gives and its table holds exactly the machine's records |
| Delegation.ResourceContainedExact | src/gcp_reference/semantics.py:36-41 | containment holds exactly when every resource the child rule matches is matched by the parent rule |
| Delegation.AttenuatesExact | src/gcp_reference/semantics.py:19-33 | a constraint attenuates another exactly when the other admits every value, amount or set that it admits |
| Delegation.LastConstraintCounts | src/gcp_reference/semantics.py:15-16 | of several constraints with one name the last counts |
| Delegation.LastObligationCounts | src/gcp_reference/semantics.py:65-68 | of several obligations with one id the last counts |
| Delegation.LastBudgetCounts | src/gcp_reference/semantics.py:86-87 | of several budget lines with one dimension the last counts |
| Delegation.GrantContainedTransitive | src/gcp_reference/semantics.py:44-52 | grant containment is transitive |
| Delegation.ValidateDelegationIff | src/gcp_reference/semantics.py:114-154 | the ordered checks accept exactly the links that meet the delegation rules |
| Delegation.RefusalTells | src/gcp_reference/semantics.py:114-154 | each error code names a rule that is broken while the rules checked before it hold |
| Delegation.ObligationsInherited | src/gcp_reference/semantics.py:65-83 | an accepted link carries each mandatory obligation on, as far as Python's `!=` can tell |
| Delegation.CheckedWithin | src/gcp_reference/semantics.py:90-111 | accepted budgets are within the parent's, dimension by dimension, in the same unit |
| ChainAuthority.SatisfactionPassesIff | src/gcp_reference/action_kernel.py:150-158 | without a registered verifier, whatever satisfies an attenuation of a constraint satisfies it exactly when it is not critical |
| ChainAuthority.SomeChildPermitsIff | src/gcp_reference/semantics.py:15-52 | for any table of verifiers, some contained grant permits a proposal exactly when action and resource match and each kept constraint with a verifier has an attenuation the verifier accepts |
| ChainAuthority.MonotoneAllowsIff | src/gcp_reference/action_kernel.py:150-158 | with monotone verifiers that is asking them about the kept constraints |
| ChainAuthority.EscapesIff | src/gcp_reference/semantics.py:15-52 | for a fixed monotone table, some contained grant permits what its parent refuses exactly when the kept constraints hold and yet a parent constraint fails: critical without a verifier, or shadowed by a later one of its name |
| ChainAuthority.ContainmentSoundIff | src/gcp_reference/semantics.py:15-52 | containment guarantees that permitted proposals stay permitted, under every table that registers monotone verifiers or leaves constraints that are not critical, exactly for parent grants without a tighter earlier duplicate of a constraint name |
| ChainAuthority.DistinctNamesAreConsistent | src/gcp_reference/semantics.py:15-16 | distinct constraint names are enough for that |
| ChainAuthority.ContainmentPermits | src/gcp_reference/semantics.py:44-52 | what a contained grant permits, its guarded parent grant permits: registered verifiers monotone, unregistered constraints not critical |
| ChainAuthority.ChainPermits | src/gcp_reference/action_kernel.py:204-230 | for a chain of any length with guarded grants, what the leaf permits every capsule above permits, the first included |
| ChainAuthority.ChainAllows | src/gcp_reference/action_kernel.py:204-230 | for any chain and any verifiers, what the leaf permits matches a grant of every capsule above in action and resource, and an attenuation of its kept constraints is accepted |
| ChainAuthority.OneLinkIff | src/gcp_reference/semantics.py:114-154 | some child that `validate_delegation` accepts permits a proposal exactly when the capsule can be delegated and one of its grants allows it so |
| ChainAuthority.DroppedCriticalEscapes | src/gcp_reference/semantics.py:19-52 | a capsule whose critical limit has no verifier permits nothing; a child that `validate_delegation` accepts and that does not call the limit critical permits any payment of the grant |
| ChainAuthority.DisciplinedWithoutVerifiers | src/gcp_reference/action_kernel.py:150-158 | without verifiers the grants of a chain are guarded exactly when no constraint above the leaf is critical |
| ChainAuthority.ChainObligations | src/gcp_reference/semantics.py:65-83 | the leaf carries every mandatory obligation of every capsule above it |
| ChainAuthority.ObligationUnchangedIff | src/gcp_reference/semantics.py:78 | among canonical capsules an inherited obligation is the same obligation, whatever the child writes, exactly when its body holds no boolean and neither 0 nor 1 |
| ChainAuthority.ChainAttenuates | src/gcp_reference/semantics.py:114-154 | down a chain depth counts the links, validity windows nest, budgets shrink, the workflow stays |
| ChainAuthority.LeafBudgetBacked | src/gcp_reference/semantics.py:86-111 | with distinct dimensions, each leaf budget line is backed by one of the first capsule, same unit, at least as large |
| Kernel.AcceptedLineageIsChain | src/gcp_reference/action_kernel.py:204-238 | an accepted lineage is linked throughout and its capsule ids are pairwise distinct |
| KernelChecks.LineageCheckIff | src/gcp_reference/action_kernel.py:204-228 | the loop over the lineage passes exactly when, for every transition, both capsules have a valid schema, a signature that verifies and an issuer authorised for its method; the link may delegate; and the proof has a valid schema, names these two capsules, the child's delegator and subject, verifies, and is by an authorised method of its delegator |
| KernelChecks.TransitionCheckIff | src/gcp_reference/action_kernel.py:204-228 | one round of that loop |
| KernelChecks.CapsuleCheckIff | src/gcp_reference/action_kernel.py:240-251 | a capsule is accepted exactly when schema, signature and issuer authority hold |
| KernelChecks.LeafCallIff | src/gcp_reference/action_kernel.py:76-148 | the leaf verifier returns exactly for an authentic capsule, presented by its subject, inside its window, with clear statuses, a grant and all mandatory pre-action obligations met, while a use is left |
| KernelChecks.LeafRefusalTells | src/gcp_reference/action_kernel.py:76-141 | each error code of the leaf verifier names the check that failed |
| KernelChecks.DelegatedCallIff | src/gcp_reference/action_kernel.py:204-230 | the delegated verifier returns exactly when every transition is in order, the leaf is presented by its subject in its window, every capsule of the lineage is cleared under its own freshness profile, a grant and the obligations permit it, and a use is left |
| KernelChecks.DelegatedCallRestsOn | src/gcp_reference/action_kernel.py:94-100 | when it returns, every capsule rests on an authenticated record about itself that is not against it and is either cached within the age its profile allows or sent in this call; only an offline capsule may have none, and only where the local policy allows it |
| Kernel.DelegatedCallIsSound | src/gcp_reference/action_kernel.py:204-230 | when the delegated verifier returns: the lineage is a chain, a grant of every capsule allows the proposal, every capsule permits it if the grants above the leaf are guarded, every mandatory pre-action obligation was answered for, the time is in every window, and depth bounds the links |
| Kernel.DelegatedCallSeesRevocations | src/gcp_reference/action_kernel.py:94-100 | when it returns, no online-strict capsule was reported revoked (an ancestor: with cascade) |
| Kernel.CallAccounts | src/gcp_reference/action_kernel.py:132-141 | a failed call binds and counts nothing, a retry costs nothing, a success binds its id |
| Kernel.UsesAreLimited | src/gcp_reference/action_kernel.py:132-141 | over any run at most `max_uses` distinct action ids are authorised |
| KernelChecks.UsesByReplay | src/gcp_reference/action_kernel.py:132-141 | so a single-use capsule, or one without a limit, authorises one id, and a limit of n at most n |
| KernelRuntime.UseRegistry.Commit | src/gcp_reference/replay.py:16-27 | counts one more use, or raises at the limit and changes nothing |
| KernelRuntime.CapsuleActionVerifier.Verify | src/gcp_reference/action_kernel.py:76-148 | one call: result, bindings, counts and status cache are those of the specified call, which `LeafCallIff` characterises |
| KernelRuntime.CapsuleActionVerifier.FindGrant | src/gcp_reference/action_kernel.py:102-111 | the loop finds a permitting grant exactly when one exists |
| KernelRuntime.DelegatedCapsuleActionVerifier.Open | src/gcp_reference/action_kernel.py:164-202 | construction succeeds exactly for a non-empty, continuous lineage, and prepares its leaf verifier |
| KernelRuntime.DelegatedCapsuleActionVerifier.Verify | src/gcp_reference/action_kernel.py:204-230 | the loop over the lineage and the leaf call equal the specified call, which `DelegatedCallIff` characterises |
| Revocation.RevocationEvaluator.Cache | src/gcp_reference/revocation.py:101-106 | keeps the later-checked record per digest; an unauthenticated one raises |
| Revocation.RevocationEvaluator.FetchStatus | src/gcp_reference/revocation.py:195-213 | one lookup: caches and returns a matching authenticated record, else raises |
| Revocation.RevocationEvaluator.StatusFor | src/gcp_reference/revocation.py:149-193 | the record each freshness profile relies on, as specified; `LookupIs` says when it clears a capsule |
| Revocation.RevocationEvaluator.Evaluate | src/gcp_reference/revocation.py:108-147 | the loop over the lineage yields the specified evidence, cache and verdict, which `EvaluationIff` and `EvidenceTells` characterise |
| Revocation.EvaluatedOnlineIsClear | src/gcp_reference/revocation.py:108-147 | an evaluation that returns saw every online-strict capsule reported live and not revoked |
| Revocation.OnlineEvaluationIff | src/gcp_reference/revocation.py:108-147 | if all capsules are online-strict it returns exactly when all are so reported |
| LineageStatus.EvaluationIff | src/gcp_reference/revocation.py:108-193 | a mixed lineage passes exactly when each capsule is cleared on the cache as it stands when reached: online-strict by a live harmless report; bounded-stale by a harmless cached record no older than its limit, or else a live harmless report; offline where the policy allows it and no cached record is against it |
| LineageStatus.DistinctEvaluationIff | src/gcp_reference/revocation.py:108-193 | with distinct digests the cache from before the evaluation decides |
| LineageStatus.LookupIs | src/gcp_reference/revocation.py:149-193 | the same for one capsule, and what its lookup adds to the cache |
| LineageStatus.EvidenceTells | src/gcp_reference/revocation.py:121-139 | the evidence lists each capsule in turn, with its profile, the time of the record it rests on and where that came from |
| Revocation.CacheHoldsLatest | src/gcp_reference/revocation.py:101-106 | over any sequence of offers the cache holds per digest exactly the latest-checked record |
| Revocation.EvaluationOffers | src/gcp_reference/revocation.py:195-213 | an evaluation changes the cache only by offering it records the provider sent |
| Decimals.AddScaled | src/gcp_reference/allocation.py:113 | adding decimals is exact addition at a common scale followed by half-even rounding to 28 digits |
| Decimals.HalfEvenIff | src/gcp_reference/allocation.py:113 | rounding gives the nearest multiple of the unit, and of two equally near the even one; no other number qualifies |
| Decimals.UnitLeavesDigits | src/gcp_reference/allocation.py:113 | the unit is a power of ten and leaves exactly 28 digits of a longer number |
| Decimals.RoundExactBelow | src/gcp_reference/allocation.py:113 | rounding is the identity below 10^28 and never falls back below it from above |
| Decimals.QuantityIsDecimal | src/gcp_reference/allocation.py:93-113 | the ledger's scaled integer and the delegation checks' decimal of a text are the same number |
| WrittenDecimals.DecimalIsWritten | src/gcp_reference/allocation.py:93-113 | the number read from a printed whole number, a point and digits is that whole number plus what the JSON reader sees in the digits over the power of ten, for the ledger and for the delegation checks |
| WrittenDecimals.DigitsOfPrinted | src/gcp_reference/allocation.py:93-113 | reading the digits a whole number is printed with gives the number back |
| WrittenDecimals.DecimalTextIff | schema/common.schema.json:11 | the texts the schema's decimal pattern admits are exactly those of this form |
| WrittenDecimals.PowerIsWritten | src/gcp_reference/allocation.py:93-113 | the power of ten is printed as 1 and that many zeros |
| Decimals.RunningSumIs | src/gcp_reference/allocation.py:76-82 | a rounded running total is the exact one below 10^28 units and stays at or above 10^28 otherwise, at every prefix |
| Decimals.ExactIff | src/gcp_reference/allocation.py:70-86 | the rounded comparison with a limit is right for all quantities of a scale exactly when the limit is below 10^28 units of that scale |
| Decimals.Overlooked | src/gcp_reference/allocation.py:76-86 | for any larger limit, quantities that exceed it unnoticed |
| Ledger.AccumulatedIs | src/gcp_reference/allocation.py:93-113 | accumulation succeeds exactly when every dimension is known with an equal unit, and each total is the running sum of that dimension |
| Ledger.DimensionPassesIff | src/gcp_reference/allocation.py:84-88 | a dimension passes exactly when its true sum is within the limit |
| Ledger.AllocateIff | src/gcp_reference/allocation.py:50-101 | a batch succeeds exactly when vectors, parent and child ids are in order and the true sums fit; it is taken whole or not at all |
| WrittenBudgets.PrintedAllocateIff | src/gcp_reference/allocation.py:50-101 | on printed numbers: a batch is granted exactly when its vectors name each dimension once, its children are new, its units are the parent's, and per dimension the numbers held and asked for add up to no more than the number granted |
| WrittenBudgets.PrintedBudgetsIff | src/gcp_reference/semantics.py:90-111 | on printed numbers: budgets are within the parent's exactly when each line has a line of the parent in the same unit with a number at least as large |
| Ledger.AllocationRefusalTells | src/gcp_reference/allocation.py:50-111 | each error code of a refused batch names what is wrong with it |
| Ledger.RegistrationTells | src/gcp_reference/allocation.py:40-48 | registration is refused exactly for repeated dimensions or a known digest with other lines, and never replaces an account |
| Ledger.LedgerStepKeeps | src/gcp_reference/allocation.py:40-101 | one call keeps every parent within its budget; a failed call changes nothing, nothing allocated is taken back, registering again resets nothing |
| Ledger.LedgerConserves | src/gcp_reference/allocation.py:40-101 | conservation after any sequence of calls on a fresh ledger |
| Ledger.RegisterAgain | src/gcp_reference/allocation.py:40-48 | with distinct dimensions registering always succeeds, and again changes nothing |
| Ledger.AnySplitAnyOrder | src/gcp_reference/allocation.py:50-101 | a batch and any split of it into batches in any order succeed together and leave equal ledgers |
| Ledger.AllocationLedger.Vector | src/gcp_reference/allocation.py:15-26 | accepts exactly vectors with distinct dimensions |
| Ledger.AllocationLedger.RegisterParent | src/gcp_reference/allocation.py:40-48 | result and table are those of the specified registration |
| Ledger.AllocationLedger.AllocateBatch | src/gcp_reference/allocation.py:50-101 | result and table are those of the specified allocation, which `PrintedAllocateIff` characterises on the numbers written |
| Ledger.AllocationLedger.Sum | src/gcp_reference/allocation.py:76-99 | the three loops decide what the specified check decides |
| Ledger.AllocationLedger.Accumulate | src/gcp_reference/allocation.py:93-113 | one vector is added item by item; the first offending item decides the error |
| Transport.ExamineIff | src/gcp_reference/transport.py:80-137 | an envelope passes exactly when its content is admissible to this receiver and its proof signs that content by a method authorised for its source; what comes out is that content |
| Transport.TimesIff | src/gcp_reference/transport.py:118-120 | the times pass exactly when both can be read, the envelope has been made and has not expired, and it lives no longer than permitted |
| Transport.BuiltIsAcceptedIff | src/gcp_reference/transport.py:42-58 | a built envelope is accepted exactly when content, key, method and a fresh nonce suit the receiver, who then holds exactly the proposal, lineage and identities that went in |
| Transport.SignaturePinsContent | src/gcp_reference/transport.py:116-138 | an accepted envelope that carries a built one's signature has the built one's content |
| Transport.ContentOfEnvelope | src/gcp_reference/transport.py:87-137 | an accepted envelope has no member beyond the content that was read from it and its proof |
| Transport.VerificationSpends | src/gcp_reference/transport.py:137-138 | a rejection leaves the registry unchanged; an acceptance spends one unspent nonce and nothing else |
| Transport.NonceAcceptedOnce | src/gcp_reference/transport.py:137-138 | over any run on one registry no nonce is accepted twice |
| TransportMatch.MatchIff | src/gcp_reference/transport.py:141-144 | a received proposal matches exactly when four texts agree and the metadata agree under Python's equality, which compares booleans, integers and floats by value |
| TransportMatch.MatchIsExactIff | src/gcp_reference/transport.py:141-144 | of all JSON metadata only the transported ones match exactly when they hold no boolean, no integral float and no integer that is also a double |
| TransportMatch.DigestibleMatchIsExactIff | src/gcp_reference/transport.py:141-144 | of the proposals that `execute` can digest only the transported one matches exactly when its metadata holds no boolean and neither 0 nor 1; otherwise one with another digest matches too |
| TransportMatch.TrueMatchesOne | src/gcp_reference/transport.py:141-144 | metadata `True` matches a transported `1`: a failing case that can be executed |
| TransportMatch.FloatMatchesInteger | src/gcp_reference/transport.py:141-144 | metadata `2.0` matches a transported `2`: a failing case that `execute` then refuses to digest |
| TransportRuntime.VerifyTransportEnvelope | src/gcp_reference/transport.py:80-138 | checks in the code's order, the nonce last: result and registry are those of the specified verification |
| TransportRuntime.CollectTransitions | src/gcp_reference/transport.py:131-136 | the loop reads every lineage item or stops at the first malformed one |
| GoogleAdk.GoogleADKGovernanceBoundary.Accept | src/gcp_reference/adapters/google_adk.py:40-53 | result and registry are those of the specified acceptance; the kernel gets the transported lineage, the boundary's presenter, no constraint verifiers and its own fresh use registry |
| GoogleAdk.RefusedButSpentIff | src/gcp_reference/adapters/google_adk.py:40-53 | an envelope is refused and its nonce spent exactly when it verifies and its lineage is not continuous; nobody accepts it afterwards |
| GoogleAdk.DiscontinuousIsSpent | src/gcp_reference/adapters/google_adk.py:40-53 | such an envelope, for any sender, receiver and pair of transitions that do not meet |
| GoogleAdk.AcceptedDelegation.Kernel | src/gcp_reference/adapters/google_adk.py:55-61 | one call of the kernel closure equals the specified call |
| GoogleAdk.ControlsReported | src/gcp_reference/adapters/google_adk.py:55-61 | the controls that a call reports, in order |
| GoogleAdk.OneEnvelopeOneEffect | src/gcp_reference/adapters/google_adk.py:40-62 | a gateway on an accepted kernel has at most one effect in all, over any interleaving with crashes and recovery, and for a matching proposal |
| GoogleAdk.EffectIsTheTransported | src/gcp_reference/adapters/google_adk.py:55-61 | that effect is for exactly the sender's proposal when its metadata holds no boolean and neither 0 nor 1 |
| GoogleAdk.OneNonceOneEffect | src/gcp_reference/adapters/google_adk.py:40-62 | over any run of one boundary and all its gateways, at most one effect bears a given nonce |
| GoogleAdk.EffectsWithinLineage | src/gcp_reference/adapters/google_adk.py:40-62 | every effect behind an accepted kernel was let through by a call that answers for it: allowed by a grant of every capsule of the lineage, permitted by each if the grants above the leaf are guarded, in time, with obligations answered for |
| GoogleAdk.EffectsBehindTheBoundary | src/gcp_reference/adapters/google_adk.py:40-53 | since the boundary registers no constraint verifier: every effect matches a grant of every capsule in action and resource, and every capsule permits it if nothing above the leaf is critical |
| AdkGateway.GatewayIsServed | src/gcp_reference/adapters/google_adk.py:40-62 | the log of a gateway object whose kernel verifier answers as an accepted kernel is served by that kernel |
| AdkGateway.GatewayDeliversOnce | src/gcp_reference/adapters/google_adk.py:40-62 | behind such a gateway object there is at any time at most one effect, for a matching proposal, within every capsule of the transported lineage |

## Left out

- Ed25519, SHA-256 and base64 internals, JSON Schema validation, SQL, WAL and file handling: library calls, replaced by their outcomes.
- Several gateways racing on one store: `docs/durable-gateway-slice-v0.1.md:49` says that record updates carry no revision check, so the record/world property is not meant to hold there.
- Receipt signatures and wall-clock timestamps of receipts: a receipt is the rest of its content.
- Lone surrogates in strings; a mapping with a key that is not a string is a single value, refused wherever a proof or an envelope is expected.
- Equality of values that are not JSON: objects that compare equal to numbers or strings of another type, NaN, and the sign of zero.
- Limits of the Python interpreter: recursion on deeply nested JSON, and printing integers of more than 4300 digits.
- In `dict(metadata)` of a transported proposal, list items that are themselves objects: they are refused, while Python takes an object of two members as a pair of keys.
- JSON texts of the SQLite columns: they are printed with the canonical printer instead of `json.dumps` with escapes beyond ASCII, which reads back the same, and `json.loads` is modelled on such texts only; the receipt column is kept as content.
- Aliasing of mutable mappings held by callers: proposals, capsules and envelopes are values.
- Overflow of decimal exponents, and a `max_staleness` or lifetime in fractions of the time unit.
- Reading a transported transition's documents into capsules is a function parameter of the boundary; what the documents must look like is part of the kernel's schema check.
- `approval.py`: branch checks over the use registry. `status_from_signed_revocation`: a record it returns is what a provider sends.
- The async callback in `google_adk.py`, `adapters/openai_agents.py`, `adapters/microsoft_acs.py`, `demo/`, `tools/`, the static site: presentation and thin wrappers.
- `UseRegistry.commit_capsule`, `GovernedActionGateway.get`, `GovernanceGraph.snapshot`: they would only add easy members. The one-line lookups `UseRegistry.Count` and `AllocationLedger.Snapshot` are there without a row.

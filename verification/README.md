# Verified model of the agent core

Dafny models of the stateful cores of `src/agent_core` (authorization, budget, graph algorithms, adaptive
planning, evidence, memory, branching, session cookies and the event log), with proofs of what they
guarantee over whole runs. I/O is replaced by values: tables are sequences, dictionaries maps, and fresh
ids and clock readings are parameters.

`dafny verify dfyconfig.toml` checks the project.

## How it is built

A component that updates its fields is a class with those fields. Each of its methods is proved against a
function of the component's value (`State()`), branch by branch, and the whole-run results are lemmas about
folds of these functions (`Run`). The helper relations that several methods share (`Verdict`, `Confirms`,
`SufficiencyOf`, ...) are defined once, next to the method that is proved against them. Pure code
(the cookie, the fingerprint text) is functions. What each function of the model means is said once more without
it, on the fields of its inputs (`VerdictRuleByRule`, `RequestDecided`, `TurnSpelledOut`, ...).

| file | models |
|---|---|
| `Scope.dfy`, `ScopeRuns.dfy` | `scope/guard.py`: the guard, and its laws over rules and over runs |
| `GuardedFetch.dfy` | `ledger/state_tree.py` (budget), `orchestrator/engagement.py` (`_guarded_fetch`) |
| `Boundary.dfy` | `tools/capability.py`, `tools/execution_boundary.py`, `tools/contracts.py` |
| `Skills.dfy` | `skills/registry.py` |
| `Lineage.dfy` | `knowledge/compiler.py`: lineage edges and their closure |
| `Evidence.dfy`, `Verification.dfy` | `evidence/store.py`, `evidence/sufficiency.py`, `verification/*` |
| `Memory.dfy` | `memory/trusted.py`, `memory/replay_validate.py` |
| `Fingerprint.dfy`, `Branches.dfy` | `research/branch.py` |
| `Cookie.dfy` | `control_plane/auth.py`, with decimal text and Base64 |
| `EventLog.dfy` | `runtime/store.py`, `emit` of `runtime/engine.py`, the polling loop of `control_plane/app.py` |
| `Coverage.dfy`, `Selection.dfy` | `orchestrator/experiment_alignment.py`, `decisions/jev.py`, `experiments/utility.py` |
| `Adaptive.dfy`, `FollowUps.dfy`, `Choices.dfy` | `experiments/designer.py`, `orchestrator/adaptive.py`, and their joint guarantees |

## Assumptions

- Clocks: non-decreasing for the rate window; strictly increasing for evidence timestamps, because rows are
  ordered by timestamp and the order of equal timestamps is unspecified.
- SHA-256 over evidence is a free constructor: equal digests have equal payloads and none is `"GENESIS"`.
- HMAC and the key derivation are arbitrary functions; a derived key is not empty. The token is the
  configured text after `strip`.
- The `hash` of a fingerprint text is taken to be collision-free, so the text stands for it. That Python
  salts `hash` per process is not modelled.
- Floats are reals; `uuid4` gives fresh, non-empty ids.
- Skill names and experiment ids are distinct where a contract says so; nothing else is assumed about them.

## What the code does not give

The model follows the code. Where a reading of the documentation or of the code's comments would promise
more, the exact condition is proved; the examples named are proved on concrete inputs:

- `authorize_tool` allows something the boundary denies in one family: a contract whose name is all white
  space (`Boundary.ToolWithinBoundary`, with an input in `Boundary.BlankNameExample`). `register` accepts such a
  name, `request_execution` refuses it.
- A contract handed to the boundary's constructor is not available, so its tool can be allowed and used without
  being exposed until it is registered as well. A request keeps "exposed = allowed at least once" exactly when it
  is refused or its tool is available (`Boundary.RequestKeepsMatched`; over runs `Boundary.ExposedExactly`; an
  input in `Boundary.PreloadedExample`).
- `backtrack` can reopen a path that already failed: it refuses only if the path with the parent's
  experiments failed too (`Branches.BacktrackReplays`, over runs `Branches.BacktrackReplaysIff`, with a run in
  `Branches.ReplayExample`).
- Fingerprints confuse ids that contain `|`, hypothesis ids that contain `#`, and the empty id
  (`Fingerprint.ConfusedPaths`; which paths share a text otherwise is `Fingerprint.SameTextSamePath`).
- `compile` can emit edges both ways between two records, and `ancestors` then never returns
  (`Lineage.MutualReferenceDiverges`; exact condition in `Lineage.EndsExactlyWithoutCycle`).
- A deployment token of fewer than 16 characters mints cookies that never verify
  (`SessionCookie.CookieRoundTrip`).
- Two overlapping `emit` calls can take the same number, and the later event can fall behind a reader's
  cursor and be lost to it (`EventLog.OverlapLosesEvent`; exact conditions on the schedule in
  `EventLog.UniqueIffUndisturbed` and `EventLog.CompleteIffNotOvertaken`).
- CONFIRMED by the executable verifier does not mean that every listed requirement was met
  (`ExecutableCheck.ConfirmedRequirements`, with an input in `ExecutableCheck.ConfirmedWithUnmet`).
- Dropping the newest evidence row is not noticed (`Evidence.DeletionDetected`).
- The prior-experiment penalty is by substring: `exp_1` penalizes `exp_10` (`Utility.TenIsPenalizedForOne`;
  among minted ids exactly by leading digits, `Designer.PenaltyIsByPrefix`).
  A cost, risk or gain of 0.0 counts as missing (`Utility.CheaperIsBetterUnlessFree`).
- The stops `coverage_*_jev_stop`, `coverage_same_experiment_blocked` and `jev_stop` of the adaptive loop are
  unreachable (`FollowUps.CoverageStep`, `FollowUps.VariantStep`).

## Model

| member | source | states |
|---|---|---|
| `Scope.ScopeGuard.Authorize` | `src/agent_core/scope/guard.py:156-207` | the decision and the whole new guard state: exclusion first, then scope, rate window, best tier, unexpired approval; one audit entry |
| `Scope.ScopeGuard.RateCheck` | `src/agent_core/scope/guard.py:147-154` | admits iff fewer than the limit of hits are younger than 60 s; prunes in place and records the hit only if admitted |
| `Scope.ScopeGuard.MatchingRules` | `src/agent_core/scope/guard.py:144-145` | exactly the rules whose pattern matches the host, in their order, repeated ones repeated |
| `Scope.ScopeGuard.GrantApproval` | `src/agent_core/scope/guard.py:131-142` | stores the token under its fresh id with its expiry and logs the grant; nothing else changes |
| `Scope.EntryTellsVerdict` | `src/agent_core/scope/guard.py:170-207` | the audit entry of a call names its host and is an allow (deny) entry exactly when the decision is ALLOW (DENY) |
| `Scope.LiteralGlobIsEquality` | `src/agent_core/scope/guard.py:144-145` | a pattern without wildcards matches only itself |
| `Scope.GlobMeansPieces` | `src/agent_core/scope/guard.py:144-145` | a text matches iff it can be cut into one piece per pattern character: any for `*`, one character for `?`, itself otherwise |
| `Scope.NoImplicitWildcard` | `src/agent_core/scope/guard.py:144-145` | `*.d` never matches the bare `d`, whatever `d` is |
| `Scope.WildcardMatchesSubdomains` | `src/agent_core/scope/guard.py:144-145` | for a literal `d`, `*.d` matches exactly the hosts that end in `.d` |
| `ScopeRuns.RuleOrderIrrelevant` | `src/agent_core/scope/guard.py:168-199` | permuting or repeating rules changes neither decision nor next state |
| `ScopeRuns.InsertedRule` | `src/agent_core/scope/guard.py:170-190` | an exclusion inserted anywhere never produces ALLOW (and forces DENY where it matches); an allow rule inserted anywhere never loses ALLOW |
| `ScopeRuns.LowerTierKeepsAllow` | `src/agent_core/scope/guard.py:184-190` | lowering the requested risk tier never loses ALLOW |
| `ScopeRuns.TiersInOrder` | `src/agent_core/scope/guard.py:184-188` | the order of the four risk tiers |
| `ScopeRuns.VerdictRuleByRule` | `src/agent_core/scope/guard.py:168-207` | the exact condition of ALLOW and of DENY and the audit entry, by matching rules, hits younger than 60 s, tiers and unexpired tokens |
| `ScopeRuns.PruneKeepsRecent` | `src/agent_core/scope/guard.py:150` | pruning keeps exactly the times younger than 60 s, each as often as it occurs |
| `ScopeRuns.PruneTwice` | `src/agent_core/scope/guard.py:150` | pruning early loses nothing that a later pruning would keep |
| `ScopeRuns.WindowAgreesWithHistory` | `src/agent_core/scope/guard.py:147-154` | over every run under a non-decreasing clock, the pruned list and the full admission history hold the same hits of the last 60 s, seen from any later moment |
| `ScopeRuns.StoredListIsRecentHistory` | `src/agent_core/scope/guard.py:149-154` | after a rate check the stored list is exactly the full history filtered to the last 60 s |
| `ScopeRuns.DecidesByHistory` | `src/agent_core/scope/guard.py:151-154` | the bounded list admits a request iff the unbounded history would |
| `ScopeRuns.RateBound` | `src/agent_core/scope/guard.py:147-154` | over every run no 60-second interval holds more admissions of a host than the limit |
| `ScopeRuns.SettingsFixed` | `src/agent_core/scope/guard.py:156-207` | rules and limit never change; the log only grows, by one entry per operation |
| `ScopeRuns.ApprovalNeedsLiveGrant` | `src/agent_core/scope/guard.py:131-142` | over every run of a new guard, a request above every matching rule is allowed iff the last grant under its non-empty token id has not expired and fits the action |
| `ScopeRuns.ApprovalsAreGrants` | `src/agent_core/scope/guard.py:140` | over every run the stored tokens are those of the last grant of each id, expiring at start plus ttl |
| `Ledger.ExecutionLedger.SetBudget` | `src/agent_core/ledger/state_tree.py:255-263` | an upsert: new caps, spend so far and every other scope untouched |
| `Ledger.ExecutionLedger.Spend` | `src/agent_core/ledger/state_tree.py:265-288` | charges the scope (caps 200000/500 when it has no row) whether or not it fits; true iff both caps still hold |
| `GuardedFetch.Orchestrator.Fetch` | `src/agent_core/orchestrator/engagement.py:142-156` | authorize, then spend 50 tokens and one call, then fetch: outcome and new state of guard, ledger and wire |
| `GuardedFetch.FetchRuleByRule` | `src/agent_core/orchestrator/engagement.py:142-156` | the outcome of a call by rules, recent hits, its own tier and the row of the scope; no approval ever helps |
| `GuardedFetch.GuardRunsAlone` | `src/agent_core/orchestrator/engagement.py:142-156` | inside any run of fetches the guard behaves as it would alone |
| `GuardedFetch.WireIsAllowedPrefix` | `src/agent_core/orchestrator/engagement.py:142-156` | over every run the wire is exactly the first `Capacity` of the calls the guard allows, and every allowed call is charged, also after the breaker trips |
| `GuardedFetch.WireBound` | `src/agent_core/orchestrator/engagement.py:154-156` | for a fixed budget, n fetches satisfy calls + n <= call budget and tokens + 50 n <= token budget |
| `GuardedFetch.BreakerStaysTripped` | `src/agent_core/ledger/state_tree.py:280-288` | a scope over its budget stays over it and sends nothing more |
| `GuardedFetch.AllowedWithinAdmitted` | `src/agent_core/orchestrator/engagement.py:142-156` | what the guard allows for a host in an interval is at most what its rate check admitted |
| `GuardedFetch.WireRateBound` | `src/agent_core/orchestrator/engagement.py:142-156` | the per-host 60-second rate bound carries over to the fetches that really go out |
| `Capability.CapabilityTracker.MarkAvailable` | `src/agent_core/tools/capability.py:108-118` | adds the name to the available set, with its record |
| `Capability.CapabilityTracker.MarkExposed` | `src/agent_core/tools/capability.py:120-152` | exposes only what is available; otherwise records the failure |
| `Capability.CapabilityTracker.MarkUsed` | `src/agent_core/tools/capability.py:154-190` | records the use, and a failure when the capability was not exposed |
| `Boundary.ExecutionBoundary.Register` | `src/agent_core/tools/execution_boundary.py:79-83` | refuses a nameless contract, otherwise stores it and makes it available |
| `Boundary.ExecutionBoundary.RequestExecution` | `src/agent_core/tools/execution_boundary.py:85-232` | decision, audit entry, guard state and tracker state of every path through the fail-closed checks |
| `Boundary.RequestDecided` | `src/agent_core/tools/execution_boundary.py:128-222` | the exact condition of each reason, and the guard consulted only past the fail-closed checks |
| `Boundary.TierAsked` | `src/agent_core/tools/execution_boundary.py:169-175` | when the guard is asked for the destructive, the risky and the safe tier |
| `Boundary.RequestTracked` | `src/agent_core/tools/execution_boundary.py:109-125` | the one use record and the failures that a request adds |
| `Boundary.DenialsFiled` | `src/agent_core/tools/capability.py:220-232` | the failure class of each denial |
| `Boundary.ExposedAfter` | `src/agent_core/tools/execution_boundary.py:223-231` | a request exposes its tool iff it was allowed and the tool is available; availability never changes |
| `Boundary.RequestKeepsMatched` | `src/agent_core/tools/execution_boundary.py:223-231` | a request keeps exposed = allowed at least once, within available, iff it is refused or its tool is available |
| `Boundary.ExposedIsAllowed` | `src/agent_core/tools/execution_boundary.py:79-232` | over every run, wherever every contract is available at the start (so in particular with contracts added by register only), exposed = allowed at least once in the audit, and exposed is within available |
| `Boundary.ExposedExactly` | `src/agent_core/tools/execution_boundary.py:79-232` | over every run, whatever was preloaded: exposed at the end iff exposed before or allowed at a moment when available |
| `Boundary.AvailableExactly` | `src/agent_core/tools/execution_boundary.py:79-83` | available at the end iff available before or registered in the run |
| `Boundary.ExposedWithinAllowed` | `src/agent_core/tools/execution_boundary.py:69-77` | with contracts given to the constructor too, exposed stays within the allowed and the available tools |
| `Boundary.PreloadedToolStaysHidden` | `src/agent_core/tools/execution_boundary.py:69-77` | over every run a tool that was only handed to the constructor stays unexposed, however often it is allowed, until it is registered |
| `Boundary.PreloadedExample` | `src/agent_core/tools/execution_boundary.py:69-77` | a concrete preloaded contract whose first request is allowed and leaves it unexposed |
| `Boundary.AuditMatchesGuardLog` | `src/agent_core/tools/execution_boundary.py:85-232` | from any start, a run adds one audit entry per request, in order, and the hosts it lets through are one for one the hosts the guard logs as allowed |
| `Boundary.AuthorizeTool` | `src/agent_core/tools/contracts.py:59-104` | the exact condition of each of the five verdicts; the only effect is the guard call |
| `Boundary.ToolWithinBoundary` | `src/agent_core/tools/contracts.py:80-99` | what authorize_tool allows, the boundary allows for the same question, iff the contract name is not all white space |
| `Boundary.BlankNameExample` | `src/agent_core/tools/contracts.py:80-99` | a concrete contract named by one blank that authorize_tool allows and the boundary denies |
| `Boundary.BoundaryBeyondTool` | `src/agent_core/tools/execution_boundary.py:154-202` | exactly how much more the boundary allows: tools without authorization, and unknown side effects at the safe tier |
| `Skills.Route` | `src/agent_core/skills/registry.py:104-129` | exactly the relevant skills that pass the supply-chain gate, in registry order; distinct names stay distinct |
| `Skills.RoutedMembers` | `src/agent_core/skills/registry.py:117-128` | the three conditions of a candidate: technology, vulnerability class, trust of 0.6 or in-house origin |
| `Skills.LastOfNameWins` | `src/agent_core/skills/registry.py:133` | of several selected skills of one name the last one is looked up |
| `Skills.ResolveExecutionOrder` | `src/agent_core/skills/registry.py:131-148` | terminates on every selection, each name once; on distinct names a permutation that is topological iff the selection has no dependency cycle |
| `Skills.OrderBuilder.Visit` | `src/agent_core/skills/registry.py:137-144` | the recursive visit keeps order, visited set and open stack consistent, and finds a cycle whenever it cannot order |
| `Skills.OrderBuilder.VisitDependency` | `src/agent_core/skills/registry.py:141-143` | a selected dependency is emitted first, unless a back edge closes a cycle |
| `Skills.OrderBuilder.BackEdge` | `src/agent_core/skills/registry.py:138-143` | visited but not emitted means still open, and an edge to an open skill closes a dependency cycle |
| `Skills.SameNamesPermutation` | `src/agent_core/skills/registry.py:131-148` | the same distinct names make the order a permutation of the selection |
| `Skills.OrderedIsAcyclic` | `src/agent_core/skills/registry.py:131-148` | a selection with any topological permutation has no dependency cycle |
| `Lineage.Compile` | `src/agent_core/knowledge/compiler.py:158-194` | the edges of sources and records, de-duplicated |
| `Lineage.EdgesExactly` | `src/agent_core/knowledge/compiler.py:164-185` | an edge is emitted iff a source or record justifies it: five relations, each with its direction and its kind |
| `Lineage.FirstOccurrences` | `src/agent_core/knowledge/compiler.py:187-193` | the seen/unique loop keeps the first occurrence of every edge |
| `Lineage.DedupFacts` | `src/agent_core/knowledge/compiler.py:187-193` | de-duplication loses no edge and leaves none twice |
| `Lineage.DedupKeepsOrder` | `src/agent_core/knowledge/compiler.py:187-193` | survivors stay in order of first occurrence |
| `Lineage.ClosureStep` | `src/agent_core/knowledge/compiler.py:63-64` | above an acyclic record each parent is acyclic too and has strictly fewer ancestors |
| `Lineage.Ancestors` | `src/agent_core/knowledge/compiler.py:60-65` | terminates when no cycle lies above the record; duplicate-free and exactly the transitive closure of parents |
| `Lineage.LineageFor` | `src/agent_core/knowledge/compiler.py:67-70` | the record first, then its ancestors, no duplicate |
| `Lineage.EndsExactlyWithoutCycle` | `src/agent_core/knowledge/compiler.py:60-65` | the recursion depth is bounded iff no cycle lies above the record |
| `Lineage.RelatedEdgeEmitted` | `src/agent_core/knowledge/compiler.py:168-170` | every related id becomes a references edge |
| `Lineage.MutualReferenceDiverges` | `src/agent_core/knowledge/compiler.py:168-194` | two records that list each other make ancestors diverge, after de-duplication too |
| `Evidence.EvidenceStore.LastHash` | `src/agent_core/evidence/store.py:119-123` | the stored hash of a row than which none is later, the last one in timestamp order; GENESIS on an empty table |
| `Evidence.EvidenceStore.Record` | `src/agent_core/evidence/store.py:125-163` | appends one row linked to the newest and hashed over the listed fields |
| `Evidence.EvidenceStore.VerifyChain` | `src/agent_core/evidence/store.py:165-182` | true iff every row in timestamp order points at its predecessor and stores the hash of its own ten fields |
| `Evidence.VerifiesRowByRow` | `src/agent_core/evidence/store.py:165-182` | the same, as a condition on each row |
| `Evidence.EvidenceStore.CreateFinding` | `src/agent_core/evidence/store.py:215-223` | appends a CANDIDATE finding |
| `Evidence.EvidenceStore.SetFindingStatus` | `src/agent_core/evidence/store.py:225-230` | updates exactly the findings of that id |
| `Evidence.RecordKeepsChain` | `src/agent_core/evidence/store.py:125-182` | under a strictly increasing clock a recorded row keeps the chain valid |
| `Evidence.ChainUnique` | `src/agent_core/evidence/store.py:58-74` | two valid tables ending in the same hash have equal length and equal payloads in every row |
| `Evidence.LastHashFixesTable` | `src/agent_core/evidence/store.py:58-74` | so they agree on id, target, action, input, expected, observed, polarity, confidence, timestamp and predecessor of every row |
| `Evidence.HashFixesContent` | `src/agent_core/evidence/store.py:58-74` | two rows hash alike iff they agree on these ten fields |
| `Evidence.SameHashesVerifyAlike` | `src/agent_core/evidence/store.py:58-74` | artifact path, hypothesis and source may differ freely: only the hashed fields decide |
| `Evidence.EditDetected` | `src/agent_core/evidence/store.py:165-182` | an edited row with its old stored hash passes iff none of the ten fields changed; otherwise no row order passes |
| `Evidence.DeletionDetected` | `src/agent_core/evidence/store.py:165-182` | a deleted row passes unnoticed iff it was the newest |
| `Evidence.ByTimeSorts` | `src/agent_core/evidence/store.py:167` | ORDER BY timestamp is a sorted permutation of the table |
| `ReviewLoop.VerificationLoop.Run` | `src/agent_core/verification/loop.py:95-115` | the skeptic row is recorded whatever the verdict; accepted iff disproof was attempted and no answer is false |
| `ReviewLoop.TurnSpelledOut` | `src/agent_core/verification/loop.py:95-147` | a POSITIVE row and one finding iff the verdict is clean, else a NEGATIVE row and none; every field of the row |
| `ReviewLoop.FindingSpelledOut` | `src/agent_core/verification/loop.py:135-141` | title, severity, status and cited evidence of the finding |
| `ReviewLoop.VerificationLoop.Referee` | `src/agent_core/verification/loop.py:117-147` | a CONFIRMED finding iff disproof was attempted and every answer is clean; no other finding changes hands |
| `ReviewLoop.ConfirmedMeansSurvived` | `src/agent_core/verification/loop.py:95-147` | over every interleaving of record and run, findings are one for one the survived turns, CONFIRMED, citing a POSITIVE skeptic row of the same hypothesis in the table |
| `ReviewLoop.ConfirmedMeansClean` | `src/agent_core/verification/loop.py:58-62` | over every run each CONFIRMED finding stands for a review of the run with no false answer, one for one |
| `ReviewLoop.RowsAreWrites` | `src/agent_core/verification/loop.py:95-115` | the evidence table of a run is the log of all writes, whoever made them |
| `ReviewLoop.ChainHolds` | `src/agent_core/verification/loop.py:95-115` | under a strictly increasing clock verify_chain stays true over every interleaving and nothing recorded is lost |
| `ExecutableCheck.Tally` | `src/agent_core/evidence/sufficiency.py:50-59` | positives and negatives of the rows |
| `ExecutableCheck.Assess` | `src/agent_core/evidence/sufficiency.py:40-160` | counts, the exact condition of every level, and the reason codes in order |
| `ExecutableCheck.Gates` | `src/agent_core/evidence/sufficiency.py:107-119` | confirmation is possible iff no blocker is listed; each blocker with its condition |
| `ExecutableCheck.ExecutableVerifier.Verify` | `src/agent_core/verification/executable.py:109-260` | CONFIRMED iff positives >= max(1, min_positive) and negatives < positives among bearing rows; DISPROVED, statuses, cited ids, every requirement, and the met and unmet lists exactly |
| `ExecutableCheck.ExecutableVerifier.Judge` | `src/agent_core/verification/executable.py:157-260` | the branches on the partitioned rows: outcome, finding status and the reason the ladder adds |
| `ExecutableCheck.ExecutableVerifier.Partition` | `src/agent_core/verification/executable.py:122-139` | rows that bear on the hypothesis, by polarity, in order |
| `ExecutableCheck.BearingMembers` | `src/agent_core/verification/executable.py:132-139` | a row is taken in iff neither side names a hypothesis or both name the same one |
| `ExecutableCheck.OtherHypothesisChangesNothing` | `src/agent_core/verification/executable.py:125-139` | a row of another hypothesis, wherever it lands in the table, changes neither outcome nor status nor cited ids |
| `ExecutableCheck.RelatedRowCounts` | `src/agent_core/verification/executable.py:125-139` | a row of no, an empty or the same hypothesis is taken in and counts once, for its own polarity |
| `ExecutableCheck.OrderThenSelect` | `src/agent_core/verification/executable.py:118-139` | ordering by time and selecting the bearing rows commute |
| `ExecutableCheck.RequirementSpelledOut` | `src/agent_core/verification/executable.py:143-153` | when a requirement is met, and the first three ids it then cites |
| `ExecutableCheck.ExecutableVerifier.MarkRequirements` | `src/agent_core/verification/executable.py:141-153` | met requirements are marked with up to three ids, unmet ones untouched; both id lists in order |
| `ExecutableCheck.LadderCounts` | `src/agent_core/verification/executable.py:220-230` | the ladder counts on the regrouped rows what the partition counted |
| `ExecutableCheck.OrderKeepsVerdict` | `src/agent_core/verification/executable.py:118-121` | reading the table in timestamp order changes no verdict |
| `ExecutableCheck.EvidenceMonotone` | `src/agent_core/verification/executable.py:202-260` | in the table verify reads, a further positive or neutral row anywhere never loses CONFIRMED, a negative or neutral one never gains it |
| `ExecutableCheck.ReviewMovesVerdict` | `src/agent_core/verification/loop.py:102-113` | the row a survived review records never costs the verifier its confirmation, that of a failed review never brings one, whatever the skeptic wrote before |
| `ExecutableCheck.ConfirmedRequirements` | `src/agent_core/verification/executable.py:143-153` | on CONFIRMED, all requirements are met, and the unmet list is empty, iff each asks for positive evidence, or for negative evidence of which there is some |
| `ExecutableCheck.ConfirmedWithUnmet` | `src/agent_core/verification/executable.py:109-260` | a concrete contract and table on which verify confirms with an unmet requirement |
| `ExecutableCheck.AnyRequirementNeverMet` | `src/agent_core/verification/executable.py:143-153` | a requirement for any polarity is met by no evidence |
| `TrustedMemory.TrustedMemoryStore.AddCandidate` | `src/agent_core/memory/trusted.py:55-76` | a CANDIDATE under its fresh id at the end of the order, audited |
| `TrustedMemory.TrustedMemoryStore.ValidateItem` | `src/agent_core/memory/trusted.py:78-89` | VALIDATED with the evidence given; without evidence only a denial is audited |
| `TrustedMemory.TrustedMemoryStore.PromoteItem` | `src/agent_core/memory/trusted.py:91-109` | PROMOTED only past the three denials, each audited with its reason |
| `TrustedMemory.PromotionSpelledOut` | `src/agent_core/memory/trusted.py:91-109` | when a promotion goes through, by trust, source and evidence, and the reason audited otherwise |
| `TrustedMemory.TrustedMemoryStore.RevokeItem` | `src/agent_core/memory/trusted.py:111-119` | REVOKED with its note, whatever the state before |
| `TrustedMemory.TrustedMemoryStore.SupersedeItem` | `src/agent_core/memory/trusted.py:121-131` | SUPERSEDED with the replacement noted, whatever the state before |
| `TrustedMemory.TransitionsSpelledOut` | `src/agent_core/memory/trusted.py:78-131` | what validation, revocation and supersession write, and that nothing else changes |
| `TrustedMemory.TrustedMemoryStore.TrustedRefs` | `src/agent_core/memory/trusted.py:133-142` | the references of the live items that is_applicable accepts for the scope, in order |
| `TrustedMemory.RefsExactly` | `src/agent_core/memory/trusted.py:133-142` | a reference is handed out iff it is of a trusted or promoted item, global or of the scope: another scope is withheld |
| `TrustedMemory.TrustedMemoryStore.IsApplicable` | `src/agent_core/memory/trusted.py:144-153` | live, and global or of the same scope |
| `MemoryReplay.ValidateMemoryReplay` | `src/agent_core/memory/replay_validate.py:29-79` | the five passes in order; ok iff no failure |
| `MemoryReplay.Pass` | `src/agent_core/memory/replay_validate.py:33-77` | one loop reports every item failing one of its checks, in order, and nothing else |
| `MemoryReplay.ReportExactly` | `src/agent_core/memory/replay_validate.py:29-79` | each check is reported exactly where the fields of the item call for it; checks 2 and 3 can never report anything |
| `MemoryReplay.ReachableWellKeyed` | `src/agent_core/memory/trusted.py:55-131` | every reachable dictionary stores each item once, under its own id |
| `MemoryReplay.ReachableGrounded` | `src/agent_core/memory/trusted.py:78-131` | in every reachable store a VALIDATED or PROMOTED item has its evidence, and nothing is TRUSTED |
| `MemoryReplay.ReachableStorePasses` | `src/agent_core/memory/replay_validate.py:29-79` | every reachable store passes checks 1, 2, 3 and 5 for every scope; the report is ok iff no text claims execution rights |
| `MemoryReplay.SimulateCheckpointResume` | `src/agent_core/memory/replay_validate.py:82-92` | a fresh store equal in items, order and audit, hence the same report and references |
| `MemoryReplay.TrailTellsState` | `src/agent_core/memory/trusted.py:75-130` | the audit trail alone gives every trust state; an untrusted item is PROMOTED only directly after a validation |
| `Fingerprint.SortIsCanonical` | `src/agent_core/research/branch.py:57` | two lists sort alike iff they are equal as multisets |
| `Fingerprint.LexMeans` | `src/agent_core/research/branch.py:57` | the order of the sort: a prefix, or smaller at the first difference |
| `Fingerprint.SplitJoin` | `src/agent_core/research/branch.py:57` | splitting at bars undoes the join, for ids without bars |
| `Fingerprint.SameTextSamePath` | `src/agent_core/research/branch.py:56-58` | exactly which two paths share a fingerprint text when ids hold no bar and hypotheses no hash sign |
| `Fingerprint.CleanFingerprint` | `src/agent_core/research/branch.py:56-58` | for non-empty ids free of both signs: same text iff equal as multisets |
| `Fingerprint.ConfusedPaths` | `src/agent_core/research/branch.py:56-58` | outside that condition: a bar, a hash sign or an empty id does confuse paths |
| `Branches.BranchManager.RecordEvent` | `src/agent_core/research/branch.py:155-179` | appends an event whose parent is the last one |
| `Branches.BranchManager.OpenBranch` | `src/agent_core/research/branch.py:68-89` | appends an active branch and its event |
| `Branches.BranchManager.RecordExperiment` | `src/agent_core/research/branch.py:91-95` | appends to the first branch of that id only |
| `Branches.BranchManager.Terminate` | `src/agent_core/research/branch.py:97-118` | deactivates the first branch of that id and adds its fingerprint to the tried ones |
| `Branches.BranchManager.Backtrack` | `src/agent_core/research/branch.py:127-153` | refuses iff the branch is unknown or both fingerprints were tried; otherwise opens the branch and logs twice |
| `Branches.BacktrackAccepted` | `src/agent_core/research/branch.py:134-141` | over every run with clean ids, accepted iff the branch is known and not both paths, with its experiments and with none, have failed before |
| `Branches.BacktrackSpelledOut` | `src/agent_core/research/branch.py:142-153` | the new branch, its checkpoint and the two events |
| `Branches.BranchUpdatesSpelledOut` | `src/agent_core/research/branch.py:91-118` | what recording an experiment and terminating write to the branch found, and to no other |
| `Branches.RunInvariants` | `src/agent_core/research/branch.py:68-179` | over every run: parents form a forest over earlier branches, events one chain, failed paths stay tried, and nothing is taken back |
| `Branches.ReachesRoot` | `src/agent_core/research/branch.py:68-153` | from any branch the parent links end at a root |
| `Branches.TriedAreFailed` | `src/agent_core/research/branch.py:109-110` | the tried fingerprints are exactly those of the terminated paths |
| `Branches.RefusedIffFailedBefore` | `src/agent_core/research/branch.py:120-125` | over every run with clean ids a path is refused iff a branch with the same hypotheses and experiments, in any order, was terminated |
| `Branches.BacktrackReplays` | `src/agent_core/research/branch.py:137-146` | the branch an accepted backtrack opens, and the two tests under which its path had been tried |
| `Branches.BacktrackReplaysIff` | `src/agent_core/research/branch.py:137-146` | over every run with clean ids, an accepted backtrack reopens a failed path iff a branch with the same hypotheses was terminated before any experiment was recorded on it |
| `Branches.ReplayExample` | `src/agent_core/research/branch.py:137-146` | a run in which that happens |
| `Snapshots.Take` | `src/agent_core/research/branch.py:182-189` | the dictionaries of all branches and events, fingerprints sorted, each once |
| `Snapshots.Restore` | `src/agent_core/research/branch.py:192-228` | fails iff an id is missing; applies the defaults otherwise; restoring a snapshot gives back the very state |
| `Snapshots.RestoreDefaults` | `src/agent_core/research/branch.py:192-228` | the defaults of missing entries, and the missing id as the only failure |
| `Snapshots.SnapshotDetermines` | `src/agent_core/research/branch.py:182-228` | a snapshot decodes to one state only, the one it was taken of |
| `Snapshots.BranchRoundTrip` | `src/agent_core/research/branch.py:31-32` | from-dictionary undoes to-dictionary for a branch |
| `Snapshots.EventRoundTrip` | `src/agent_core/research/branch.py:48-49` | and for an event |
| `Decimal.ParsePrint` | `src/agent_core/control_plane/auth.py:90` | int(str(n)) == n for every integer |
| `Decimal.PrintIsPositional` | `src/agent_core/control_plane/auth.py:69` | one more digit multiplies by ten |
| `Base64.SymbolTable` | `src/agent_core/control_plane/auth.py:54-55` | the 64 symbols in the order of the URL-safe table |
| `Base64.GroupIsOneNumber` | `src/agent_core/control_plane/auth.py:54-55` | four symbols spell the same 24-bit number as three bytes |
| `Base64.StraysAreSkipped` | `src/agent_core/control_plane/auth.py:58-60` | characters outside the alphabet are skipped wherever they stand |
| `SessionCookie.TruncTowardZero` | `src/agent_core/control_plane/auth.py:68` | int of a float goes toward zero |
| `Base64.PadRestores` | `src/agent_core/control_plane/auth.py:54-60` | `-len % 4` restores exactly the padding that rstrip removed |
| `Base64.DecodeEncode` | `src/agent_core/control_plane/auth.py:54-60` | the decoder inverts the encoder on every byte string |
| `Base64.UnpaddedRoundTrip` | `src/agent_core/control_plane/auth.py:54-60` | `_unb64(_b64(data)) == data` for every byte string |
| `SessionCookie.MintedParts` | `src/agent_core/control_plane/auth.py:63-84` | what a verifier recovers from a minted cookie: the payload and its signature |
| `SessionCookie.MintedCookieVerifies` | `src/agent_core/control_plane/auth.py:63-98` | minted under one token, presented under another: accepted iff the second is long enough, both sign alike, and the time fits |
| `SessionCookie.CookieRoundTrip` | `src/agent_core/control_plane/auth.py:63-98` | for every timestamp: accepted iff the token has 16 characters, age <= TTL and issue <= now + 60 |
| `SessionCookie.CookiesTellTime` | `src/agent_core/control_plane/auth.py:63-71` | equal cookies carry equal timestamps |
| `SessionCookie.AcceptedIsSigned` | `src/agent_core/control_plane/auth.py:74-98` | whatever is accepted is a timely v1 payload with a matching signature |
| `EventTable.SessionStore.AppendEvent` | `src/agent_core/runtime/store.py:84-90` | INSERT OR REPLACE by event id |
| `EventTable.WithoutExactly` | `src/agent_core/runtime/store.py:84-90` | the rows of the same id are dropped, every other row kept |
| `EventTable.SessionStore.ListEvents` | `src/agent_core/runtime/store.py:92-106` | exactly the session's events beyond the number, ascending, found by a scan of the table |
| `EventTable.SessionStore.NextSequence` | `src/agent_core/runtime/store.py:108-116` | above every number of the session; 1, or one more than a number in use |
| `EventTable.Emit` | `src/agent_core/runtime/engine.py:36-40` | an undisturbed emit appends the next number and replaces nothing |
| `EventTable.BySequenceSorts` | `src/agent_core/runtime/store.py:96` | ORDER BY sequence is a sorted permutation |
| `EventLog.NumbersHaveNoGap` | `src/agent_core/runtime/engine.py:36-40` | under every interleaving of emitters and polls a session is numbered {1..max} |
| `EventLog.StaleAccounting` | `src/agent_core/runtime/engine.py:36-40` | events of a session = its maximum + its stale appends |
| `EventLog.ScheduleTracks` | `src/agent_core/runtime/engine.py:36-40` | read off the schedule alone: whether the number an emitter holds is still free, and whether it is beyond the reader's cursor |
| `EventLog.UndisturbedIffNoStale` | `src/agent_core/runtime/engine.py:36-40` | no number of the session is repeated iff none of its emits is disturbed, that is, has another emitter append to the session between its read and its append |
| `EventLog.UniqueIffUndisturbed` | `src/agent_core/runtime/engine.py:36-40` | numbers are 1, 2, 3, ... in order of appending iff no emit of the session is disturbed |
| `EventLog.SequentialUndisturbed` | `src/agent_core/runtime/engine.py:36-40` | emits of a session that do not overlap are undisturbed, with polls and other sessions anywhere in between |
| `EventLog.PollTakesRest` | `src/agent_core/control_plane/app.py:283-292` | a poll never moves the cursor back and delivers exactly what lies between the old and the new cursor |
| `EventLog.DeliveredPlusLate` | `src/agent_core/control_plane/app.py:279-292` | under every interleaving, events up to the cursor = delivered + late: nothing twice, nothing invented |
| `EventLog.CompleteIffNotOvertaken` | `src/agent_core/control_plane/app.py:279-292` | the reader misses nothing up to its cursor iff no emit of its session was passed by another one and then by a poll |
| `EventLog.PollingIsPrefix` | `src/agent_core/control_plane/app.py:279-292` | while no emit of its session is disturbed, at every moment, also within an emit, the batches are exactly the log prefix up to the cursor, in order |
| `EventLog.OverlapLosesEvent` | `src/agent_core/runtime/engine.py:36-40` | two overlapping emits do lose an event |
| `Coverage.GroupByRole` | `src/agent_core/orchestrator/experiment_alignment.py:482-487` | the observations of each role, in order; those without a role in no group |
| `Coverage.CoverSteps` | `src/agent_core/orchestrator/experiment_alignment.py:479-532` | status and observations of every step, by what its role needs |
| `Coverage.StepStatus` | `src/agent_core/orchestrator/experiment_alignment.py:495-521` | covered and missing by the number of observations of the role, one of each for a comparison |
| `Coverage.StepRefs` | `src/agent_core/orchestrator/experiment_alignment.py:495-521` | the observations a step refers to |
| `Coverage.ComputeSufficiency` | `src/agent_core/orchestrator/experiment_alignment.py:441-477` | missing dominates ambiguous; observe steps do not count; no steps is sufficient |
| `Coverage.SufficiencyMeans` | `src/agent_core/orchestrator/experiment_alignment.py:441-532` | sufficient iff every baseline, challenge and compare step has its unique observations; insufficient iff one has none at all |
| `Coverage.DeriveGap` | `src/agent_core/orchestrator/experiment_alignment.py:55-79` | the ids and roles of missing and ambiguous steps, each role once |
| `Coverage.StepsMembers` | `src/agent_core/orchestrator/experiment_alignment.py:65-78` | the step ids a gap lists |
| `Coverage.ListTargetRoles` | `src/agent_core/orchestrator/experiment_alignment.py:45-52` | missing roles first, then ambiguous ones, each once and none left out |
| `Coverage.GapTargets` | `src/agent_core/orchestrator/experiment_alignment.py:45-79` | the target roles of a derived gap are exactly the roles of steps not covered |
| `Coverage.OwnGapAddressed` | `src/agent_core/orchestrator/experiment_alignment.py:82-90` | an insufficient or ambiguous experiment has a gap with a target role and addresses it |
| `Coverage.PreferCovering` | `src/agent_core/orchestrator/experiment_alignment.py:93-105` | the two halves of the candidates |
| `Coverage.SplitIsPartition` | `src/agent_core/orchestrator/experiment_alignment.py:93-105` | the split loses and repeats nothing |
| `Coverage.SplitIsStable` | `src/agent_core/orchestrator/experiment_alignment.py:93-105` | each half keeps the order of the candidates and holds only its own kind |
| `Coverage.BaselineChallengePair` | `src/agent_core/orchestrator/experiment_alignment.py:535-545` | the first observation of each of the two roles |
| `Coverage.HeadWithRole` | `src/agent_core/orchestrator/experiment_alignment.py:539-544` | the head of a role is its first observation |
| `Jev.JEV.Choose` | `src/agent_core/decisions/jev.py:24-97` | stops iff asked to, without budget or without open experiment; otherwise the first maximum, the same for every positive budget; approval iff risk >= 0.6 |
| `Jev.Explain` | `src/agent_core/decisions/jev.py:69-95` | candidate, hypothesis, action, capped confidence and reason codes of the picked experiment |
| `Jev.ReasonsAreClaims` | `src/agent_core/decisions/jev.py:69-83` | a reason code is given iff what it claims of the experiment or the budget holds |
| `Jev.ArgMax` | `src/agent_core/decisions/jev.py:58-68` | max over the scores stops at the first maximum of the budget-free merit |
| `Jev.BudgetKeepsOrder` | `src/agent_core/decisions/jev.py:61-66` | a positive budget ratio never changes the order of scores |
| `Jev.MeritTrades` | `src/agent_core/decisions/jev.py:58-66` | what the score trades: gain, confidence, cost and risk, with their signs and weights |
| `Jev.ConfidenceOfLast` | `src/agent_core/decisions/jev.py:56-59` | the last hypothesis of an id gives the confidence |
| `Jev.OpenMembers` | `src/agent_core/decisions/jev.py:45` | open means planned or cached |
| `Jev.FirstMaximumUnique` | `src/agent_core/decisions/jev.py:68` | there is one first maximum |
| `Utility.ScoreUtility` | `src/agent_core/experiments/utility.py:69-138` | the breakdown: gain with its capped bonuses, debt capped at 1.5, zero gain, cost or risk read as missing, the 3.0 penalty, eligibility |
| `Utility.CountHits` | `src/agent_core/experiments/utility.py:39-55` | the hits of all evidence gaps, up to three for each |
| `Utility.UtilityBalance` | `src/agent_core/experiments/utility.py:80-119` | gain and debt for, cost, risk and penalty against; bonuses, caps and the readings of zero |
| `Utility.HitsSpelledOut` | `src/agent_core/experiments/utility.py:44-54` | the three ways in which one gap is hit |
| `Utility.GapsHelp` | `src/agent_core/experiments/utility.py:39-55` | a further gap never lowers the utility and adds a half per hit below the cap |
| `Utility.EligibleSpelledOut` | `src/agent_core/experiments/utility.py:58-66` | eligible iff it repeats no earlier id and every precondition is found |
| `Utility.SortDescHead` | `src/agent_core/experiments/utility.py:166-172` | the stable descending sort puts the first maximum at the head |
| `Utility.SelectByUtility` | `src/agent_core/experiments/utility.py:141-175` | a maximal-utility eligible experiment if there is one, else a maximal one, the earliest of equals; scores a sorted permutation |
| `Utility.EligiblePool` | `src/agent_core/experiments/utility.py:164-165` | who competes: the eligible ones, or everybody when nobody is eligible |
| `Utility.FindById` | `src/agent_core/experiments/utility.py:168-173` | looking the winner up by id finds it, when ids are distinct |
| `Utility.CheaperIsBetterUnlessFree` | `src/agent_core/experiments/utility.py:80-82` | a lower cost never hurts, except that zero counts as 0.3: exact condition |
| `Utility.PenaltyWithoutRunning` | `src/agent_core/experiments/utility.py:87-92` | an untried experiment is penalized iff a tried id is contained in its id |
| `Utility.TenIsPenalizedForOne` | `src/agent_core/experiments/utility.py:87-92` | exp_10 is penalized once exp_1 was tried |
| `Designer.ExperimentDesigner.Design` | `src/agent_core/experiments/designer.py:57-101` | a cache hit as a cached copy, a miss as a newly numbered, cached experiment |
| `Designer.DesignSpelledOut` | `src/agent_core/experiments/designer.py:57-101` | every field of the designed experiment, on a hit and on a miss |
| `Designer.KeyDistinguishes` | `src/agent_core/experiments/designer.py:64-65` | which hypotheses share a cached experiment: same id, same mode, same first 40 characters |
| `Designer.ExperimentDesigner.DesignPortfolio` | `src/agent_core/experiments/designer.py:103-113` | designs the open hypotheses in order, threading counter and cache |
| `Designer.ExpIdInjective` | `src/agent_core/experiments/designer.py:318-324` | different numbers give different experiment ids |
| `Designer.PenaltyIsByPrefix` | `src/agent_core/experiments/utility.py:87-92` | among minted ids, the prior penalty hits exactly those whose number begins with the digits of a tried one |
| `Designer.DesignMintsOnce` | `src/agent_core/experiments/designer.py:57-74` | over every design call each cache key keeps its one id and no two keys share one |
| `Designer.PortfolioFromPlan` | `src/agent_core/experiments/designer.py:103-113` | every portfolio experiment is usable and is the cached one of an open hypothesis |
| `Designer.PortfolioCoversPlan` | `src/agent_core/experiments/designer.py:103-113` | every open hypothesis has its experiment in the portfolio |
| `Adaptive.AdaptiveLoop.Step` | `src/agent_core/orchestrator/adaptive.py:80-433` | result and whole new loop state (tried set, designer, branches, root) on every path; what they mean is said by the members of Choices |
| `Choices.CoverageFollowsUpBest` | `src/agent_core/orchestrator/adaptive.py:94-189` | an insufficient or ambiguous experiment is followed up by the first of maximal merit among the untried experiments with a missing or ambiguous role, only without one by that among all untried ones; it stops when all were tried |
| `Choices.RejectionFollowsUpBest` | `src/agent_core/orchestrator/adaptive.py:202-337` | after a rejection: the first of maximal merit among the untried experiments of the alternatives, or a stop |
| `Choices.AlternativesSortedExactly` | `src/agent_core/orchestrator/adaptive.py:208-254` | the alternatives are exactly the open or supported hypotheses nothing has rejected, null explanations in front |
| `Choices.RejectedMembers` | `src/agent_core/orchestrator/adaptive.py:208-231` | which hypotheses count as rejected |
| `Choices.RejectionOpensBranch` | `src/agent_core/orchestrator/adaptive.py:256-260` | the branch opened for the alternatives, under the root |
| `Choices.RootOpensOnce` | `src/agent_core/orchestrator/adaptive.py:233-240` | the root branch: once, on the first five hypotheses, with the experiment that ran |
| `Choices.OtherEndings` | `src/agent_core/orchestrator/adaptive.py:192-433` | every other ending of a step, by the fields of the closed loop |
| `Choices.VariantExecutesFirst` | `src/agent_core/orchestrator/adaptive.py:377-424` | the variant executed is the first experiment that names a segment of its path, else the first of all |
| `Adaptive.AdaptiveLoop.StepCoverage` | `src/agent_core/orchestrator/adaptive.py:94-189` | the coverage path, with pool, JEV choice and its three stops |
| `Adaptive.AdaptiveLoop.StepRejection` | `src/agent_core/orchestrator/adaptive.py:202-337` | the rejection path, with root branch, alternatives, backtrack and untried candidates |
| `Adaptive.AdaptiveLoop.CollectRejected` | `src/agent_core/orchestrator/adaptive.py:208-231` | rejected hypotheses, then those that an update rejects with negative evidence, unless it speaks of the null |
| `Adaptive.AdaptiveLoop.EnsureRoot` | `src/agent_core/orchestrator/adaptive.py:233-240` | the root is opened once and the experiment that ran is recorded on it |
| `Adaptive.AdaptiveLoop.StepVariant` | `src/agent_core/orchestrator/adaptive.py:339-424` | the variant path |
| `Adaptive.AdaptiveLoop.FirstVariant` | `src/agent_core/orchestrator/adaptive.py:377-392` | the first experiment that mentions the variant path, the head by default |
| `Adaptive.AdaptiveLoop.Ask` | `src/agent_core/orchestrator/adaptive.py:142-144` | JEV with a positive budget stops iff nothing is open, and picks the first maximum |
| `FollowUps.CoverageStep` | `src/agent_core/orchestrator/adaptive.py:94-189` | the coverage path follows up iff some portfolio experiment is untried; its JEV stop and same-experiment stop never happen |
| `FollowUps.CoverageChoice` | `src/agent_core/orchestrator/adaptive.py:127-160` | from untried candidates JEV always picks one, whether or not any covers the gap |
| `FollowUps.RootStays` | `src/agent_core/orchestrator/adaptive.py:233-240` | the root branch exists from the first rejection on and can always be left |
| `FollowUps.RejectionStep` | `src/agent_core/orchestrator/adaptive.py:202-337` | every alternative gets a real branch: a reported backtrack is one |
| `FollowUps.VariantStep` | `src/agent_core/orchestrator/adaptive.py:339-424` | the variant path keeps every invariant, and its JEV stop never happens |
| `FollowUps.StepFacts` | `src/agent_core/orchestrator/adaptive.py:80-433` | on every path a follow-up is an untried experiment of the plan and not the one that just ran |
| `FollowUps.FollowupsArePaid` | `src/agent_core/orchestrator/adaptive.py:80-433` | over every run fed back, whatever happens to the plans, each follow-up uses up for good a key that was open at some time |
| `FollowUps.FollowupsAtMostEverOpen` | `src/agent_core/orchestrator/adaptive.py:80-433` | follow-ups terminate: at most one per hypothesis key that was ever open, however the loops turn out |
| `FollowUps.FollowupsBounded` | `src/agent_core/orchestrator/adaptive.py:80-433` | over one plan whose hypotheses may change status and confidence at every step: at most as many follow-ups as hypotheses |
| `FollowUps.FollowupsBoundedAcrossRetrieval` | `src/agent_core/orchestrator/adaptive.py:107-110` | at most twice as many if retrieval comes and goes in between |
| `FollowUps.FollowupsBoundedByOpen` | `src/agent_core/orchestrator/adaptive.py:80-433` | at most one per open hypothesis key while no status changes |

## Left out

- Globs: bracket classes of `fnmatch`; patterns are literals, `*` and `?`.
- Text: case folding, white space and payload bytes outside ASCII; Python's limit on the digits of an `int`.
- Guard: `from_scope_file`, the concurrency limit, notes, time stamps and ids of log entries.
- Ledger: nodes, checkpoints and `budget_status`; only the budget table is modelled.
- Boundary: request ids, contract versions, audit texts, a contract flag that is neither true nor false
  (`ambiguous_authorization` for that reason alone), `require` and `capability_differential`.
- Skills: directory loading and progressive disclosure; `max_risk_tier_allowed` of `route`, which the code ignores.
- Lineage: reading and matching of markdown; a record carries the source ids its text mentions.
- Evidence: finding time stamps; `list_evidence` and `negative_evidence_for`.
- Evidence.EvidenceStore.LastHash: rows with equal timestamps are taken in insertion order, although the
  database may return them in any; the results on chains assume strictly increasing timestamps.
- EventTable.SessionStore.ListEvents: rows with equal sequence numbers are taken in table order; the results
  under overlap speak of multisets. Rows whose JSON does not load are not modelled.
- Event stream: pings, the idle limit and the stop at a terminal session; polling may end at any step of a run.
- Memory: versions, time stamps and `detect_conflicts`.
- TrustedMemory.TrustedMemoryStore.AddCandidate: items are values in a map, so what a caller could do to an
  item object it was handed is not captured, and the item that a transition returns is not modelled; the same
  holds for branches and events in `Branches`.
- Verification: reason texts and result ids, `build_contract`, and the labels other than CONFIRMED that the
  referee returns without touching the store (the model returns why it did not accept).
- Cookie: `verify_bearer` and HTTP handling.
- Designer: the text of the templates and of procedure-driven experiments is a function parameter.
- Closed loop: how a verdict changes hypothesis statuses; plans may change at every step of a run.
- Adaptive: opportunity ranking, notes, selection reasons and decision objects in the result.
- Utility: `required_capability` of `score_utility`, which `select_by_utility` never passes; reason texts.
- Alignment: `interpret_discriminator`, `evaluate_required_evidence` and the other keyword heuristics.
- `ResearchRuntime`: threads, status and resume; only `emit` is modelled.
- SQLite, JSON, HTTP, browser, LLM and MCP code; lookup tables, scorecards and report rendering.

# Semantic Gate: a verified model

Semantic Gate turns a proposed action into a request that must pass a graph of gates (schema,
conditions, reads, a notification, human approvals, rechecks) before anything may run. A
version 2 policy ends in a signed authorization, kept in a durable store and consumed once by a
broker; a version 1 policy ends in a simulated or direct call. A controller in front of the
engine reserves idempotency keys durably; a stdio facade and signed human approvals stand
around it.

This project models those parts in Dafny and proves what they promise together.

| file | module | what it holds |
|---|---|---|
| `json.dfy` | `JsonValues` | JSON values, the engine's equality and comparisons |
| `graph.dfy` | `GateGraph` | reachability, the ancestor worklist, the cycle search |
| `policy.dfy` | `Policies` | policies, the loader, the caller's control floor |
| `claims.dfy` | `Claims` | request identity, authorization claims, issue and verify |
| `store.dfy` | `AuthorizationStore` | the authorization table, as functions and as an object |
| `protocol.dfy` | `ConsumptionProtocol` | any number of brokers and operators, step by step |
| `broker.dfy` | `Brokers` | one broker as an object, with failing store calls and operators at work meanwhile, and its call as a run of the protocol |
| `engine.dfy` | `GateEngine` | the engine's operations as functions on its state |
| `lifecycle.dfy` | `RequestLifecycle` | what one request keeps through its life |
| `safety.dfy` | `EngineSafety` | the engine's invariant over every run |
| `theorems.dfy` | `EngineTheorems` | what the engine promises |
| `evidence.dfy` | `EvidenceUse` | single use of approval evidence |
| `ingestion.dfy` | `ApprovalIngestion` | exactly which approval evidence the engine accepts |
| `runs.dfy` | `EngineRuns` | the promises over every run |
| `reentry.dfy` | `ReentrantApproval` | a concrete policy and the run that uses one approval twice |
| `gateway.dfy` | `Gateway` | the engine as an object with loops and re-entry, proved against `GateEngine` |
| `ledger.dfy` | `Ledgers` | idempotency bindings and request snapshots |
| `endtoend.dfy` | `EndToEnd` | controllers, engines, restarts, brokers and operators as one system |
| `coverage.dfy` | `SystemCoverage` | that the system's steps cover what each part does by itself |
| `controller.dfy` | `Controllers` | the controller, read-repair, and its call as steps of the system |
| `approvals.dfy` | `SignedApprovals` | roster, bridge, coordinator and the engine's checks behind them |
| `mcp.dfy` | `StdioFacade` | bounded line framing and the message lifecycle |

How the model is built:

- Hashes, canonical encodings and signatures are symbolic: a hash is what was hashed, a
  signature is a key and the body it signs.
- The engine's clock is any sequence of readings, counted one by one; that an approval ends within
  its gate's window asks for it to be monotone, and the acceptance of signed approvals for one
  fixed time.
- A callback (read tool, notifier, approval verifier, target) is any finite tree of calls back
  into the engine and of store steps by brokers and operators, with any answer or an exception.
- In the protocol each transaction of the source is one step, and each conditional UPDATE made
  in autocommit mode is a step of its own whose projection happens later, or never.
- Each engine answers for a set of keys (`own`). Alone it may answer for all of them; in the
  whole system the sets are those the controllers' reservations have sent to it.

Where the code falls short of a plain reading, the model keeps the code:

- Evidence is found unused before the approval verifier runs, and this is not looked at again.
  A verifier that itself ingests the same evidence id for another request leaves two gates
  approved on it (`EngineRuns.ReentrantVerifierBreaksSingleUse`, and the concrete run of
  `ReentrantApproval.OneEvidenceApprovesTwoRequests`). An accepted ingestion keeps single use
  exactly when the id is still unused once its verifier has run
  (`EvidenceUse.IngestKeepsSingleUseIff`); it is enough that nothing the verifier causes ingests
  that very id (`EvidenceUse.UncarriedEvidenceStaysSingle`), and then single use holds over every
  run (`EvidenceUse.EvidenceUsedOnce`).
- Retained snapshots agree with their rows on one connection; with several, a late projection
  overwrites a newer one (`ConsumptionProtocol.LateProjectionGoesStale`). A projection leaves its
  row current exactly when the state it carries is still the row's
  (`ConsumptionProtocol.ProjectionShowsIff`); over a whole run, if the projections of each row run
  in the order of their updates and none is dropped, every row with none outstanding is current
  (`ConsumptionProtocol.OrderedProjectionsStayCurrent`).
- A shared request row that was handed to a second authorization no longer names the first, and
  projections of the first then reach neither row nor snapshot
  (`AuthorizationStore.SnapshotStaysCurrentIff`); a read-repair shows the store's state under the
  condition of `Controllers.RepairShowsTheStoreIff`.

`dafny verify dfyconfig.toml` checks the whole project.

## Model

| member | source | states |
|---|---|---|
| JsonValues.EqualIffSameNormalForm | src/semantic_gate/engine.py:531-558 | the engine's equality is equality after integers and floats are put in one number domain, booleans apart; a value holding a non-finite float equals nothing |
| JsonValues.EqualIsEquivalence | src/semantic_gate/engine.py:531-558 | on finite values it is reflexive, symmetric and transitive |
| JsonValues.CompareMeans | src/semantic_gate/engine.py:561-588 | each operator said of the values alone: `lte`/`gte` hold exactly for an integer or finite float at most / at least the bound, `truthy` exactly for true, `eq`/`in` exactly for a finite value whose normal form is the expected one, or that of some listed value |
| JsonValues.CompareSeesNormalForm | src/semantic_gate/engine.py:561-588 | values of the same normal form are indistinguishable to every comparison operator |
| JsonValues.SplitDotsIsExact | src/semantic_gate/engine.py:522-528 | the parts of a path are what stands between its dots |
| JsonValues.PathLeadsTo | src/semantic_gate/engine.py:522-528 | a path is available exactly when objects lead to its end member by member, and its value is what stands there |
| JsonValues.InputResolvesIff | src/semantic_gate/engine.py:591-598 | a tool input resolves exactly when every path it mentions is available |
| GateGraph.Ancestors | src/semantic_gate/engine.py:464-473 | the worklist terminates with exactly the gates reachable through `requires` |
| GateGraph.Visit | src/semantic_gate/engine.py:449-458 | one depth-first visit either finds a cycle that exists or settles everything it reaches as acyclic |
| GateGraph.RejectCycles | src/semantic_gate/engine.py:445-461 | the search accepts if and only if the graph has no cycle |
| GateGraph.SomeGateIsMinimal | src/semantic_gate/engine.py:902-908 | in an acyclic graph every non-empty set of gates has one that waits for none of the others |
| Policies.CollectGates | src/semantic_gate/engine.py:290-302 | gates are collected exactly when all fields are valid and ids are non-empty and distinct |
| Policies.CheckAncestors | src/semantic_gate/engine.py:308-314 | accepted exactly when every approval reaches a notification and every recheck an approval |
| Policies.CheckExecute | src/semantic_gate/engine.py:315-337 | accepted exactly when there is one execute gate, on the target, behind a notification and an approval, rechecked after every approval when live, and simulation-only when not |
| Policies.EveryApprovalRechecked | src/semantic_gate/engine.py:325-335 | the nested search is true exactly when each awaited approval has an awaited recheck that waits for it |
| Policies.CheckWorkflow | src/semantic_gate/engine.py:259-337 | the loader's checks, the shape of the parameter schema among them, in order accept exactly the declarative workflow predicate over paths, and report a cycle only where there is one |
| Policies.LoadPolicy | src/semantic_gate/engine.py:238-338 | a policy is accepted exactly when its top fields and all its workflows are |
| Policies.ValidateParameters | src/semantic_gate/engine.py:476-519 | the parameters of a request are accepted exactly when all are declared, the required ones present, and each is finite and fits its declaration |
| Policies.WorkflowInForce | src/semantic_gate/engine.py:198-214 | gate by gate: same order, ids and requirements; what is no approval is equal; under step-up an approval asks for it within the policy's window or 300 seconds, whichever is smaller, and otherwise is equal; principals, target and parameters are equal |
| Policies.FloorOnlyRaises | src/semantic_gate/engine.py:198-214 | the effective control is the larger of policy and floor, every approval in force asks for it, each gate is what the policy's own becomes, and an accepted workflow stays accepted |
| Claims.VerifiesExactlyIssued | src/semantic_gate/authorization.py:45-77 | a token verifies exactly if this authority issued it, for that audience, from its issue time up to but not including its expiry |
| Claims.IssueSignsExactly | src/semantic_gate/authorization.py:45-77 | signing succeeds exactly for complete bodies with matching, non-empty, distinct evidence and provenance, and signs the body as given under its own issuer |
| Claims.TamperedTokensFail | src/semantic_gate/authorization.py:55-63 | no claim of a verified token can be changed under its signature, at whatever time and for whatever audience it is shown |
| AuthorizationStore.SQLiteAuthorizationStore.Project | src/semantic_gate/authorization.py:168-184 | the retained snapshot and the shared request row are rewritten together, or neither, to the state named in the table of public states |
| AuthorizationStore.SQLiteAuthorizationStore.RecordIssued | src/semantic_gate/authorization.py:186-209 | inserts an issued row, with the snapshot given or one made from the token, replays an identical one, refuses a conflicting token or an inconsistent snapshot |
| AuthorizationStore.SQLiteAuthorizationStore.GetForRequest | src/semantic_gate/authorization.py:216-218 | finds the row of a request latest by issue time, then by id, or none |
| AuthorizationStore.SQLiteAuthorizationStore.BeginConsumption | src/semantic_gate/authorization.py:247-263 | reserves an issued, unexpired row; an expired one is committed as expired and refused |
| AuthorizationStore.SQLiteAuthorizationStore.Complete | src/semantic_gate/authorization.py:265-273 | closes an executing row with its outcome and receipt, and nothing else |
| AuthorizationStore.SQLiteAuthorizationStore.Cancel | src/semantic_gate/authorization.py:275-283 | cancels an issued row, repeats on a cancelled one, refuses the rest |
| AuthorizationStore.SQLiteAuthorizationStore.RecoverInterrupted | src/semantic_gate/authorization.py:285-293 | an executing row becomes unknown under a named actor |
| AuthorizationStore.SQLiteAuthorizationStore.MarkUnknown | src/semantic_gate/authorization.py:295-302 | an executing row becomes unknown with the broker's receipt |
| AuthorizationStore.SQLiteAuthorizationStore.Reconcile | src/semantic_gate/authorization.py:304-312 | an unknown row becomes executed or failed under a named actor |
| AuthorizationStore.SQLiteAuthorizationStore.RevokeAllIssued | src/semantic_gate/authorization.py:230-245 | the loop cancels exactly the issued rows and returns how many |
| AuthorizationStore.CallsFollowLifecycle | src/semantic_gate/authorization.py:186-312 | every store call, bulk revocation included, moves every row along the lifecycle's edges only; token and expiry are fixed, a consumer is written once |
| AuthorizationStore.WrittenRowsAreTold | src/semantic_gate/authorization.py:168-312 | after every store call, a row it wrote and that projections reach is shown in the snapshot and in the ledger row as what it is: issued as authorized, executing as consuming, unknown as outcome_unknown, each other state under its own name |
| AuthorizationStore.OneConnectionKeepsSnapshotsCurrent | src/semantic_gate/authorization.py:168-312 | on one connection every retained snapshot that projections reach reads, by name, as its row's state after every call, bulk revocation and a replayed `record_issued` included |
| AuthorizationStore.LedgerNamesStay | src/semantic_gate/authorization.py:186-209 | projections go on reaching every row as long as no shared request row is handed to a second authorization |
| AuthorizationStore.SnapshotStaysCurrentIff | src/semantic_gate/authorization.py:168-184 | exactly when an update and its projection, done together, leave the snapshot showing the new state |
| AuthorizationStore.RevocationIsExact | src/semantic_gate/authorization.py:230-245 | bulk revocation leaves no issued row, its count is exact, all other rows are framed |
| AuthorizationStore.RevocationKeepsCurrent | src/semantic_gate/authorization.py:237-242 | and keeps the retained snapshots current |
| AuthorizationStore.OneLatest | src/semantic_gate/authorization.py:216-218 | the order by issue time and id has one latest row: none was issued later, and on a tie it has the larger id |
| ConsumptionProtocol.ApplyKeepsConsistent | src/semantic_gate/authorization.py:336-370 | every step of brokers, operators, crashes and late projections keeps the protocol's invariant: one holder per reserved row, no run past its reservation without it |
| ConsumptionProtocol.StepsFollowLifecycle | src/semantic_gate/authorization.py:247-312 | at the grain of single statements rows still move along lifecycle edges only |
| ConsumptionProtocol.EveryInterleavingIsConsistent | src/semantic_gate/authorization.py:336-370 | and so for every interleaving |
| ConsumptionProtocol.AtMostOnce | src/semantic_gate/authorization.py:336-370 | each authorization's target is called at most once, for its own requester and target, under a token of the broker's authority, audience and policy with execution enabled and simulation-only false, after a check made before expiry; its row is then executing, executed, unknown, or failed by reconciliation |
| ConsumptionProtocol.DispatchFollowsChecks | src/semantic_gate/authorization.py:336-370 | before any target call its run was admitted under a live token, reserved the row, had its recheck passed and found the token live again at the recorded time, in this order, whatever else interleaves |
| ConsumptionProtocol.ClosedRowsAreNeverCalled | src/semantic_gate/authorization.py:265-283 | a row that was simulated, failed by completion, cancelled or expired was never dispatched and never will be |
| ConsumptionProtocol.RowsAreTruthful | src/semantic_gate/authorization.py:353-370 | over every interleaving a row becomes simulated only under a token that asks for no real call, and executed only when its target was called or an operator reconciled it |
| ConsumptionProtocol.FinalRowsStay | src/semantic_gate/authorization.py:265-312 | a closed row keeps its state and receipt over every continuation |
| ConsumptionProtocol.LateProjectionGoesStale | src/semantic_gate/authorization.py:285-312 | from every executing row: recovery and reconciliation with their projections reversed leave the snapshot at `outcome_unknown` |
| ConsumptionProtocol.ProjectionShowsIff | src/semantic_gate/authorization.py:168-184 | a projection, run at whatever time, leaves its snapshot current exactly when the state it carries is still the row's |
| ConsumptionProtocol.OrderedProjectionsStayCurrent | src/semantic_gate/authorization.py:265-312 | over every interleaving in which each row's projections run in update order and none is dropped, a row they reach with none outstanding shows its state |
| Brokers.AuthorizationBroker.ConsumeId | src/semantic_gate/authorization.py:336-370 | the checks, callbacks, store updates, receipts and exits of one call, on every path: a live call only where execution is enabled and the token is not for simulation; store calls that are refused, lose a race to what operators do meanwhile, or raise before, between or after their writes |
| Brokers.CallIsARun | src/semantic_gate/authorization.py:328-370 | that call, whatever operators do during its callbacks and wherever its store calls raise, leaves the same database as some run of the protocol and calls the target in the same cases, under the same token |
| Brokers.CallsTargetOnce | src/semantic_gate/authorization.py:336-370 | from any state of the protocol, a call reaches the target only if the authorization's target was never called, and leaves a row no later call can reserve |
| Brokers.VerdictsAreTrue | src/semantic_gate/authorization.py:353-370 | the target was called exactly under the verdicts done and in doubt; a receipt handed back is the one in the row, in the state it claims |
| Brokers.CalledIff | src/semantic_gate/authorization.py:336-370 | one call reaches the target exactly when both checks of the token, the reservation and the eligibility recheck succeed and the token's own flags ask for a real call |
| Brokers.OthersAreSimulated | src/semantic_gate/authorization.py:356-358 | any other token that clears ends its row simulated, with that receipt, when its write works, and never reaches the target |
| RequestLifecycle.FiringKeepsRequest | src/semantic_gate/engine.py:897-1098 | any firing of a ready gate that fits its definition keeps the whole request invariant |
| RequestLifecycle.ApprovalsListed | src/semantic_gate/engine.py:1004-1007 | the approvals the execute gate works with are exactly those it reaches |
| RequestLifecycle.MinExpiryBounds | src/semantic_gate/engine.py:1022-1022 | the computed expiry is at most the policy's window and every approval's expiry |
| RequestLifecycle.SignedTokenBinds | src/semantic_gate/engine.py:1021-1047 | a signed token copies its request, expires within policy and approvals, and lists exactly the evidence of the approvals it waits for |
| RequestLifecycle.ApproveKeeps | src/semantic_gate/engine.py:875-890 | recording an approval on the waiting gate keeps the request invariant |
| RequestLifecycle.CancelKeeps | src/semantic_gate/engine.py:825-826 | cancelling an open or authorized request keeps it |
| EngineSafety.SomeGateReady | src/semantic_gate/engine.py:1094-1098 | the graph facts checked at load time leave some gate ready in every advancing request |
| EngineSafety.PrepareOk | src/semantic_gate/engine.py:911-1090 | what firing does before a callback keeps the engine's invariant |
| EngineSafety.ConcludeOk | src/semantic_gate/engine.py:926-993 | and so does what it does with any answer of the callback |
| EngineSafety.ConcludeIssueOk | src/semantic_gate/engine.py:1048-1057 | signing and recording, failing before or after the commit, keep it: a row exists only for a fired execute gate, and belongs to its request |
| EngineSafety.CallbackOk | src/semantic_gate/engine.py:645-653 | whatever a callback calls, its own request comes back unchanged and the set of active requests comes back as it was |
| EngineSafety.RunCallsOk | src/semantic_gate/engine.py:699-895 | every sequence of public calls, with any callbacks and store steps inside, keeps the invariant and the frame |
| EngineSafety.AdvanceOk | src/semantic_gate/engine.py:897-1098 | advancing terminates, never gets stuck, and never leaves the request in `processing` |
| EngineSafety.EvidenceFits | src/semantic_gate/engine.py:831-871 | evidence that passes the checks fits the waiting gate it will be recorded on, in strength and in time |
| EngineTheorems.EveryRunIsSafe | src/semantic_gate/engine.py:699-895 | every state an engine reaches, from a store that holds nothing for its keys, satisfies the invariant |
| EngineTheorems.ClosedAndActiveRequestsStay | src/semantic_gate/engine.py:612-653 | closed states are absorbing, and requests inside callbacks are framed |
| EngineTheorems.AncestorsSatisfiedFirst | src/semantic_gate/engine.py:902-908 | when a gate fires, everything it reaches has been satisfied before |
| EngineTheorems.DispatchWithinWindows | src/semantic_gate/authorization.py:349-370 | at a dispatch the broker's last check fell inside the windows of the token and of every awaited approval, each measured by the policy's own gate |
| EngineRuns.NothingIsLeftProcessing | src/semantic_gate/engine.py:659-661 | after every run nothing is `processing` and a workflow is retained for exactly the open requests |
| EngineRuns.NoRunGetsStuck | src/semantic_gate/engine.py:1094-1098 | after every run no public call raises "made no progress" |
| EngineRuns.ClosedStays | src/semantic_gate/engine.py:612-612 | what is closed after a run is unchanged by everything that follows |
| EngineRuns.GatesFireInOrder | src/semantic_gate/engine.py:902-908 | over a request's whole life, pauses included, gates fire without repetition in an order extending the closure of `requires` |
| EngineRuns.RunsDecideConditions | src/semantic_gate/engine.py:914-925 | a condition of the policy that fired passed exactly on a value standing in the policy's relation at the policy's path; on any other, or none, the request is blocked by it |
| EngineRuns.RunsReadWhatIsExpected | src/semantic_gate/engine.py:926-947 | a read of the policy that was satisfied returned a value standing in the relation the policy expects |
| EngineRuns.RunsRecheckEveryApproval | src/semantic_gate/engine.py:325-335 | in a live policy, when the execute gate has fired each awaited approval was followed by a recheck of the policy, and the value it read stands in the relation the policy expects |
| EngineRuns.RunsNotifyBeforeAsking | src/semantic_gate/engine.py:948-993 | an approval is asked for only after a notice naming this request, gate, recipient and template, delivered if the policy is enforcing |
| EngineRuns.RunsUseNoticesOnce | src/semantic_gate/engine.py:966-975 | no notification id is held by two gates |
| EngineRuns.RunsNestWindows | src/semantic_gate/engine.py:1004-1022 | issue < token expiry <= issue + policy window; token expiry <= every awaited approval's expiry <= its consumption + the window of the policy's own gate, and + 300 seconds where policy or caller ask for step-up |
| EngineRuns.RunsNeverOverclaim | src/semantic_gate/engine.py:1021-1037 | every approval named in a stored token is at least as strong as the assurance the token claims, mixed workflows included |
| EngineRuns.RunsIssueOnce | src/semantic_gate/engine.py:1003-1092 | a request has at most one authorization row, and then its engine calls no target itself |
| EngineRuns.RunsAcceptRequestIff | src/semantic_gate/engine.py:699-777 | after every run a request is accepted exactly when the action, requester, key, principal and parameters allow it and its key is unused or was used for the very same request; what is accepted is, field by field, what was asked |
| EngineRuns.RunsAcceptEvidenceIff | src/semantic_gate/engine.py:831-895 | after every run evidence is accepted exactly when the request waits and is in no callback, the decision approves under a non-empty unused id, request, hash and gate are those of the one waiting gate, expiry, actor and assurance are in order and the verifier trusts it; the gate then holds just that; in every other case the ingestion itself changes nothing |
| EngineRuns.RunsCancelIff | src/semantic_gate/engine.py:805-828 | after every run a request is cancelled exactly when its requester asks and it waits, or is authorized and the store cancels its row; otherwise no request changes |
| EngineRuns.CancelledStaysUndispatched | src/semantic_gate/engine.py:805-828 | a request shown cancelled, with an authorization or without, was neither dispatched by a broker nor called by the engine, and is not in any continuation |
| EngineRuns.RunsUseEvidenceOnce | src/semantic_gate/engine.py:848-891 | if no verifier causes the ingestion of the evidence it is asked about, no evidence is held by two gates, and what is held is consumed |
| EvidenceUse.IngestKeepsSingleUseIff | src/semantic_gate/engine.py:848-895 | an accepted ingestion keeps single use exactly when its evidence id is still unused after its verifier |
| EvidenceUse.UncarriedEvidenceStaysSingle | src/semantic_gate/engine.py:848-895 | if nothing the verifier causes ingests that very id, single use is kept |
| EvidenceUse.EvidenceUsedOnce | src/semantic_gate/engine.py:848-891 | over such runs the consumed set is exactly the evidence held by approved gates, each by one gate, and every token body handed to the signer listed non-empty, distinct evidence keying its provenance |
| EvidenceUse.BodyAtIssueIsBacked | src/semantic_gate/engine.py:1021-1047 | at the moment of signing, while single use holds, the body built passes those checks of the signer |
| EvidenceUse.AcceptedEvidenceIsHeld | src/semantic_gate/engine.py:875-895 | accepted evidence is held by the gate it was checked against |
| ApprovalIngestion.WaitingGateTerms | src/semantic_gate/coordinator.py:90-95 | a waiting request has exactly one waiting gate, carrying its definition's window, at the request's control |
| ApprovalIngestion.PresentableIff | src/semantic_gate/engine.py:831-870 | the checks before the verifier refuse exactly what is not presentable, said of the fields of the evidence and the state |
| ApprovalIngestion.IngestAcceptsIff | src/semantic_gate/engine.py:831-895 | accepted exactly when presentable and trusted, and then held by its gate whatever the gates after it do; a refusal leaves the request unchanged |
| ApprovalIngestion.TrustedIsAccepted | src/semantic_gate/engine.py:870-895 | evidence that passes the checks and its verifier is accepted, and stays on its gate |
| EngineRuns.RunsBuildDistinctClaims | src/semantic_gate/engine.py:1021-1037 | every token body handed to the signer during such a run listed, as it was handed over, non-empty, distinct evidence ids keying the provenance: those checks of the signer cannot fail |
| EngineRuns.ReentrantVerifierBreaksSingleUse | src/semantic_gate/engine.py:848-875 | after any run with two requests waiting, a verifier that ingests the same id for the other breaks single use |
| ReentrantApproval.OneEvidenceApprovesTwoRequests | src/semantic_gate/engine.py:848-875 | a concrete accepted policy and run in which that happens |
| ReentrantApproval.RequestWaits | src/semantic_gate/engine.py:897-1002 | in that policy a request is told about, then waits: the exact state, gate by gate |
| Gateway.GatewayEngine.constructor | src/semantic_gate/engine.py:615-643 | a new engine over a store that holds nothing for its keys |
| Gateway.GatewayEngine.AwaitedApprovals | src/semantic_gate/engine.py:1004-1007 | filtering the ancestor worklist gives the approvals reached, in workflow order |
| Gateway.GatewayEngine.FireGate | src/semantic_gate/engine.py:910-1092 | firing in place does what the engine's function says, for every kind of gate |
| Gateway.GatewayEngine.CallbackScope | src/semantic_gate/engine.py:645-653 | real re-entry between marking and unmarking the request does what the function says |
| Gateway.GatewayEngine.FinishRead | src/semantic_gate/engine.py:926-947 | pass, block or fail on a read's result |
| Gateway.GatewayEngine.FinishNotify | src/semantic_gate/engine.py:948-993 | bind, consume, block or fail on a notifier's answer |
| Gateway.GatewayEngine.CheckBeforeExecuting | src/semantic_gate/engine.py:1003-1078 | expired approvals, missing authorities and simulation end the request before anything is called |
| Gateway.GatewayEngine.SomeExpired | src/semantic_gate/engine.py:1008-1012 | each awaited approval is compared with a reading of the clock of its own |
| Gateway.GatewayEngine.BuildClaims | src/semantic_gate/engine.py:1020-1043 | the loop over the approvals yields the earliest expiry, their evidence ids and their provenance; every other claim is the request's, the gate's or the policy's |
| Gateway.GatewayEngine.IssueAuthorization | src/semantic_gate/engine.py:1020-1057 | signs, shows and records, and fails closed |
| Gateway.GatewayEngine.AdvanceRequest | src/semantic_gate/engine.py:897-1098 | the nested scan loops compute the engine's function, terminate, and never reach the error branch |
| Gateway.GatewayEngine.CheckRequest | src/semantic_gate/engine.py:710-731 | the checks of a submission, in order |
| Gateway.GatewayEngine.CheckEvidence | src/semantic_gate/engine.py:834-869 | the checks of approval evidence, in order, against the first waiting gate |
| Gateway.GatewayEngine.RequestAction | src/semantic_gate/engine.py:699-777 | the tables and the response are those of the function, and the invariant holds after |
| Gateway.GatewayEngine.CancelRequest | src/semantic_gate/engine.py:805-828 | the same for cancellation, the store's projection left to a later step |
| Gateway.GatewayEngine.IngestTrustedApproval | src/semantic_gate/engine.py:831-895 | the same for an approval, re-entrant verifier included |
| Ledgers.Ledger.ReserveIdempotency | src/semantic_gate/storage.py:141-156 | reserves a free key, answers a completed one, refuses another fingerprint or one in progress |
| Ledgers.Ledger.CompleteReservedRequest | src/semantic_gate/storage.py:158-171 | binding and request row are written together, or neither |
| Ledgers.Ledger.CompareAndSwapRequest | src/semantic_gate/storage.py:107-114 | replaces a snapshot only if it is exactly the expected one |
| Ledgers.Ledger.RecordRequest | src/semantic_gate/storage.py:85-100 | inserts or replaces one snapshot |
| Ledgers.Ledger.ExpireUnresolved | src/semantic_gate/storage.py:231-244 | expires exactly the unresolved snapshots, frames the rest, and counts them |
| Ledgers.LedgerRuns | src/semantic_gate/storage.py:141-171 | over any calls a binding goes absent, reserved, complete on one fingerprint, and a complete binding has its request's row |
| Ledgers.RepeatFindsTheFirstRequest | src/semantic_gate/storage.py:141-171 | after a completion, forever: the same payload finds that request, any other is refused |
| EndToEnd.ApplyOk | src/semantic_gate/controller.py:87-114 | every step of the whole system keeps its invariant |
| EndToEnd.TargetRunsOncePerKey | src/semantic_gate/controller.py:95-112 | over every interleaving of controllers, some calling from inside an engine's callbacks, engines and restarts, brokers, operators and crashes, the target of one principal and key runs at most once |
| EndToEnd.EffectsAgree | src/semantic_gate/authorization.py:247-263 | in any state of the invariant two effects for one key are the same effect |
| EndToEnd.NotBoth | src/semantic_gate/engine.py:1015-1092 | a broker and a version 1 engine never both run the target of one key |
| EndToEnd.EffectsAreMeantForReal | src/semantic_gate/authorization.py:353-370 | whatever the interleaving, no target is run, by a broker or directly, for a request whose declared execute gate is simulation-only or whose policy disables execution; what a broker runs is the declared target, on the parameters asked for, for the requester |
| EndToEnd.SubmittedOncePerKey | src/semantic_gate/controller.py:95-112 | the backend is called at most once per key, and a complete binding has its request's row |
| EndToEnd.DispatchesRespectApprovals | src/semantic_gate/authorization.py:349-370 | every dispatch of the system fell inside the windows of its token and of every approval its request waits for, each measured by the policy's own gate |
| SystemCoverage.EnginesStart | src/semantic_gate/engine.py:615-643 | an engine may start, or restart, at any time, knowing nothing but the store |
| SystemCoverage.EngineCallsAreSteps | src/semantic_gate/engine.py:805-895 | every cancellation and ingestion by any engine, with whatever its callbacks do, is a step that moves that engine and the store alone |
| SystemCoverage.StoreRunsAreSteps | src/semantic_gate/authorization.py:247-370 | every run of brokers and operators is a run of the system |
| SystemCoverage.LedgerWritesAreSteps | src/semantic_gate/storage.py:85-114 | every write to the ledger's request table is a step |
| SystemCoverage.NestedCallsStart | src/semantic_gate/controller.py:87-101 | a controller inside a callback of its engine reserves the key, and the engine's callbacks may then submit it |
| SystemCoverage.NestedCallsComplete | src/semantic_gate/controller.py:102-114 | once the engine holds the request as submitted, its snapshot completes the binding and the ledger row |
| SystemCoverage.ControllersMayStop | src/semantic_gate/controller.py:95-112 | a controller may stop anywhere after its reservation, which then stays |
| Controllers.RepairShowsTheStoreIff | src/semantic_gate/controller.py:39-58 | without concurrent writers the ledger shows the store's state, by name, after a repair exactly when the snapshot named its authorization or the retained one is current |
| Controllers.RepairIsIdempotent | src/semantic_gate/controller.py:39-58 | a second repair changes nothing |
| Controllers.RepairAfterStoreRuns | src/semantic_gate/controller.py:39-58 | after any run of store calls on one connection and any other write to a ledger row that keeps its authorization, one repair shows the store's state and a second changes nothing |
| Controllers.RepairReplacesOnlyWhatItRead | src/semantic_gate/controller.py:39-58 | whatever is written between its reads and its swap, a repair touches no store row and replaces only the snapshot it read, if still exactly that, and otherwise shows the present one |
| Controllers.GateControl.SyncAuthorization | src/semantic_gate/controller.py:39-58 | the lookup, the comparison and the swap compute that repair |
| Controllers.GateControl.RequestAction | src/semantic_gate/controller.py:87-114 | reservation, backend call and completion, on every path |
| Controllers.GateControl.GetRequest | src/semantic_gate/controller.py:139-151 | owner check, repair, then the ledger for settled states and the live engine for open ones |
| Controllers.ControllerCallIsThreeSteps | src/semantic_gate/controller.py:87-114 | undisturbed, that call is the system's reserve, backend and complete steps |
| Controllers.FingerprintTellsSubmissions | src/semantic_gate/controller.py:90-94 | key and fingerprint together tell any two submissions apart |
| Controllers.RepeatIsAnsweredFromTheLedger | src/semantic_gate/controller.py:97-101 | after any run a completed key calls no backend; the answer for a missing request is never given |
| SignedApprovals.EnrolKeys | src/semantic_gate/approvals.py:54-66 | the roster is built exactly from well-formed entries, all or none, and then holds each as configured and nothing else |
| SignedApprovals.RosterVerifiesIff | src/semantic_gate/approvals.py:80-96 | the roster verifies exactly what some configured entry signed: its key over this very body, naming this request, its hash and approve, its actor, one of its assurances, in time |
| SignedApprovals.HostEvidencePasses | src/semantic_gate/coordinator.py:96-110 | the evidence the coordinator builds passes every check of the engine |
| SignedApprovals.HostApprovalIff | src/semantic_gate/coordinator.py:82-110 | on any clock the coordinator's approval is accepted exactly for a waiting request, a new id, a named actor of the control asked for, and a bounded expiry that lies inside the gate's window by each reading |
| SignedApprovals.BridgeAcceptsIff | src/semantic_gate/approvals.py:104-112 | under one fixed time, after any run, the bridge accepts exactly evidence that a configured entry signed, field by field, for a waiting request under a new id; the gate is then approved under the signed actor and assurance, until the earlier of its window and the signed expiry |
| StdioFacade.LinesSplitTheStream | src/semantic_gate/mcp.py:229-256 | the reference splitting loses nothing and cuts at newlines only |
| StdioFacade.ByteStream.ReadLine | src/semantic_gate/mcp.py:233-233 | a bounded read returns the next line, cut at the bound |
| StdioFacade.SemanticGateMCP.SkipLine | src/semantic_gate/mcp.py:236-239 | the inner loop stops just after the over-long line's newline, or at the end |
| StdioFacade.SemanticGateMCP.ServeBinary | src/semantic_gate/mcp.py:229-256 | for every byte stream the chunked loop answers as the plainly split stream is answered |
| StdioFacade.ReadyIffHandshakeDone | src/semantic_gate/mcp.py:308-352 | the server is ready exactly after an answered initialize and a later initialized; initialize is answered once |
| StdioFacade.SessionAnswers | src/semantic_gate/mcp.py:290-367 | over a session tools are listed or called with a result only after the handshake |
| StdioFacade.ToolIsCalledIff | src/semantic_gate/mcp.py:164-200 | the engine is reached by exactly the well-formed requests for one of the five tools with that tool's arguments, once ready, once each, and the caller is told how the call ended |

## Left out

- SHA-256, HMAC, Ed25519, base64 and JSON text encoding: taken as injective or symbolic; decoding is a parameter of the stdio facade.
- JSON size, depth and node limits, and the copies that enforce them: values are immutable and within limits; in the facade the limit check is a parameter.
- Checks that only concern the JSON type or the presence of a configuration field, action names, and descriptions: the datatypes give them by construction.
- White space beyond ASCII in notification recipients and templates.
- Condition paths and tool inputs that name request fields which change while it advances: the document is the fixed fields only.
- The order of the evidence id list and of the approvals compared with successive clock readings: a multiset and workflow order stand for sorted and set order.
- Fields of snapshots and notices that are copied and never read; audit rows; the observation and control tables.
- SQLite itself, schema migration and files; `record_idempotency`, which the controller does not use.
- A store call that raises inside the engine is modelled as raising before or after its commit; the registry's lookup failure is a callback that raises.
- Interleaving inside one engine call: brokers and operators act during its callbacks; other engines act between its calls, which matters only for a callback that re-enters its engine, since otherwise an engine call touches the store once.
- Callbacks that submit keys reserved for another engine, or for none: nested requests stay within the engine's own keys, those of submissions waiting to call it included. The ledger write that completes a nested submission follows the outer call.
- A process that dies inside an engine call: the call then counts as completed with its answer lost, or as its store steps alone.
- The controller's `cancel`, `approve`, `deny`, `observe` and lists, apart from the ledger writes they make, which the system allows at any time; the `denied` label is not absorbing and nothing is claimed of it.
- The text variant `serve` of the stdio loop, and the exact result objects of the facade.
- HTTP server, panel, clients, command lines, plugins, node broker, capabilities, credentials and adapters: plumbing, or weaker versions of what is proved here.

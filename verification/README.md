# CV-ZTTE control plane: a Dafny model

The control plane decides, mints, revokes and audits execution authority for agents.
This project models its in-memory state machines and states what they keep over whole runs:

- `Delegation.dfy`: attenuated delegations, the revocation sweep, the ancestry walk.
- `Lineage.dfy`: the provenance graph of confidential computations and its depth-first trace.
- `Ladder.dfy`, `Containment.dfy`, `ContainmentInterleaving.dfy`: the containment ladder, the engine, and the engine under
  concurrent threads at lock granularity.
- `Tokens.dfy`, `Approvals.dfy`, `ControlPlane.dfy`: decision tokens, human approvals, the minting pipeline.
- `AuthorityRuns.dfy`: whole runs that mix all of them with containment and mediation, with atomic operations.
- `AuthorityInterleaving.dfy`, `AuthorityReceipts.dfy`, `AuthorityCurrency.dfy`: the same runs with every operation taken
  apart at its locks; what they keep, how uses and receipts add up, and when a token is current.
- `Behavior.dfy`, `QueryGovernance.dfy`: sliding-window accounting and the confidential query governor.
- `AuditLog.dfy`, `KeyRegistry.dfy`, `Admission.dfy`, `ReplayGuards.dfy`: the hash-chained log, the key lifecycle, the
  bounded-admission semaphore and the replay guards.

`dafny verify dfyconfig.toml` checks the project.

## How it is built

Each stateful class of the program is a Dafny class whose methods change its fields step by step, loops included. Every
such method is tied to a value-level function (`Apply`, `Next`, `Mediate`, ...), and the theorems are about arbitrary
sequences of those functions. Invariants are predicates over values, so they speak of every reachable state.
A refused call is an ordinary result (`Err`, `None`, an unchanged state), never a precondition. The preconditions that
remain on methods are object invariants, freshness of drawn identifiers, and thread positions.

Assumptions, each an explicit part of the model:

- Clocks, uuids, nonces, MAC tags, policy answers, signature answers and the outcome of an effect are parameters. Drawn
  identifiers are fresh. Time is an integer (a real in the query governor).
- A MAC verifies exactly for the tokens the authority issued (`cvztte/decision/validator.py:123-125`).
- The action hash and the audit commitment are arbitrary functions. Where a theorem depends on them, it returns the
  collision explicitly. A lineage node id is the pair (type, ref) itself, that is, its commitment is collision-free.
- `AuthorityRuns` takes every operation as one step: `evaluate`, `approve`, `deny_approval`, a containment operation, a
  mediation. The code holds no lock across any of these, so its theorems carry that assumption.
- `AuthorityInterleaving` drops it. Steps of any number of threads interleave: register, lock, decide, draw an epoch and
  write for containment (`cvztte/containment/engine.py:121-225`); the two containment reads, the epoch read, issuing and
  presenting for the plane (`cvztte/control_plane/plane.py:227-235`, `cvztte/control_plane/plane.py:294-305`); look-up,
  validation, use count and receipt for the broker (`cvztte/decision/validator.py:116`,
  `cvztte/decision/validator.py:123-179`, `cvztte/decision/validator.py:182`, `enforcement/common.py:176-220`). Each step is
  one locked section or one unlocked read. One step covers several statements: building a transition's record and writing
  its three fields (`cvztte/containment/engine.py:211-224`).
- An absent and an empty approver, approval id or text count as the same absent value, as the program's truth tests do.

## Where documentation and code differ

The model follows the code.

- Minting is blocked from QUARANTINED up (`cvztte/containment/model.py:119-121`), not from RESTRICTED as
  `cvztte/control_plane/plane.py:10` says.
- "Capabilities only decay" fails for a capability that is both diagnostic and flagged with an attribute that RESTRICTED
  blocks; `Ladder.DecayOnlyIff` gives the exact condition.
- A richer record replaces a poorer one (`cvztte/lineage/graph.py:37-53`), so a release recorded again with an approval
  replaces a pinned hash; `Lineage.PinnedRecordChangesIff` says exactly when.
- A trace can hold inputs of other runs, because all runs of a program share one PROGRAM node;
  `Lineage.InputsBehindResult` says exactly which.
- A windowed count is not exact for every clock; `Behavior.WindowCountsExactIff` and `Behavior.SnapshotExactIff` give the
  exact conditions on the clocks.
- A token that passes need not be current: the epoch is drawn before the state is written
  (`cvztte/containment/engine.py:210-224`), the plane reads containment twice, and a transition can come between a
  validation and its use. `AuthorityCurrency.CheckedTokenCurrentIff`, `AuthorityCurrency.SpentTokenCurrentIff` and
  `AuthorityCurrency.ExecutedTokenCurrentIff` give the exact conditions along a run, `AuthorityCurrency.CurrentForeverIff`
  and `AuthorityCurrency.CurrentAtUseIff` those at the mint.
- `cvztte/audit/log.py:3-6` says any retroactive edit or removal is detected. The last event can be replaced and the tail
  cut; `AuditLog.ReplacementShowsIff` and `AuditLog.PrefixIntact` say exactly when.
- Importing a verification key overwrites a revoked record of the same id; `KeyRegistry.RevokedKeyStaysIff` says exactly
  when. Revocation of a whole agent is permanent.
- The containment subject is called stable per agent, runtime and session (`cvztte/control_plane/plane.py:70-72`), but the
  separator is not escaped; `ControlPlane.SubjectIsOwnIff` says exactly when a key belongs to one binding.
- The in-memory replay guard accepts a first negative sequence number and the Redis guard does not; the bare script has no
  nonce-length rule. `ReplayGuards.GuardsAgree` and `ReplayGuards.ScriptAgrees` give the exact relations.

## Model

| member | source | states |
|---|---|---|
| `Delegations.DelegationRegistry.constructor` | cvztte/delegation/model.py:84-88 | a new registry trusts the given authorities, holds no delegation and satisfies the invariant |
| `Delegations.DelegationRegistry.RegisterAuthority` | cvztte/delegation/model.py:90-91 | adds a trusted authority, changes nothing else |
| `Delegations.DelegationRegistry.IssueRoot` | cvztte/delegation/model.py:96-137 | issues exactly what the value-level step issues, with the requested grant and the authority as issuer; keeps the invariant; a refusal changes nothing |
| `Delegations.DelegationRegistry.IssueChild` | cvztte/delegation/model.py:139-199 | same for a child, with the requested grant under the given parent; a success means the parent was known and unrevoked |
| `Delegations.DelegationRegistry.ValidateForAgent` | cvztte/delegation/model.py:213-238 | the ancestry walk succeeds iff the whole chain is valid and bound, iff the delegation itself is bound, unrevoked and in its window; it takes at most depth + 1 steps and its cycle guard never fires |
| `Delegations.DelegationRegistry.Sweep` | cvztte/delegation/model.py:256-265 | one pass from a revoked root settles the whole live subtree; a second pass finds nothing |
| `Delegations.DelegationRegistry.Revoke` | cvztte/delegation/model.py:240-266 | terminates within two passes, revokes exactly the unrevoked part of the subtree, keeps every other record, returns `RevokedIds` |
| `Delegations.RevokedIdsExact` | cvztte/delegation/model.py:240-266 | the returned ids are the live subtree, without duplicates, parents before children |
| `Delegations.ChainValidIffSelfValid` | cvztte/delegation/model.py:213-238 | windows nest and revocation is closed downwards, so the chain is valid iff its last link is |
| `Delegations.ChildIssuedIff` | cvztte/delegation/model.py:151-184 | a child is issued iff its whole ancestry is valid, it asks for no more than the parent holds and the depth bound allows it |
| `Delegations.RootIssuedIff` | cvztte/delegation/model.py:109-122 | a root is issued iff a registered authority grants to somebody else, with a window and a depth bound |
| `Delegations.ClearanceOrder` | cvztte/delegation/model.py:174-177 | PUBLIC, INTERNAL, CONFIDENTIAL, SECRET in rising order |
| `Delegations.RevocationMarks` | cvztte/delegation/model.py:246-250 | revocation stamps its moment on the live subtree and touches nothing else of any record |
| `Delegations.AncestorEnvelope` | cvztte/delegation/model.py:157-184 | authority, depth and revocation of any delegation lie within those of every ancestor |
| `Delegations.InsertKeepsInv` | cvztte/delegation/model.py:123-136 | adding an attenuated record under a fresh id keeps forest, attenuation, soundness and insertion order |
| `Delegations.RevokeKeepsInv` | cvztte/delegation/model.py:246-265 | revoking a subtree keeps the invariant, revocation closed under descendants included |
| `Delegations.RunKeepsInv` | cvztte/delegation/model.py:81-266 | every sequence of calls keeps the invariant |
| `Delegations.StepIssues` | cvztte/delegation/model.py:96-199 | a call issues iff its conditions hold, adds exactly one record as asked, and rewrites the terms of no other |
| `Delegations.GrantsAreAsAsked` | cvztte/delegation/model.py:123-136 | in every run each delegation was issued by exactly one call and holds exactly the grant, parent, issuer and bound that call asked for |
| `Delegations.BoundComesFromRoot` | cvztte/delegation/model.py:185-197 | a delegation's depth bound is the one asked for at the root of its chain |
| `Delegations.NoAuthorityLaundering` | cvztte/delegation/model.py:96-199 | in every reachable registry each delegation lies within every ancestor, its chain has depth + 1 links, ends at a root of a registered authority and respects the root's bound |
| `Delegations.RevocationIsFinal` | cvztte/delegation/model.py:139-199 | a revoked delegation's record never changes and it never gains a child, in any continuation |
| `Lineage.LineageGraph.PutNode` | cvztte/lineage/graph.py:37-53 | inserts the node unless a record at least as rich is there |
| `Lineage.LineageGraph.PutEdge` | cvztte/lineage/graph.py:55-60 | appends the edge unless it is there; list and index agree |
| `Lineage.LineageGraph.PutCiphertext` | cvztte/lineage/graph.py:64-92 | records dataset and ciphertext, keeps the graph well formed |
| `Lineage.LineageGraph.PutInputs` | cvztte/lineage/graph.py:113-117 | records every input and its edge to the program, in order |
| `Lineage.LineageGraph.PutResult` | cvztte/lineage/graph.py:94-127 | records inputs, program and result, keeps the graph well formed |
| `Lineage.LineageGraph.PutDecryptRequest` | cvztte/lineage/graph.py:129-145 | records result and request, keeps the graph well formed |
| `Lineage.LineageGraph.PutRelease` | cvztte/lineage/graph.py:147-173 | records request and release, keeps the graph well formed |
| `Lineage.LineageGraph.IndexParents` | cvztte/lineage/graph.py:184-186 | the parent index lists exactly the sources of each node's incoming edges |
| `Lineage.Visit` | cvztte/lineage/graph.py:190-196 | the recursive visit over the shared seen set appends only ancestors, parents first, and leaves the stack as it was |
| `Lineage.LineageGraph.Trace` | cvztte/lineage/graph.py:181-199 | exactly the reflexive-transitive ancestors of a recorded node, once each, parents before children, the node last; nothing for an unrecorded node |
| `Lineage.RunKeeps` | cvztte/lineage/graph.py:64-173 | after every recording history both ends of each edge are recorded and each edge goes up one rank |
| `Lineage.PathClimbs` | cvztte/lineage/graph.py:64-173 | a path climbs exactly one rank per edge |
| `Lineage.Acyclic` | cvztte/lineage/graph.py:64-173 | two nodes that reach each other are the same node |
| `Lineage.RunEdges` | cvztte/lineage/graph.py:55-60 | the graph holds exactly the edges named by some call of the history |
| `Lineage.RelationsByKind` | cvztte/lineage/graph.py:91-172 | every recorded edge carries the relation of the two kinds it joins |
| `Lineage.InputsBehindResult` | cvztte/lineage/graph.py:94-127 | a ciphertext is behind a result iff some recorded run of a program that produced the result took it as input |
| `Lineage.DatasetsBehindCiphertext` | cvztte/lineage/graph.py:64-92 | a dataset is behind a ciphertext iff some call encrypted it into that ciphertext |
| `Lineage.ResultsBehindRelease` | cvztte/lineage/graph.py:129-173 | a result is behind a release iff its decryption was asked for under a request the release answers |
| `Lineage.DatasetsBehindRelease` | cvztte/lineage/graph.py:64-173 | a dataset is behind a release iff calls lead from it over a ciphertext, a shared program, a result and a request to the release |
| `Lineage.TraceOverApproximates` | cvztte/lineage/graph.py:105-127 | two runs of one program: the input of the second is behind the result of the first |
| `Lineage.RunNodes` | cvztte/lineage/graph.py:64-173 | the nodes of a history are the merge of all nodes its calls name, in order |
| `Lineage.RunKeepsFirstRichest` | cvztte/lineage/graph.py:37-53 | after every history a node is recorded iff some call named it, and the kept record is the earliest of its richest ones |
| `Lineage.MetadataKept` | cvztte/lineage/graph.py:64-173 | after every history the record of an object is, field by field, what the earliest of its richest descriptions said; an undescribed object is a bare reference |
| `Lineage.FirstDescriptionWins` | cvztte/lineage/graph.py:37-53 | except for releases the first call that describes an object decides its record for good |
| `Lineage.PinnedRecordChangesIff` | cvztte/lineage/graph.py:37-53 | a record with a pinned hash is replaced iff a release is recorded again with a hash and a first approval |
| `Lineage.ReleaseHashCanChange` | cvztte/lineage/graph.py:147-173 | such a replacement can change the pinned hash |
| `Ladder.EscalateIsMaximum` | cvztte/containment/model.py:36-41 | a sequence of assessments ends in the most severe of the start and the assessments |
| `Ladder.EscalateIgnoresOrder` | cvztte/containment/model.py:36-41 | order and multiplicity of assessments do not matter |
| `Ladder.CeilingTightens` | cvztte/containment/model.py:61-84 | a capability that is not both diagnostic and consequential is never allowed again by a more severe ceiling |
| `Ladder.CeilingsByState` | cvztte/containment/model.py:61-100 | what each state removes from the capabilities that delegation, enterprise policy and runtime agree on |
| `Ladder.DecayOnlyIff` | cvztte/containment/model.py:61-100 | effective capabilities shrink under escalation, for all base sets, iff no capability is both diagnostic and consequential |
| `Ladder.DecayCanGrow` | cvztte/containment/model.py:61-100 | a profile for which they grow |
| `Ladder.Assess` | cvztte/containment/policy.py:53-77 | the step-by-step rules yield the highest state any single rule warrants, never TERMINATED |
| `Ladder.AssessedIff` | cvztte/containment/policy.py:57-75 | for each state, which named feature has to reach which threshold |
| `Ladder.RulesAreSeparate` | cvztte/containment/policy.py:57-67 | the short-term denial count decides about suspicion only, the long-term one about nothing above restriction |
| `Ladder.FeatureCounts` | cvztte/containment/policy.py:42-44 | what a number, a flag, a fraction, another value or an absent one counts for |
| `Ladder.LadderOrder` | cvztte/containment/model.py:27-41 | the order of the states; exactly QUARANTINED and TERMINATED block |
| `Ladder.AssessmentIsMonotone` | cvztte/containment/policy.py:42-77 | worse features never earn a milder state, for all thresholds |
| `Containment.ContainmentEngine.Register` | cvztte/containment/engine.py:121-133 | registers a subject as NORMAL or refreshes its identity only |
| `Containment.ContainmentEngine.BumpCapabilityEpoch` | cvztte/containment/engine.py:174-180 | adds one to the capability epoch and returns it |
| `Containment.ContainmentEngine.CommitTransition` | cvztte/containment/engine.py:187-225 | appends exactly one record under a new epoch and sets the state |
| `Containment.ContainmentEngine.EvaluateFeatures` | cvztte/containment/engine.py:227-258 | the value-level step; a record is returned iff one was appended |
| `Containment.ContainmentEngine.KillSwitch` | cvztte/containment/engine.py:260-297 | refused iff the target is below QUARANTINED; otherwise one record is appended and the subject ends blocked |
| `Containment.ContainmentEngine.RecoverSubject` | cvztte/containment/engine.py:299-359 | the first failing gate decides the refusal and leaves the records alone; otherwise one record is appended and the subject is NORMAL |
| `Containment.PlanIsLawful` | cvztte/containment/engine.py:227-359 | every decided move obeys the ladder: assessments rise, kills never lower, recoveries go to NORMAL by an allowed method with cooldown and approver |
| `Containment.RecoveryMadeIff` | cvztte/containment/engine.py:299-359 | a recovery is made iff the method reaches the subject's state, the cooldown has passed for a cooldown recovery and an admin approval names its approver; it leads to NORMAL by one record |
| `Containment.KillMadeIff` | cvztte/containment/engine.py:260-297 | a kill is made iff its target is QUARANTINED or TERMINATED, always by one record, and never lifts a harsher state |
| `Containment.AppendedRecord` | cvztte/containment/engine.py:198-224 | a new record names the subject, its latest identity, both states, the new epoch and the moment; other subjects keep theirs |
| `Containment.EpochsIncrease` | cvztte/containment/engine.py:187-225 | epochs strictly increase along a subject's records |
| `Containment.RecordsJoin` | cvztte/containment/engine.py:187-225 | records chain from NORMAL, and every drop is a recovery to NORMAL by a method allowed for the old state |
| `Containment.ApplyKeepsInv` | cvztte/containment/engine.py:174-359 | every operation keeps: epoch = initial + number of records, and every subject's records form a lawful trail to its state |
| `Containment.RunKeepsInv` | cvztte/containment/engine.py:174-359 | the same for every sequence of operations |
| `Containment.EpochMarksEveryTransition` | cvztte/containment/engine.py:174-225 | an operation either advances the epoch by one or changes no state and no record of any subject |
| `Containment.AssessmentsEscalate` | cvztte/containment/engine.py:227-258 | without kills and recoveries a subject's state is the most severe of its start and all its assessments |
| `Containment.CapabilitiesDecay` | cvztte/containment/engine.py:154-172 | over such a run effective capabilities only shrink, for every profile that meets the exact condition |
| `ContainmentInterleaving.RunKeepsInv` | cvztte/containment/engine.py:174-359 | the joint invariant of engine, subject locks and thread positions is kept by every interleaving |
| `ContainmentInterleaving.EpochAccounting` | cvztte/containment/engine.py:174-225 | under any interleaving epoch = initial + records + epochs drawn but not yet written, and every subject's records form a lawful trail |
| `ContainmentInterleaving.MutualExclusion` | cvztte/containment/engine.py:135-139 | no two threads decide, draw or write for one subject at a time |
| `ContainmentInterleaving.PiecesMakeTheOperation` | cvztte/containment/engine.py:227-359 | a thread running alone through the pieces performs the atomic operation |
| `Tokens.DecisionTokenAuthority.IssueToken` | cvztte/decision/authority.py:54-105 | refuses a use limit below one or an empty lifetime; otherwise issues the token bound to the order |
| `Tokens.PresentedTokenStore.Present` | cvztte/decision/validator.py:75-78 | the newest token per audience and action hash is presented |
| `Tokens.TokenUseTracker.ConsumeUse` | cvztte/decision/replay.py:34-42 | succeeds iff the count is below the limit, and then counts one use |
| `Tokens.DecisionTokenValidator.AuthorizeAction` | cvztte/decision/validator.py:105-193 | the first failing check decides the error and spends nothing; a success spends exactly one use |
| `Tokens.EnforcementBroker.EmitReceipt` | enforcement/common.py:250-273 | appends one receipt describing the observed action |
| `Tokens.EnforcementBroker.MediateAction` | enforcement/common.py:176-220 | authorise, re-check, execute and receipt in that order, on every path |
| `Tokens.IssuedTokenAcceptedIff` | cvztte/decision/validator.py:105-193 | an issued and presented token authorises its action iff the holder matches, the window is open, the epochs are current and a use is left; each failure has its own code |
| `Tokens.IssuedAsOrdered` | cvztte/decision/authority.py:54-105 | issuing is refused iff the use limit or the lifetime is empty; the token carries every ordered field |
| `Tokens.ForeignTokenRefused` | cvztte/decision/validator.py:116-125 | without a presented token of the authority the answer is DECISION_TOKEN_INVALID |
| `Tokens.RecheckNeverFires` | enforcement/common.py:224-248 | after a successful authorisation the boundary re-check always passes |
| `Tokens.OneReceiptPerMediation` | enforcement/common.py:176-220 | each mediation adds exactly one receipt of the observed action; it names the token iff a use was spent, tells EXECUTED, FAILED and DENIED apart, and carries the code or the result the caller gets |
| `Approvals.ApprovalStore.Request` | cvztte/control_plane/approval.py:84-110 | files a new pending record for the decision with the given or the store's lifetime, leaves the other decisions alone |
| `Approvals.ApprovalStore.ByDecision` | cvztte/control_plane/approval.py:119-122 | finds the record of a decision |
| `Approvals.ApprovalStore.DecideOn` | cvztte/control_plane/approval.py:124-153 | decides a record at most once and only before it expires; a refusal changes nothing |
| `Approvals.ApprovalStore.RequireGranted` | cvztte/control_plane/approval.py:179-195 | passes iff the record is granted and unexpired, with the source's error otherwise |
| `Approvals.DecidedIff` | cvztte/control_plane/approval.py:124-153 | a record is decided iff it is pending and unexpired; the decision writes its four fields and cannot be repeated |
| `Approvals.GrantIsConfirmed` | cvztte/control_plane/approval.py:179-195 | a grant is confirmed until the record expires, a refusal never |
| `ApprovalInterleaving.RunKeepsInv` | cvztte/control_plane/plane.py:319-365 | every interleaving keeps: a decision has at most one mint or one pending claim, never both, and one with a record has either only once granted |
| `ApprovalInterleaving.MintsAtMostOnce` | cvztte/control_plane/plane.py:319-357 | under any interleaving of evaluators, approvers and deniers a decision mints at most one token |
| `ApprovalInterleaving.MintedRecordsAreGranted` | cvztte/control_plane/plane.py:335-352 | under any interleaving a parked decision has a record, and a minted one with a record is granted |
| `ApprovalInterleaving.DeniedNeverMints` | cvztte/control_plane/plane.py:359-365 | a denied decision never mints, in any continuation |
| `ApprovalInterleaving.BlockedNeverMints` | cvztte/control_plane/plane.py:338-346 | a granted decision whose approver stopped at the containment gate never mints, by anyone |
| `ApprovalInterleaving.ExpiredNeverMints` | cvztte/control_plane/approval.py:124-153 | a decision undecided until expiry never mints once every approver's clock is past it |
| `ControlPlane.ControlPlane.CurrentState` | cvztte/containment/engine.py:141-144 | the subject's state, NORMAL for an unknown one |
| `ControlPlane.ControlPlane.BlocksNewTokens` | cvztte/containment/engine.py:151-152 | a second read: whether the subject's state blocks new tokens |
| `ControlPlane.ControlPlane.Mint` | cvztte/control_plane/plane.py:294-317 | issues under the current epochs, presents the token and records the decision |
| `ControlPlane.ControlPlane.Evaluate` | cvztte/control_plane/plane.py:188-292 | upstream error, containment gate, policy, then park or mint, in the source's order |
| `ControlPlane.ControlPlane.Approve` | cvztte/control_plane/plane.py:319-357 | grant, re-assert, containment gate, mint; each failure keeps exactly what was done before it |
| `ControlPlane.ControlPlane.DenyApproval` | cvztte/control_plane/plane.py:359-365 | denies the record, changes nothing else |
| `ControlPlane.EvaluateAnswers` | cvztte/control_plane/plane.py:188-292 | an evaluation mints or parks iff no upstream error, containment or policy error is in the way; which of the two, and which error otherwise |
| `ControlPlane.ApproveAnswers` | cvztte/control_plane/plane.py:319-357 | an approval mints iff the decision is parked, its record pending and unexpired and its subject below QUARANTINED; which error otherwise, and what stays granted |
| `ControlPlane.DenialAnswers` | cvztte/control_plane/plane.py:359-365 | a denial succeeds iff the record is pending and unexpired, and is stored; otherwise nothing changes |
| `ControlPlane.SubjectIsOwnIff` | cvztte/control_plane/plane.py:70-72 | a subject key belongs to one agent, runtime and session iff none of the three holds the separator |
| `AuthorityRuns.EpochTellsHistory` | cvztte/containment/engine.py:174-225 | with atomic operations, between two engines of one run the epochs are equal iff no subject's state or records differ |
| `AuthorityRuns.RunKeepsTokenInv` | cvztte/control_plane/plane.py:188-365 | every run of atomic operations keeps the joint invariant over engine, gateway and issued tokens |
| `AuthorityRuns.AtomicAcceptedTokenIsCurrent` | cvztte/decision/validator.py:157-161 | with atomic operations, an accepted plane token has seen no transition of any subject since its mint, and its subject is in the recorded state, below QUARANTINED |
| `AuthorityRuns.RunKeepsApprovalInv` | cvztte/control_plane/plane.py:188-365 | every run of atomic operations keeps records, parked decisions and plane tokens tied to the requests behind them |
| `AuthorityRuns.NeededApprovalsWereGranted` | cvztte/control_plane/plane.py:247-317 | with atomic operations, a plane token allows what its request asked for (action, holder, audience, policy, risk), once, for the configured lifetime, and is its decision's only one; a record exists iff approval was needed, and then it was granted at the mint, before expiry |
| `AuthorityRuns.DeniedDecisionNeverMints` | cvztte/control_plane/plane.py:359-365 | after a successful denial the record is refused in every continuation, and no plane token of the decision ever exists |
| `AuthorityRuns.AudienceMismatchNeverArises` | cvztte/decision/validator.py:145-149 | in every run the look-up by audience and hash makes the validator's audience error unreachable |
| `AuthorityInterleaving.StepKeepsMachine` | cvztte/containment/engine.py:174-225 | every lock-level containment step keeps: drawn epochs are distinct, and epoch = initial + records + open epochs |
| `AuthorityInterleaving.HistoryKeptIff` | cvztte/containment/engine.py:187-225 | between two machines of a run nothing was written iff every epoch open at the first or drawn since is still open |
| `AuthorityInterleaving.RunKeepsTokenInv` | cvztte/control_plane/plane.py:227-317 | every interleaving keeps the joint invariant over machine, plane threads, broker threads, finished mediations, gateway and tokens |
| `AuthorityCurrency.CheckedTokenCurrentIff` | cvztte/decision/validator.py:157-161 | at the step that reads the epochs, in every interleaving: a plane token that passes has seen no written transition since its first containment read iff every epoch open then, or drawn until its epoch read, is still open; then the subject is in the recorded state, below QUARANTINED |
| `AuthorityCurrency.SpentTokenCurrentIff` | cvztte/decision/validator.py:181-182 | at the step that counts a use, in every interleaving: nothing was written since the first containment read iff every epoch open then or drawn since is still open |
| `AuthorityCurrency.ExecutedTokenCurrentIff` | enforcement/common.py:176-220 | for every executed receipt of a plane token, the same at the validation behind it |
| `AuthorityCurrency.CurrentForeverIff` | cvztte/control_plane/plane.py:294-305 | nothing was written since a token's first read whenever any continuation validates it, iff it is stale at birth, or the epochs were equal at its first read and its epoch read and no epoch was open at that read |
| `AuthorityCurrency.CurrentAtUseIff` | cvztte/decision/validator.py:157-182 | nothing was written since a token's first read whenever any continuation counts its use, iff it is stale at birth; validation and use count are apart |
| `AuthorityCurrency.SpentAfterTransition` | cvztte/decision/validator.py:157-182 | every token that is not stale at birth has a continuation that counts its use after a written transition |
| `AuthorityCurrency.KillBeforeUse` | cvztte/decision/validator.py:157-182 | a kill between validation and use count: a token with a clean read ends in an EXECUTED receipt while the subject is quarantined |
| `AuthorityCurrency.MintInsideKill` | cvztte/containment/engine.py:210-224 | a mint between the epoch and the write of a kill is accepted while the subject is quarantined, with equal epochs at read and mint |
| `AuthorityCurrency.KillBeforeEpochRead` | cvztte/control_plane/plane.py:227-290 | a kill between the gate and the epoch read: accepted while quarantined, with no epoch open at the read |
| `AuthorityCurrency.ReadsCanDisagree` | cvztte/control_plane/plane.py:227-235 | with a recovery between the two reads, an accepted token records a blocking state |
| `AuthorityCurrency.ContainAlone` | cvztte/containment/engine.py:227-359 | undisturbed, the lock-level steps of an operation take its atomic effect |
| `AuthorityCurrency.MintAlone` | cvztte/control_plane/plane.py:227-317 | undisturbed, two reads, epoch read, issuing and presenting give the gateway that the plane's mint gives |
| `AuthorityCurrency.MediationAlone` | enforcement/common.py:176-220 | undisturbed, look-up, validation, use count and receipt give the gateway that the broker's mediation gives |
| `AuthorityReceipts.FinishEmitsOne` | enforcement/common.py:176-220 | every mediation past its look-up ends in exactly one receipt, naming the token iff a use was spent, with the verdict, code and result of its end |
| `AuthorityReceipts.RunKeepsUseInv` | enforcement/common.py:176-220 | every interleaving keeps: ids and nonces of issued tokens differ, receipts and owed receipts add up to uses, executed receipts are authorised |
| `AuthorityReceipts.ReceiptsAreBounded` | cvztte/decision/replay.py:34-42 | in every interleaving receipts naming a token plus spent uses without a receipt equal its uses, at most its limit, at most one for a plane token; with no mediation under way receipts equal uses |
| `AuthorityReceipts.ExecutionsAreAuthorised` | enforcement/common.py:176-220 | in every interleaving an executed action was authorised by an issued ALLOW token for that action, target and audience, validated for its holder, in its window and under equal epochs |
| `Behavior.ScopeState.PruneAt` | cvztte/behavior/engine.py:64-68 | pops from the front of both deques while the head is older than the window |
| `Behavior.ScopeState.Apply` | cvztte/behavior/engine.py:102-137 | one event's effect on counters, sets and deques, then pruning, in the source's order |
| `Behavior.ScopeState.TakeSnapshot` | cvztte/behavior/engine.py:139-167 | prunes and reads every figure off the state |
| `Behavior.BehaviorEngine.StateOf` | cvztte/behavior/engine.py:78-85 | finds or creates the scope's own state object, disturbing no other |
| `Behavior.BehaviorEngine.RecordEvent` | cvztte/behavior/engine.py:94-100 | updates one scope and leaves every other scope's state alone |
| `Behavior.BehaviorEngine.ReadScope` | cvztte/behavior/engine.py:139-167 | the snapshot of one scope, every other scope left alone |
| `Behavior.CountersAreFolds` | cvztte/behavior/engine.py:102-137 | cumulative figures equal folds over the full log, for every run |
| `Behavior.DequeIsTail` | cvztte/behavior/engine.py:64-68 | a front-pruned deque is the full history without a prefix of expired entries, even when event times arrive out of order |
| `Behavior.SnapshotIsExact` | cvztte/behavior/engine.py:139-167 | if from the first recording on no clock was later, the snapshot equals the one computed over the full, unpruned log |
| `Behavior.EarlyClocksCount` | cvztte/behavior/engine.py:64-68 | clocks at most one window past the cutoff leave the count exact |
| `Behavior.CountExactIff` | cvztte/behavior/engine.py:64-68 | for fixed calls and clocks, a count is exact for all events iff from the first recording on no clock is more than a window past the cutoff |
| `Behavior.WindowCountsExactIff` | cvztte/behavior/engine.py:139-167 | the same for both deques of the engine and every cutoff |
| `Behavior.SnapshotExactIff` | cvztte/behavior/engine.py:139-167 | for fixed calls and clocks, the whole snapshot is exact for all events iff from the first recording on no clock is later than its own |
| `Behavior.BackwardClockLosesEvents` | cvztte/behavior/engine.py:94-137 | a run with a clock that steps back and a lost event |
| `QueryGovernance.QueryGovernor.RecentReleases` | cvztte/confidential_query/governance.py:54-57 | the releases not older than the window, in order |
| `QueryGovernance.QueryGovernor.Evaluate` | cvztte/confidential_query/governance.py:59-131 | the most restrictive rule decides; the scan stops at the first conflict; nothing is recorded |
| `QueryGovernance.QueryGovernor.Record` | cvztte/confidential_query/governance.py:135-140 | appends the release to its scope only |
| `QueryGovernance.QueryGovernor.Govern` | cvztte/confidential_query/governance.py:142-147 | records iff not denied |
| `QueryGovernance.AllowedIff` | cvztte/confidential_query/governance.py:59-131 | a request passes iff no rule, stated over the whole history and by counting, stands against it |
| `QueryGovernance.UndeniedAnswer` | cvztte/confidential_query/governance.py:111-131 | which of REQUIRE_APPROVAL, TRANSFORM and ALLOW an undenied request gets, and its rounding |
| `QueryGovernance.DenialReason` | cvztte/confidential_query/governance.py:65-109 | a denial blames the budget iff the group rules pass and the window is full |
| `QueryGovernance.HistoryIsWhatWasGranted` | cvztte/confidential_query/governance.py:135-147 | a scope's history holds time and subset of exactly the requests that were not denied |
| `QueryGovernance.RunIsGoverned` | cvztte/confidential_query/governance.py:142-147 | in every run each release of a scope was admissible when recorded |
| `QueryGovernance.RateLimitHolds` | cvztte/confidential_query/governance.py:79-85 | for timestamps in any order, no closed interval of one window length holds more releases than the limit |
| `QueryGovernance.PairwiseRestrictionsHold` | cvztte/confidential_query/governance.py:87-109 | two distinct non-empty releases within a window differ by the threshold and overlap by at most the ratio |
| `QueryGovernance.NoStrictContainment` | cvztte/confidential_query/governance.py:102-109 | with a ratio below one no recorded subset strictly contains another one of its window |
| `QueryGovernance.ScopesAreIndependent` | cvztte/confidential_query/governance.py:135-147 | a scope's history depends on the requests of that scope only |
| `AuditLog.HashChainedAuditLog.HeadHash` | cvztte/audit/log.py:99-102 | the last event's hash, or the genesis value |
| `AuditLog.HashChainedAuditLog.Put` | cvztte/audit/log.py:111-122 | appends one event linked to the head; an intact log stays intact |
| `AuditLog.HashChainedAuditLog.Verify` | cvztte/audit/log.py:124-132 | true iff every sequence number and link is intact |
| `AuditLog.HashChainedAuditLog.TakeCheckpoint` | cvztte/audit/log.py:134-150 | refuses iff the chain is broken; otherwise the pair covers the whole log |
| `AuditLog.BuiltIsIntact` | cvztte/audit/log.py:111-132 | every log built by appending verifies and holds the appended entries |
| `AuditLog.IntactIffBuilt` | cvztte/audit/log.py:111-132 | the logs that verify are exactly those appending can build |
| `AuditLog.SameHeadSameLog` | cvztte/audit/log.py:36 | two verifying logs with one head are equal, lengths included, or two named values collide |
| `AuditLog.HeadDeterminesLog` | cvztte/audit/log.py:99-132 | for a collision-free commitment verifying logs are equal iff their heads are |
| `AuditLog.TamperingShows` | cvztte/audit/log.py:124-132 | an edit of an intact log that keeps its last event does not verify, or a collision is named |
| `AuditLog.ReplacementShowsIff` | cvztte/audit/log.py:124-132 | replacing one event by another keeps the log intact iff it is the last one and number and link are unchanged, or a collision is named |
| `AuditLog.PrefixIntact` | cvztte/audit/log.py:124-132 | every prefix of an intact log verifies |
| `AuditLog.CheckpointFixesPrefix` | cvztte/audit/log.py:147-150 | two verifying logs under one checkpoint agree on everything it covers, or a collision is named |
| `AuditLog.AppendKeepsCheckpoint` | cvztte/audit/log.py:111-122 | appending keeps every earlier checkpoint covered |
| `KeyRegistry.KeyStore.Register` | cvztte/identity/registry.py:97-102 | registers an unknown agent as enabled, keeps a known one as it is |
| `KeyRegistry.KeyStore.Disable` | cvztte/identity/registry.py:112-116 | disables an agent or reports the error |
| `KeyRegistry.KeyStore.RetireOtherActive` | cvztte/identity/registry.py:180-187 | retires exactly the agent's other active keys |
| `KeyRegistry.KeyStore.GenerateKey` | cvztte/identity/registry.py:125-153 | adds a signing key, keeps at most one active signer per agent |
| `KeyRegistry.KeyStore.ImportVerificationKey` | cvztte/identity/registry.py:155-178 | writes a verify-only record, overwriting one of the same id |
| `KeyRegistry.KeyStore.ActivateKey` | cvztte/identity/registry.py:189-199 | activates a key and retires the agent's other active ones |
| `KeyRegistry.KeyStore.RevokeKey` | cvztte/identity/registry.py:213-219 | revokes one key or reports the error |
| `KeyRegistry.KeyStore.RevokeLiveKeys` | cvztte/identity/registry.py:221-232 | revokes exactly the agent's unrevoked keys and returns each once |
| `KeyRegistry.KeyStore.RevokeWholeAgent` | cvztte/identity/registry.py:221-232 | revokes all keys of the agent and disables it |
| `KeyRegistry.KeyStore.ActiveSigningKey` | cvztte/identity/registry.py:246-258 | returns the only active in-window signing key, or an error iff there is none |
| `KeyRegistry.RunKeepsInv` | cvztte/identity/registry.py:97-232 | every run of registry operations keeps at most one active signing key per agent |
| `KeyRegistry.LookupIgnoresOrder` | cvztte/identity/registry.py:246-258 | in every reachable registry the signing-key lookup is the same for every dictionary order |
| `KeyRegistry.RevokeAgentKills` | cvztte/identity/registry.py:221-232 | after revoking a registered agent it is disabled and all its keys are revoked |
| `KeyRegistry.DeadForever` | cvztte/identity/registry.py:97-232 | no sequence of operations undoes this |
| `KeyRegistry.RevokedAgentNeverReturns` | cvztte/request/verify.py:69-77 | after that no request of the agent verifies and no signing key of it is found, in any continuation |
| `KeyRegistry.RevokedKeyReturnsIff` | cvztte/identity/registry.py:155-178 | one operation brings a revoked key back iff it is an import of the same id in another state by an enabled agent |
| `KeyRegistry.RevokedKeyStaysIff` | cvztte/identity/registry.py:155-219 | over every run a revoked key is revoked throughout iff no such import occurs |
| `KeyRegistry.RevokedKeyCanReturn` | cvztte/identity/registry.py:155-178 | such a run from the empty registry, after which requests verify again under the key |
| `KeyRegistry.VerifiesIff` | cvztte/identity/registry.py:272-295 | a request verifies iff its key is bound to the agent, active or retired and in its window, and the signature holds |
| `KeyRegistry.RotationKeepsVerification` | cvztte/identity/registry.py:180-211 | after a rotation requests under every other key verify exactly as before |
| `KeyRegistry.RotatedKeySigns` | cvztte/identity/registry.py:189-211 | after a rotation the new key is the one its agent signs with, and it verifies |
| `KeyRegistry.RegisteredAsAsked` | cvztte/identity/registry.py:125-178 | when a key is registered, and that its record is what was asked for, other keys retired only by rotation |
| `KeyRegistry.RevocationStamps` | cvztte/identity/registry.py:213-232 | revoking stamps moment and reason on the keys it newly revokes and changes no other |
| `KeyRegistry.EnabledUntilDisabled` | cvztte/identity/registry.py:97-116 | over every run a registered agent is enabled until it is disabled or revoked, and never again after that |
| `Admission.BoundedAdmission.Create` | cvztte/config/backpressure.py:32-41 | refused iff the capacity is below one; otherwise all permits are free and all counters zero |
| `Admission.BoundedAdmission.Acquire` | cvztte/config/backpressure.py:70 | takes a permit iff one is free |
| `Admission.BoundedAdmission.NoteShed` | cvztte/config/backpressure.py:71-72 | counts a refused attempt |
| `Admission.BoundedAdmission.Enter` | cvztte/config/backpressure.py:78-80 | counts the job in; in-flight stays within capacity |
| `Admission.BoundedAdmission.Leave` | cvztte/config/backpressure.py:83-85 | counts the job out; in-flight stays non-negative |
| `Admission.BoundedAdmission.PutBack` | cvztte/config/backpressure.py:86 | returns the permit; the bounded release never overflows |
| `Admission.RunKeepsInv` | cvztte/config/backpressure.py:62-86 | every interleaving keeps the joint invariant of permits, counters and thread positions |
| `Admission.AdmissionIsBounded` | cvztte/config/backpressure.py:62-86 | for any number of threads in-flight jobs never exceed capacity, permits plus holders equal capacity, no release overflows |
| `Admission.ShedOnlyWhenFull` | cvztte/config/backpressure.py:70-77 | an attempt is shed iff every permit is held |
| `Admission.QuiescentAccounts` | cvztte/config/backpressure.py:78-86 | once all threads are out nothing is in flight and admitted + shed equals attempts |
| `ReplayGuards.InMemoryReplayGuard.CheckAndCommit` | cvztte/control_plane/replay.py:40-51 | length, nonce and sequence checks in order; commits iff accepted |
| `ReplayGuards.LuaReplayGuard.Eval` | smoke/replay_atomic.lua:16-28 | one atomic evaluation: nonce, then sequence, then commit, for nonces of any length |
| `ReplayGuards.LuaReplayGuard.Lapse` | smoke/replay_atomic.lua:25-27 | the nonce set of a session expires, its sequence stays |
| `ReplayGuards.NoReplayUnderExpiry` | smoke/replay_atomic.lua:16-28 | for every schedule of expiries accepted sequences strictly increase per session, so no call is accepted twice |
| `ReplayGuards.MemoryAcceptsAllIff` | cvztte/control_plane/replay.py:40-51 | the in-memory guard accepts a whole call sequence iff nonces are long and distinct and sequences climb per session |
| `ReplayGuards.MemoryAnswers` | cvztte/control_plane/replay.py:40-51 | the in-memory guard's answer to any call, told from the calls it accepted before |
| `ReplayGuards.ScriptAnswers` | smoke/replay_atomic.lua:16-28 | the script's answer to any call, told from the calls it accepted and the expiries so far |
| `ReplayGuards.LuaAcceptsAllIff` | smoke/replay_atomic.lua:16-28 | among calls with distinct nonces, of any length, the script accepts all iff they climb from zero or above, whatever expires |
| `ReplayGuards.ScriptAgrees` | smoke/replay_atomic.lua:16-28 | in-memory acceptance with non-negative sequences holds iff the script accepts all and nonces are distinct and long |
| `ReplayGuards.ShortNoncePassesScript` | smoke/replay_atomic.lua:16-28 | a short nonce passes the bare script and is refused in memory |
| `ReplayGuards.RedisReplayGuard.CheckAndCommit` | cvztte/replay/redis_freshness.py:48-77 | refuses a short nonce without touching the store; otherwise one evaluation of the script |
| `ReplayGuards.WrapperIsScriptOnLong` | cvztte/replay/redis_freshness.py:48-77 | the wrapper behaves as the script would without the short requests |
| `ReplayGuards.NoReplayThroughWrapper` | cvztte/replay/redis_freshness.py:48-77 | for every schedule of expiries the wrapper accepts no call twice, sequences strictly increasing per session |
| `ReplayGuards.GuardsAgree` | cvztte/control_plane/replay.py:40-51 | in-memory acceptance with non-negative sequences holds iff the wrapper accepts all and nonces are distinct |
| `ReplayGuards.NegativeSequencePartsGuards` | smoke/replay_atomic.lua:20-23 | below zero only the in-memory guard accepts |

## Left out

- Cryptography, JSON canonicalisation, OPA, the zero-knowledge and homomorphic services, model judges: library or native code, replaced by parameters.
- Concrete broker effects (files, processes, network, secrets): only success with a result hash or failure with a code.
- `observe` failures of a broker, which end a mediation before any receipt (enforcement/common.py:177-178).
- Session store, HTTP facades, adapters, onboarding, CAC service, configuration profiles: only easy members.
- Request parsing, expiry and clock-skew checks in `verify_request`; the key part is modelled, the rest is an upstream answer.
- Concurrent `governed_release`: evaluate and record take the lock separately, so calls are sequential here.
- Output rounding in `minimize`, and floating-point rounding of the overlap ratio and timestamps.
- Lua number precision: sequence numbers are unbounded integers.
- Record objects are values: a caller that keeps and mutates a returned record is not modelled, nor are reason-code lists, messages, evidence hashes and receipt timestamps.
- `KeyRegistry.rotate`: generates an ACTIVE key, which `KeyRegistry.KeyStore.GenerateKey` covers.
- `LineageGraph.graph_hash` and checkpoint signatures: plain commitments over what is modelled.
- Redis connectivity errors, which end a check without an answer.
- Tokens.EnforcementBroker.EmitReceipt: the observation source and the timestamp of a receipt are not modelled.
- Tokens.DecisionTokenValidator.AuthorizeAction: the token's `checks` field and naive timestamps are not modelled.
- AuditLog.HashChainedAuditLog.TakeCheckpoint: verifies and reads the head as one step; the source takes its lock twice.

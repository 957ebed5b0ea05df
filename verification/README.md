# Bounded authorization to effect: a verified model

This project models, in Dafny 4.11, the bounded authorization-to-effect protocol of the agent control
plane, and the smaller verifiers built around it, and proves what they promise. `dafny verify
dfyconfig.toml` checks everything.

**The protocol.** A proposal is resolved against authority that others may change at any time. `decide`
persists a decision bound to one exact operation. `execute` checks the persisted decision, resolves all
authority again, refuses or observes the destination, records an attempt, calls the destination, records
the outcome and observes once more. `Workflow.dfy` is this protocol as a machine of single steps: any
number of executions interleave, each read of authority gets an arbitrary resolver, acknowledgements may
be lost, and an execution may die between any two steps. `WorkflowClass.dfy` is the sequential code over
its stores, proved to take exactly the machine's steps. The claims are about whole runs: an effect commits
at most once and never changes (`EffectTheorems.dfy`), each effect follows a revalidation that passed
(authority is known to hold at that revalidation step, not at the commit), a grant never exceeds its cap,
an effect whose executions do not overlap is never dispatched twice (`SingleCall.dfy`; `CallOverlap.dfy`
has the exact condition), every attempt id has one
of four histories (`AttemptHistory.dfy`), what stored attempts say about the destination is true
(`AttemptTruth.dfy`), observations and reconciliations balance (`ObservationBooks.dfy`),
and a refused execution leaves one record and nothing else (`Refusals.dfy`). `RefundExample.dfy` is one
refund with an authority state that authorizes it; `RefundRuns.dfy` and `RefundRefusal.dfy` run it from the
initial state.

**Resolution.** `Resolution.dfy` and `ResolveLoops.dfy` follow `_resolve` branch by branch;
`ResolutionLaws.dfy` states authorization declaratively and proves the two equal, that authorization times
form an interval, and that the bound cap respects all three envelopes. `AuthorizationTerms.dfy` says in the
records' own fields exactly when a proposal is bound and what every field of the binding holds.

**Identity.** `CanonicalJson.dfy` prints JSON and reads it back; `Commitments.dfy` derives that canonical
text identifies a value up to the order of dictionary entries. Hash injectivity is always a stated
hypothesis. `EffectIdentity.dfy`, `AuthorityCommitments.dfy` and `DecisionIds.dfy` use it for proposals,
mappings, requirements, effect ids and stores; `FreshIds.dfy` shows that drawn identifiers never repeat.

**The record store.** `RecordStore.dfy` is lock, read, validate, append, write a temporary file, rename,
unlock, with failures and deaths between any two, and refines one append-only log; `RecordFile.dfy` is
the store's own code, and shows that an undisturbed transaction completes. `StoredRecords.dfy` joins it to
the protocol: a step of the machine is at most one append, and the file shows what a run has recorded.

**Claims.** `Issuance.dfy` builds execution claims, `IssuedClaims.dfy` says when one is issued and what it
then says, `Claims.dfy` verifies them, `Inventory.dfy` consumes
them in a store that serializes changes of authority with the effect, and `Handoff.dfy` puts the three
together under the handoff lock, with every interleaving of issuers, writers and store transactions.
`EffectsAndClaims.dfy` says when an effect row is the issued claim's, and `RefundClaim.dfy` runs the refund
through it.

**Smaller cores.** `EvidenceProfile.dfy` (evidence classifier and record verifier) over
`ProfileRecords.dfy` (the record and its JSON) with `RecordAcceptance.dfy` (exactly which records pass) and
`ProfileCommitments.dfy` (what its commitments fix),
`PolicyGate.dfy` (first-match gate, trace and fingerprint), `Recorder.dfy` (run recorder and its
independent validator).

Times are integers, amounts are whole numbers printed as floats print them, identifiers drawn by the
system come from the environment, and a step that draws one already in use does not happen.

What the code does not keep, or its documentation does not say:

- The documented rule list of the policy gate does not say that an external send with authority is allowed;
  the code allows it, and so does the model (`PolicyGate.DecidedIsTable`).
- Executions of one effect that overlap between loading the attempts and recording their own dispatch it
  twice (`RefundRuns.AuthorizedRefundIsCalledTwice`; exactly when, says `CallOverlap.DispatchedTwiceExactly`),
  and then may store a partial attempt for an effect applied in full or a failed one for an effect that is
  there (`RefundRuns.OverlapMisleads`). Executions of that effect that do not overlap do neither, whatever
  happens to other effects (`SingleCall.DispatchedAtMostOnce`, `AttemptTruth.SerializedAttemptsAgree`), and
  `AttemptTruth.DoneMeansStored` and `OutcomeIsExact` say exactly what each stored attempt tells.
- A refusal may list as changed an approval that fills no required role and had no part in it
  (`RefundRefusal.RefusalBlamesAnApproval`), since such an approval is listed even where resolution does not
  differ (`RefundExample.AuthorizedYetListed`; `ChangedInputs.ApprovalListedExactly` says exactly when).
- An invalidating mutation that reaches the claim store before any claim is provisioned is logged but holds
  nothing (`Inventory.MutationBeforeProvisioningIsLost`; `Inventory.MutationHoldsExactly` says exactly when).
- The claim store commits an effect under a pair of effect and claim id nobody issued
  (`RefundClaim.UnissuedPairCommits`); its rows are the issued claim's exactly when each commit presents it
  (`EffectsAndClaims.RowsAreTheClaimsExactly`).
- Starting a recorder a second time can make its record fail its own validator (`Recorder.SecondStartFails`;
  `Recorder.RecorderSatisfiesValidator` and `Recorder.RestartPassesExactly` say exactly when).

## Model

| member | source | states |
|---|---|---|
| CanonicalJson.ReadWritten | src/agent_control_plane/bounded.py:46-54 | parsing what the printer wrote gives back the value and the rest of the text, for every printable value, in either separator style and with or without ASCII escapes |
| CanonicalJson.ReadCharsWritten | src/agent_control_plane/bounded.py:46-54 | string escaping, including control characters, `\u` escapes and surrogate pairs, is undone by the reader |
| CanonicalJson.IntTextReads | src/agent_control_plane/bounded.py:46-54 | every integer's text reads back as that integer and as no float |
| Commitments.PrintThenParse | src/agent_control_plane/bounded.py:46-54 | canonical text parses back to the value's normal form |
| Commitments.CanonicalIsInjective | src/agent_control_plane/bounded.py:46-54 | values with one canonical text have one normal form |
| Commitments.CanonicalIdentifies | src/agent_control_plane/bounded.py:46-54 | two well-formed values have one canonical text exactly when they are equal up to the order of dictionary entries |
| Commitments.CommitmentIdentifies | src/agent_control_plane/bounded.py:57-59 | with an injective hash, one commitment exactly when equal up to entry order |
| Commitments.RecordCommitsValues | src/agent_control_plane/bounded.py:57-59 | the commitment of a record commits every value in it |
| EffectIdentity.CommitmentIdentifiesOperation | src/agent_control_plane/bounded.py:1209 | equal proposal commitments mean proposals equal in every field, tenant included |
| EffectIdentity.EffectIdIdentifies | src/agent_control_plane/bounded.py:1000-1005 | two effect ids agree exactly when proposal commitment, grant and revision do, and an id with a grant never equals one without |
| EffectIdentity.EffectIdIdentifiesOperation | src/agent_control_plane/bounded.py:617-635 | operations that share an effect id are one operation under one grant revision |
| DecisionIds.DecisionsShareIdsRightly | src/agent_control_plane/bounded.py:617-635 | in any reachable store, an authorized decision shares its effect id exactly with authorized decisions of the same proposal commitment, grant and revision, never with a held one |
| DecisionIds.DecisionFollowsAuthority | src/agent_control_plane/bounded.py:617-635 | a decision authorizes exactly when the operation is authorized at its time, a held one carries the resolver's reasons and no binding, and its effect id is that of its binding or of the bare proposal |
| FreshIds.IdsNeverRepeat | src/agent_control_plane/bounded.py:617-670 | however executions interleave, no two recorded decisions share an id and no two refusals do |
| FreshIds.AuthorizedStaysPresentable | src/agent_control_plane/bounded.py:637-655 | a decision that authorized is, in every later state of every run, the only one under its id and passes the check an execution begins with |
| Resolution.NoReasonMeansResolvable | src/agent_control_plane/bounded.py:1263-1301 | with no reason to refuse, every optional lookup the binding dereferences is present |
| Reasons.Report | src/agent_control_plane/bounded.py:1263-1264 | reported reasons are strictly sorted, empty exactly when there are none, and are the codes raised |
| ResolveLoops.MatchPermission | src/agent_control_plane/bounded.py:1383-1404 | the loop finds a permission exactly when the action is known and some permission of the list names it, has the target and every requested scope, and allows the amount, unit and number of effects; what it finds is the first that does |
| ResolveLoops.CheckManifest | src/agent_control_plane/bounded.py:1303-1381 | the manifest checks gather the mismatches in order, and none exactly when the manifest admits the proposal within its window |
| ResolveLoops.CheckTerms | src/agent_control_plane/bounded.py:1158-1177 | the checks of the grant's own terms find nothing exactly when requirement, identity, tenant, window, both scopes and the delegation chain hold |
| ResolveLoops.CheckConflict | src/agent_control_plane/bounded.py:1179-1192 | the conflict checks find nothing exactly when a fresh, clear answer about this requirement lists the precedence references up to order |
| ResolveLoops.CheckPolicies | src/agent_control_plane/bounded.py:1194-1207 | the policy loop finds nothing exactly when every policy of the grant is there, bound, active in its version and fresh |
| ResolveLoops.CheckApprovals | src/agent_control_plane/bounded.py:1209-1239 | the nested approval loops find nothing exactly when every requirement is filled and all that fill it approve |
| ResolveLoops.JudgeMatch | src/agent_control_plane/bounded.py:1227-1239 | judging one matching approval finds nothing exactly when it approves: active, fresh, for this grant, operation and policies, and independent where asked |
| ResolveLoops.CheckEvidence | src/agent_control_plane/bounded.py:1241-1261 | the evidence loop finds nothing exactly when every obligation's evidence holds |
| ResolveLoops.CheckObligation | src/agent_control_plane/bounded.py:1241-1261 | an obligation passes exactly when its evidence, if any, is bound to it, and is there, current and fresh where the obligation demands it |
| ResolveLoops.ResolveAuthority | src/agent_control_plane/bounded.py:1042-1301 | the imperative resolution returns a binding exactly when the declarative predicate over all authority holds, and reasons otherwise |
| AuthorizationTerms.BoundExactlyOnTerms | src/agent_control_plane/bounded.py:1042-1301 | a proposal is bound exactly when the action, context and grant it names are there and every field of manifest, context, mapping, review, identity, mandate, grant, permissions, conflict, policies, approvals and evidence says what it must, written out field by field over the records |
| AuthorizationTerms.BindingSaysAll | src/agent_control_plane/bounded.py:1266-1301 | every field of the binding, read off proposal, context, grant and mapping; its cap is the least of the first covering permission of the requirement, that of the grant, and the limit of the action or else the count of the proposal |
| ResolutionLaws.ManifestPart | src/agent_control_plane/bounded.py:1303-1381 | no manifest mismatch exactly when the manifest admits the proposal within its window |
| ResolutionLaws.RoleResolves | src/agent_control_plane/bounded.py:1020-1040 | a declared role resolves exactly when some required role is it or an alias of it in the same institution |
| ResolutionLaws.ApprovalsPart | src/agent_control_plane/bounded.py:1209-1239 | no approval reason exactly when every required role is filled and all that fill it approve |
| ResolutionLaws.ResolveDecides | src/agent_control_plane/bounded.py:1042-1301 | no reasons, a binding, and the declarative predicate over all authority are one condition |
| ResolutionLaws.AuthorizedIsInEveryEnvelope | src/agent_control_plane/bounded.py:1266-1301 | an authorized proposal is enclosed, field by field, by a permission of the requirement and one of the grant, is admitted by the manifest, and its effects are at most the bound cap, which is at most each declared limit |
| ResolutionLaws.BindingRecordsProposal | src/agent_control_plane/bounded.py:1272-1301 | a binding records the operation and the commitments it was resolved for |
| ResolutionLaws.BindingStandsOn | src/agent_control_plane/bounded.py:1272-1301 | a binding names the grant, policies and role mapping that authorized it |
| AuthorityCommitments.OneDigestOneMapping | src/agent_control_plane/bounded.py:1081-1091 | with an injective hash, one mapping digest exactly when institution, version and aliases are the same, in any order |
| AuthorityCommitments.OneCommitmentOneRequirement | src/agent_control_plane/bounded.py:1294 | with an injective hash, one requirement commitment exactly when every field is equal, and the rest of the document up to entry order |
| ResolutionLaws.AuthorizationIsAnInterval | src/agent_control_plane/bounded.py:1007-1261 | for a fixed resolver, authorized at two times means authorized at every time between, with the identical binding |
| Text.SortIsMultiset | src/agent_control_plane/bounded.py:1179-1192 | sorted lists are equal exactly when their multisets are, as the conflict check compares them |
| Destination.ApplyKeepsConsistent | src/agent_control_plane/bounded.py:537-561 | every apply keeps each grant's counter equal to the number of its stored effects, and no stored effect changes |
| Destination.LocalRefundDestination.Apply | src/agent_control_plane/bounded.py:537-561 | apply answers a duplicate, refuses at the cap, or commits, also when the acknowledgement is lost, and the state is exactly that |
| Destination.LocalRefundDestination.ObserveEffect | src/agent_control_plane/bounded.py:563-574 | an observation reports what is stored and changes nothing |
| Reconciliations.ReconcileObservation | src/agent_control_plane/bounded.py:799-877 | the reconciliation, growing its reasons in place, gives the specified verdict |
| RunRecords.FindDecision | src/agent_control_plane/bounded.py:367-369 | what is found is a stored decision of that id |
| RunRecords.FoundExactlyWhenSole | src/agent_control_plane/bounded.py:367-369 | a decision is found under its id exactly when it is stored and no other entry has that id |
| RunRecords.BoundedRecordStore.Decision | src/agent_control_plane/bounded.py:367-369 | the lookup loop finds a decision exactly when it is the only stored one with the id |
| RunRecords.BoundedRecordStore.AppendAttempt | src/agent_control_plane/bounded.py:377-378 | one attempt is appended and nothing else changes |
| Reconciliations.AcceptanceIsExact | src/agent_control_plane/bounded.py:799-877 | an observation is accepted exactly when it is of this effect, in time, not unknown and backed by matching destination state |
| Reconciliations.ResultAgreesWithLedger | src/agent_control_plane/bounded.py:799-877 | against the local destination, applied and observed_absent say what the ledger holds |
| ChangedInputs.GatherChanged | src/agent_control_plane/bounded.py:879-998 | the loops list the changed inputs of each kind, in the order of the source |
| ChangedInputs.ListedExactly | src/agent_control_plane/bounded.py:879-998 | for every authority source and binding, an entry is listed exactly when the grant, policy, approval, required evidence or role mapping it names is missing or differs from what was bound in the fields compared, with the expected and the observed text of each kind written out |
| ChangedInputs.ListedOnlyWhenResolutionDiffers | src/agent_control_plane/bounded.py:879-998 | a grant, policy, evidence or role-mapping entry is listed only where resolution would refuse or bind differently |
| ChangedInputs.ApprovalListedExactly | src/agent_control_plane/bounded.py:925-955 | where resolution still binds the same, an approval is listed exactly when its reference resolves to nothing, or fills no required role and differs in grant, revision, status, operation or policies |
| RefundExample.AuthorizedYetListed | src/agent_control_plane/bounded.py:925-955 | a concrete state that authorizes a refund under one binding and lists a withdrawn approval as changed against that very binding |
| RefundRefusal.RefusalBlamesAnApproval | src/agent_control_plane/bounded.py:656-670 | a run from the initial state: the grant is revoked after the decision, and the refusal recorded lists an approval that is as it was when the decision was made |
| ChangedInputs.ListedOnlyWhenChanged | src/agent_control_plane/bounded.py:879-998 | when all approval references resolve to required roles, nothing is listed unless resolution differs |
| Workflow.RunConcat | src/agent_control_plane/bounded.py:637-744 | a run of two step lists is the second run from where the first ends |
| WorkflowSafety.StepGrows | src/agent_control_plane/bounded.py:637-744 | no step removes or changes a record, a pass, a call or a commit |
| WorkflowSafety.StepIsSafe | src/agent_control_plane/bounded.py:637-744 | every step keeps the safety invariant: passes are true, stages are earned, commits fit their cap, the ledger is the history |
| WorkflowSafety.RunIsSafe | src/agent_control_plane/bounded.py:637-744 | the invariant holds after every interleaving with arbitrary authority and crashes |
| EffectTheorems.EffectsAreOnceAndForever | src/agent_control_plane/bounded.py:537-561 | an effect id commits at most once in a run, and committed entries never change or vanish |
| EffectTheorems.EveryEffectIsAccountedFor | src/agent_control_plane/bounded.py:637-744 | every stored effect traces to a persisted authorized decision whose binding gives its id, grant, target, amount, unit and payload commitment, and to a passed revalidation |
| EffectTheorems.CommitFollowsRevalidation | src/agent_control_plane/bounded.py:656-742 | the step that commits an effect comes after the revalidation of the same execution is on record |
| EffectTheorems.GrantNeverExceedsItsCap | src/agent_control_plane/bounded.py:537-561 | a grant's counter is the number of its effects, each was admitted below its binding's cap, and a shared cap is never exceeded |
| EffectTheorems.CommitsCarryTheirTerms | src/agent_control_plane/bounded.py:719-728 | in every run, each commit carried the effect id of the decision, the grant and the cap of its binding, and the target, amount, unit, payload and completeness of the execution's own proposal |
| SingleCall.DispatchedAtMostOnce | src/agent_control_plane/bounded.py:674-717 | if the executions of one effect never overlap, whatever those of other effects do, it is dispatched at most once over the store's life, through lost acknowledgements, crashes, restarts and repeated decisions |
| CallOverlap.DispatchedTwiceExactly | src/agent_control_plane/bounded.py:674-742 | in any run an effect is dispatched more than once exactly when two of its executions that call had both loaded the attempts before either recorded its own |
| CallOverlap.StepIsTimed | src/agent_control_plane/bounded.py:674-742 | each step keeps: whoever dispatches left an attempt, and was in the window together with every other execution of the effect that dispatches or still may |
| SingleCall.OverlapCallsTwice | src/agent_control_plane/bounded.py:674-742 | without that condition the claim fails: two executions of one effect that both read no earlier attempt both call the destination |
| RefundExample.RefundIsAuthorized | src/agent_control_plane/bounded.py:1007-1301 | a concrete refund and authority state that authorize, whichever approvals the grant refers to |
| RefundRuns.SixMovesPrepare | src/agent_control_plane/bounded.py:649-710 | an execution whose decision is stored, whose authority resolves to its binding, whose effect was neither attempted nor stored, and whose observation is timely, has its attempt ready after six moves |
| RefundRuns.AuthorizedRefundIsCalledTwice | src/agent_control_plane/bounded.py:674-742 | a run from the initial state in which that authorized refund is dispatched twice, by two executions that overlap |
| SingleCall.StepIsSingle | src/agent_control_plane/bounded.py:674-717 | for any one effect each step keeps: at most one call for it, never two of its executions about to call, and a call only after a recorded attempt |
| AttemptHistory.EveryAttemptHasItsHistory | src/agent_control_plane/bounded.py:674-742 | every attempt id has one of the four histories, its entries share effect and decision, and they name an authorized stored decision |
| AttemptHistory.StepIsStoried | src/agent_control_plane/bounded.py:674-742 | each step keeps every attempt history well formed |
| AttemptTruth.DoneMeansStored | src/agent_control_plane/bounded.py:680-742 | over every run, a stored attempt that is acknowledged or partial is about an effect the destination holds, and tells its state wrongly exactly when it was answered with a duplicate in the other state |
| AttemptTruth.OutcomeIsExact | src/agent_control_plane/bounded.py:719-742 | at the call of any reachable state: a new effect is committed exactly when the grant's stored effects are fewer than the cap of the binding, with the terms of the proposal; failed exactly on an error that is no timeout or on a new effect at the cap, unknown exactly on a timeout or a lost acknowledgement, done otherwise |
| AttemptTruth.AttemptsAgreeWhenCalledOnce | src/agent_control_plane/bounded.py:674-742 | for an effect dispatched at most once, every stored attempt that is acknowledged or partial agrees with the stored state, and one that failed is about an effect that is not there |
| AttemptTruth.SerializedAttemptsAgree | src/agent_control_plane/bounded.py:674-742 | so they do when the executions of that one effect do not overlap |
| RefundRuns.OverlapMisleads | src/agent_control_plane/bounded.py:674-742 | runs from the initial state in which executions overlap and a partial attempt stands for an effect applied in full, and a failed one for an effect that is there |
| AttemptTruth.StepIsVouched | src/agent_control_plane/bounded.py:674-742 | each step keeps: what is stored was called for, and what attempts in the store or on their way say about it is true |
| ObservationBooks.BooksAgree | src/agent_control_plane/bounded.py:755-797 | stored observations are those of accepted reconciliations plus those in flight or orphaned, at most one per crash; nothing is ever retry eligible or safe to retry |
| ObservationBooks.ObservationIsTruthful | src/agent_control_plane/bounded.py:755-877 | a verdict reached at an observe step agrees with the ledger at that step |
| Refusals.RefusesExactlyWhenChanged | src/agent_control_plane/bounded.py:656-672 | a revalidation refuses exactly when the operation is not authorized now or is bound differently, with the resolver's reasons |
| Refusals.RefusalIsOneRecord | src/agent_control_plane/bounded.py:656-670 | a refusal appends one record with non-empty, strictly sorted reasons, and no attempt, call or destination change |
| Refusals.RefusedNeverCalls | src/agent_control_plane/bounded.py:656-670 | a refused execution never calls the destination in any later run |
| WorkflowClass.SoloIsRun | src/agent_control_plane/bounded.py:637-744 | an execution moving alone is a run of the machine |
| WorkflowClass.BoundedAuthorizationWorkflow.Decide | src/agent_control_plane/bounded.py:617-635 | decide appends exactly the decision resolution calls for |
| WorkflowClass.BoundedAuthorizationWorkflow.ObserveAndReconcile | src/agent_control_plane/bounded.py:755-784 | one observation and its verdict are recorded as the machine's steps record them |
| WorkflowClass.BoundedAuthorizationWorkflow.Execute | src/agent_control_plane/bounded.py:637-744 | the sequential code ends where the machine's steps end; a refusal leaves attempts and destination as they were, and a result is the last recorded attempt |
| WorkflowClass.BoundedAuthorizationWorkflow.CallDestination | src/agent_control_plane/bounded.py:710-744 | the attempt is recorded before the call and the outcome after it, as the machine does |
| WorkflowClass.BoundedAuthorizationWorkflow.Call | src/agent_control_plane/bounded.py:719-742 | the request is built from the proposal and the binding, and the answer put on the attempt, as the machine does |
| RecordStore.StepIsSound | src/agent_control_plane/bounded.py:345-413 | every step of every client keeps the file equal to the log, the lock exclusive and each append counted |
| RecordStore.StoreIsALog | src/agent_control_plane/bounded.py:386-413 | the file is always the atomic replay of the renames, whole, with each logged value once and in order, and every field no append touches as it was |
| RecordStore.CreatedStoreKeepsItsRun | src/agent_control_plane/bounded.py:286-325 | a store that was not there has no file until a client creates it by opening; from then on the document has exactly six fields, the run that client named for ever, and under each of the five names the values appended to that list, in order |
| RecordStore.StepsAreAtomic | src/agent_control_plane/bounded.py:395-413 | a step leaves the file alone or is one lock holder's rename, taking effect at once and for the only time |
| RecordStore.ReadsOnlyGrow | src/agent_control_plane/bounded.py:362-365 | every load satisfies the schema and has lists under the five names, and is a prefix in all five of every later load and of the file |
| RecordStore.AppendsAppearOnce | src/agent_control_plane/bounded.py:386-393 | an append that returned is in the log exactly once and in every document read later at its own place; one that failed or died is there at most once |
| RecordStore.OneClientInside | src/agent_control_plane/bounded.py:345-355 | at most one client is between lock and unlock |
| RecordStore.UnreadableStays | src/agent_control_plane/bounded.py:321-325 | an unreadable or invalid document is never overwritten nor read, not even by opening the store |
| RecordStore.StoppingReleases | src/agent_control_plane/bounded.py:345-413 | between any two of its moves a client may fail or die: the file and the log stay, its lock is released, and only a client that died leaves its temporary file |
| RecordFile.BoundedRecordFile.OpenStore | src/agent_control_plane/bounded.py:314-325 | opening writes a missing document with the run id and five empty lists under their names, never replaces one that is there, and succeeds exactly on a missing or an acceptable one |
| RecordFile.BoundedRecordFile.AppendTo | src/agent_control_plane/bounded.py:386-393 | an append adds one value to one list exactly when the document and the result are acceptable to the schema with lists under the five names, and otherwise changes nothing |
| RecordFile.Undisturbed | src/agent_control_plane/bounded.py:345-413 | a client left to itself completes: its operation takes effect atomically, is logged once if it does, it is told so truthfully, and the lock is free |
| StoredRecords.StepRecordsOne | src/agent_control_plane/bounded.py:371-393 | a step of the workflow records nothing, or one entry at the end of one list: one append of the store |
| StoredRecords.FileShowsTheRun | src/agent_control_plane/bounded.py:362-393 | however clients interleave, fail and die, while the store's log holds the appends of a run of the workflow the file shows that run's records list by list, and every document loaded shows the records at some point of it |
| StoredRecords.EveryRunCanBeStored | src/agent_control_plane/bounded.py:386-393 | every run of the workflow has a run of the store that logs exactly its appends and leaves its records in the file |
| Claims.VerifyClaim | src/agent_control_plane/local_authority_effect.py:524-569 | a claim of this profile and source is accepted exactly when sealing it again leaves it as it is |
| Claims.AcceptedIsSealed | src/agent_control_plane/local_authority_effect.py:524-569 | the verifier's comparisons, one by one, amount to every commitment being the one the issuer would have put there |
| Claims.OneCommitmentOneClaim | src/agent_control_plane/local_authority_effect.py:524-569 | with an injective hash, accepted claims with one claim commitment are equal in every field, nested ones included |
| Claims.TamperingIsRejected | src/agent_control_plane/local_authority_effect.py:524-569 | an accepted claim changed in any field, under its old commitment, is rejected |
| Claims.StateCommitmentsFixState | src/agent_control_plane/local_authority_effect.py:385-399 | with an injective hash, accepted claims of one generation share the commitment over approvals, policies or evidence exactly when they share that list, and the one over the whole authority exactly when they share grant revision, requirement and all three |
| Claims.OneTextOneClaim | tests/test_check_commit_inventory.py:157-160 | the text a store keeps of a claim is that of no other claim |
| IssuedClaims.SnapshotExactly | src/agent_control_plane/bounded.py:496-527 | the snapshot is the context, the status of its grant, and exactly those approvals, policies and evidence it refers to, each as the source has it |
| Issuance.ValidateIssuanceSnapshot | src/agent_control_plane/local_authority_effect.py:176-324 | the header checks and three loops, field by field, accept exactly snapshots that show the bound authority, and project what they saw |
| Issuance.Materialize | src/agent_control_plane/local_authority_effect.py:327-462 | a claim is returned exactly when it is issuable, and is the specified claim |
| IssuedClaims.IssuanceDecides | src/agent_control_plane/local_authority_effect.py:226-383 | a claim is issued exactly when the decision is the only one persisted under its id, the operation is authorized now under the same binding, every approval the grant refers to stands, every required or hold-on-unknown evidence is present, current and fresh, and whatever ends comes after whatever starts and after now |
| Issuance.ResolvedHeaderHolds | src/agent_control_plane/local_authority_effect.py:185-224 | after a fresh resolution to the same binding, the snapshot checks of context, grant, requirement, status and policies cannot fail |
| IssuedClaims.IssuedWindow | src/agent_control_plane/local_authority_effect.py:369-383 | a claim's window contains its issuance, begins at the later start of grant and proposal and ends at the first end of grant, proposal and caller |
| Issuance.IssuedClaimsAreAccepted | src/agent_control_plane/local_authority_effect.py:385-454 | every issued claim, tenant-aware or not, is accepted by the verifier |
| Issuance.BindingIsTheProposals | src/agent_control_plane/bounded.py:1272-1301 | a resolved binding is the proposal's in every operation field, names the context and requirement it was resolved in, and its cap admits the proposal |
| IssuedClaims.ClaimSpeaksForTheDecision | src/agent_control_plane/local_authority_effect.py:408-446 | an issued claim agrees with the persisted decision and its binding in every field they share; its institution is that of the context, its operation commitment is over the ordered operation, its id, budget and inputs are those asked for or their defaults |
| IssuedClaims.ClaimCarriesItsAuthority | src/agent_control_plane/local_authority_effect.py:226-322 | an issued claim lists each approval and policy in the grant's order, and the evidence there is for each obligation, every field as the source has it |
| Issuance.OperationCommitmentIdentifies | src/agent_control_plane/local_authority_effect.py:137-173 | with an injective hash, equal operation commitments mean one operation under one grant revision and tenant |
| IssuedClaims.OneOperationCommitmentOneOperation | src/agent_control_plane/local_authority_effect.py:388-393 | with an injective hash, two claims issued anywhere with one operation commitment are for one operation of one institution under one grant revision and tenant |
| Inventory.SameHostInventory.ProvisionClaim | tests/test_check_commit_inventory.py:146-162 | provisioning happens exactly when none of the four named rows and no claim of that id is there; it adds grant, policy and approval as active, evidence as current, the claim and the event, or changes nothing |
| Inventory.SameHostInventory.MutateAuthority | tests/test_check_commit_inventory.py:164-173 | a mutation updates the row if it is there and is logged either way |
| Inventory.SameHostInventory.Commit | tests/test_check_commit_inventory.py:175-200 | an effect row is added exactly when grant, policy and approval are active, evidence is current and the effect is new; otherwise a row that fails is named by a sorted hold |
| Inventory.OrderIsFaithful | tests/test_check_commit_inventory.py:146-203 | replaying the order reproduces the authority table and the number of effects, and every effect stands where all rows held |
| Inventory.EffectsWereDue | tests/test_check_commit_inventory.py:175-203 | an effect row is the work of one commit that found every row active or current |
| Inventory.MutationFirstHolds | tests/test_check_commit_inventory.py:164-203 | an invalidating mutation of a provisioned row, ordered first, holds every later effect until that row is set right, and the hold names it |
| Inventory.InvalidationIsInForce | tests/test_check_commit_inventory.py:146-203 | an invalidating mutation is in force later, nobody having mutated the row since, exactly when the row was there or no claim was provisioned meanwhile |
| Inventory.MutationHoldsExactly | tests/test_check_commit_inventory.py:146-203 | an effect is held on account of an earlier invalidation exactly in those cases, and then no row is added |
| Inventory.MutationBeforeProvisioningIsLost | tests/test_check_commit_inventory.py:164-203 | a concrete order in which a mutation logged before provisioning does not hold the effect |
| Inventory.EffectsStay | tests/test_check_commit_inventory.py:164-203 | a committed effect stays as it is, whatever is changed later |
| Handoff.StepIsCoherent | src/agent_control_plane/local_authority_effect.py:342-462 | each interleaved step keeps what a lock holder has read equal to what the resolver says now, and issues claims of one instant only |
| Handoff.EffectsStandOnAnIssuedClaim | src/agent_control_plane/local_authority_effect.py:356-462 | in every interleaving an effect row stands where every authority row held, after the provisioning of a claim that one instant of the authority source justified |
| EffectsAndClaims.AtMostOneClaim | tests/test_check_commit_inventory.py:146-162 | however many issuers there are, at most one claim is ever provisioned |
| EffectsAndClaims.RowsAreTheClaimsExactly | src/agent_control_plane/local_authority_effect.py:71-76 | every effect row is under an issued claim's effect id and names that claim exactly when every commit presented the pair of a claim issued before |
| EffectsAndClaims.OneClaimOneEffect | src/agent_control_plane/local_authority_effect.py:71-76 | while every commit presents an issued claim there is at most one effect row |
| EffectsAndClaims.UnissuedCommits | tests/test_check_commit_inventory.py:175-200 | wherever the rows hold, any pair of effect and claim id commits, issued or not |
| RefundClaim.UnissuedPairCommits | tests/test_check_commit_inventory.py:175-200 | a run that issues one claim and stores an effect under a pair nobody issued |
| Handoff.AuthorityHeldStill | src/agent_control_plane/bounded.py:485-494 | from the moment an issuer holds the handoff until it leaves, in every interleaving, it resolves, snapshots and provisions from one and the same authority source |
| Handoff.LeftAloneIssuesExactly | src/agent_control_plane/local_authority_effect.py:342-462 | an issuer that finds the lock free and is left alone issues exactly the claim the authority source justifies, exactly when it justifies one and the store takes it, and leaves the lock free |
| EvidenceProfile.ClassifyEvidence | src/agent_control_plane/decision_input_profile.py:218-236 | the classifier, with its early-return loop, computes the specified status |
| EvidenceProfile.StatusIsFirstInPrecedence | src/agent_control_plane/decision_input_profile.py:19-25 | on validated evidence the status is the first match in the declared precedence, and the last fallback is never reached |
| EvidenceProfile.OrderIsIrrelevant | src/agent_control_plane/decision_input_profile.py:218-236 | neither order nor repetition of items matters |
| EvidenceProfile.MoreEvidenceNeverImproves | src/agent_control_plane/decision_input_profile.py:218-236 | adding evidence never improves a status other than missing |
| EvidenceProfile.LaterOnlyExpires | src/agent_control_plane/decision_input_profile.py:228-233 | later evaluation only moves valid to stale, exactly when some evidence expires |
| EvidenceProfile.ValidMeansMet | src/agent_control_plane/decision_input_profile.py:218-236 | valid means: some evidence, all of it current, in time and agreeing |
| EvidenceProfile.VerifyRecord | src/agent_control_plane/decision_input_profile.py:239-372 | the verifier rejects with the first fault in its order, or accepts with the status of every obligation; input and record commitment are recomputed from the record's own fields |
| RecordAcceptance.AcceptedExactly | src/agent_control_plane/decision_input_profile.py:239-372 | a record is accepted exactly when every condition on its header, policies, resolver semantics, obligations, requirements, evidence, context, statuses and outcome holds, written out over its fields; evidence observed at the evaluation time itself is in time |
| EvidenceProfile.AcceptedRecordsAreMet | src/agent_control_plane/decision_input_profile.py:259-361 | in an accepted record everything is bound, no institutional obligation is removed or reinterpreted, and every required obligation is met from its exact source |
| ProfileCommitments.OneInputCommitmentOneInput | src/agent_control_plane/decision_input_profile.py:335-350 | with an injective hash, accepted records whose decisions name one input commitment agree in candidate, requirements, policies, obligations, evidence, context, time, resolver semantics and assurance |
| ProfileCommitments.OneRecordCommitmentOneRecord | src/agent_control_plane/decision_input_profile.py:359-363 | under one record commitment they agree in all of that and in their decision |
| PolicyGate.ActiveAuthorityScopes | src/agent_control_plane/policy_gate.py:268-286 | the loop gathers the scopes of records of this run and actor that have not expired |
| PolicyGate.ApplyRules | src/agent_control_plane/policy_gate.py:157-240 | the rule loop returns the first match with its trace, and always decides |
| PolicyGate.FirstMatchDecides | src/agent_control_plane/policy_gate.py:157-240 | the trace is the rule list up to the matching rule, whose entry alone matched, and that rule gives result, name and reason |
| PolicyGate.DecidedIsTable | src/agent_control_plane/policy_gate.py:157-240 | the rule list decides as a table of blocked, allowed and escalated cases |
| PolicyGate.DecisionNamesItsRule | src/agent_control_plane/policy_gate.py:157-240 | the decision names the first of the six rules that matches and gives its reason, and the trace the rules tried up to it, of which only the last matched |
| PolicyGate.OneFingerprintOneDecision | src/agent_control_plane/policy_gate.py:242-263 | with an injective hash, equal fingerprints mean equal result, rule name, reason and trace |
| PolicyGate.FingerprintExactly | src/agent_control_plane/policy_gate.py:242-263 | with an injective hash, one fingerprint exactly when tool, action type, target, payload, listed tools, policy version and active scopes are the same, up to order |
| PolicyGate.MoreAuthorityOnlyAllows | src/agent_control_plane/policy_gate.py:268-286 | adding authority records or looking earlier never turns allow into anything else |
| PolicyGate.EvaluateWithTrace | src/agent_control_plane/policy_gate.py:106-147 | decision and trace come from one application of the rules and carry one fingerprint |
| Recorder.RunRecorder.ProposeAction | src/agent_control_plane/records.py:152-187 | a proposal is appended under the run's id, or refused before the start |
| Recorder.RunRecorder.EvaluateAction | src/agent_control_plane/records.py:189-237 | only an action of this run that was proposed is evaluated; trace, decision and block record are appended together |
| Recorder.ValidateRunRecord | src/agent_control_plane/validation.py:42-63 | the validator reports exactly the issues that are so, of any record, and is valid exactly when all are about an authority of another actor or a missing final output |
| Recorder.IssuesExactly | src/agent_control_plane/validation.py:90-207 | of any record, an issue is reported exactly when what its code complains of is so at its index: run ids, unknown actions, missing traces, a fingerprint other than that of the last trace under the id, blocks without a block decision, foreign actors |
| Recorder.CheckDecisions | src/agent_control_plane/validation.py:115-145 | the decision loop, with its dictionaries of traces and of decisions by action, reports the specified issues |
| Recorder.RunLinks | src/agent_control_plane/records.py:85-284 | whatever is called, however often it is started, every decision, trace and block record points at what is there |
| Recorder.RecorderSatisfiesValidator | src/agent_control_plane/validation.py:90-207 | after any calls with any number of starts, trace ids apart, the record passes exactly when everything recorded before the last start carries its run id and every reliance refers to no action or to a proposed one |
| Recorder.RestartPassesExactly | src/agent_control_plane/validation.py:90-207 | with run ids that differ, it passes exactly when nothing was recorded before the last start and every reliance reference holds |
| Recorder.OneStartPassesExactly | src/agent_control_plane/validation.py:90-207 | after one start it passes exactly when every reliance reference holds |
| Recorder.SecondStartFails | src/agent_control_plane/records.py:85-119 | a concrete run in which a second start makes the record fail |

## Left out

- Text is a sequence of characters; UTF-8 encoding and the bytes a hash reads are not part of the model.
- SHA-256 is a parameter; that it is injective is a hypothesis of each lemma that needs it.
- Dictionaries with keys that are not strings, NaN and infinite floats, and fractional amounts are not modelled; a float is any token the printer could have written.
- EffectIdentity.CommitmentIdentifiesOperation: amounts are whole numbers, so it says nothing of two fractional amounts; every other field is compared as the source holds it.
- ISO-8601 text is not parsed; instants are integers, an observation's time may also be missing, malformed or without a zone.
- Pydantic parsing, unions and type coercion are replaced by well-formed datatypes; claims given as raw dictionaries are not modelled.
- The manifest and the authority requirement carry the document that is committed beside the fields that are read from it; decoding one from the other is not modelled, so a manifest digest ties down the document and not the actions read.
- The JSON under a profile record's commitments is built from the record's fields; keys the record does not declare, and decoding a record from its JSON, are not modelled.
- Error messages are not modelled where the code only raises; issuance says whether a claim is refused, not which message says so.
- File modes, descriptors, fsync, mount inspection and the indentation of the stored document are not modelled; the document is whole or garbled, and schema validation is an arbitrary condition beyond the five lists being lists.
- The workflow machine appends to the record log as one step; the record store is what makes an append one step. The JSON form of an entry is an arbitrary function of it; printing and parsing typed records is not modelled.
- A resolution, and the listing of changed inputs, each read the resolver as one arbitrary state; two reads of one key inside a single resolution that answer differently are not modelled.
- One record store and one destination instance are modelled; the destination's lock is process-local in the code.
- A failed append or observation write inside `execute` ends the execution like a crash.
- Aliasing of returned objects and custom gates passed to the recorder are not modelled.
- The claim store's event texts are structured events, and its SQLite transactions are atomic steps.
- Replay bundles and their validation, signing, redaction, persistence helpers, policy configuration, the command line and the external agent toolkit adapter would add only easy members.
- Progress is stated for an undisturbed store transaction and an undisturbed issuer; fairness and timeouts are not modelled.

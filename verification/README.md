# A verified model of the Jira just-in-time RBAC operator

The operator turns a `JitRequest` object into time-limited role bindings. A request moves through
the states "" (new), Pre-Approved, Succeeded or Rejected, and deletion; on the way the operator
opens, comments on and moves a Jira ticket, creates one binding per namespace, writes the status
with optimistic locking, and re-queues itself for points in time. Any of these calls can fail, with
or without taking effect, and the process can restart between any two of them; a reconcile then
starts again from the stored status alone. The project proves what survives that.

## How it is built

`Machine` is the operator and its surroundings as a state machine. A reconcile in flight is a
program point (`Pc`) holding its in-memory copy of the request; one step answers the pending external
call (`Perform`) and moves on (`Next`). Between any two calls the environment may take steps: time
passes, requests are created, edited and deleted, people move tickets, garbage is collected,
namespaces, users and configuration change, watch events are delivered, timers fire. A call ends
`Ok`, `Err` (no effect) or `Lost` (effect, but the reply is an error). `Restart` cuts a reconcile
short. A run is any sequence of steps from an empty operator; `History` computes from it a trace of
what was read and done.

`Operator` and `ClusterApi` are the controller in its own form: classes whose methods make one external
call after the other, assign the status of the object in memory, loop over namespaces and retry.
Each method is proved to make exactly the calls of the machine's program points, in order and with
their arguments, whatever the calls return and whatever happens in between; so an execution of this
code is a run of the machine, and every theorem about runs holds of it
(`Operator.EveryClusterIsSafe`).

The theorems: `Invariants` (consistency of records, tickets, bindings and in-memory copies),
`Updates` (status writes, and how many calls a reconcile makes), `Wakeups` and `Timers` (nothing is
stranded, and when wake-ups come), `Grants` (when access is granted, and to whom), `Edits` (what becomes
of the spec between the checks and the grant), `Expiry` (what bindings can outlive), `Tickets` and
`Closure` (how many tickets, how they end), `Comments` (what is said on them first), `Traces` (the trace is
true and complete), `Isolation` (requests do not interfere), `Bindings` (the create and delete loops),
`Progress` (what an undisturbed reconcile does, that one can always be finished, and termination),
`Limits` (runs and faults the code does not recover from). `Validation`, `Payload` and `Admission` are the
checks, the fields of a ticket and the webhook; `ConfigCache` and `ConfigLock` are the configuration
cache and its lock, `Defaults` the configuration used when there is none.

## What turned out not to hold

- **The access granted need not be the access that was checked.** The checks and the ticket use the spec
  as it was when the request was new; the bindings use the spec as it is at the start time, and nothing
  checks an edit in between. A run grants a role that was never allowed, to another user than the one
  the ticket was opened for (`Limits.UncheckedSpecIsGranted`). `Edits.GrantedAsVetted` gives the exact condition: the two
  specs differ exactly if edits took effect in between and the last of them set another spec; without
  an edit, what is granted is what was checked and is in the ticket.
- **A wake-up can be lost** in two ways: the start or end time passes between the comparison and the
  second reading of the clock, or the write that rejects a request for a missing field fails, which
  the code drops. `Wakeups.NoStrandedRequest` shows these are the only ways; `Limits.LateClockStrands`
  and `Limits.SwallowedWriteStrands` are runs that show both are real.
- **An undisturbed reconcile at its deadline does not always make progress.** It does exactly if the
  request is not `Progress.Blocked`: its reporter is unknown, its approved ticket cannot be completed
  or a namespace is gone, or its rejected ticket cannot be moved. A rejected request whose ticket a
  person moved to a final status is never deleted (`Limits.TerminalTicketBlocksDeletion`; the run
  `Limits.StuckRequestExists`). A Pre-Approved request that cannot be completed keeps its bindings,
  past its end time too (`Limits.BlockedKeepsBindings`; the run `Limits.BlockedPastEnd`).
- **A request can be Rejected while its bindings exist**, if a reconcile breaks off after its first
  binding and before the write of Succeeded (`Expiry.RejectedAndBoundOnlyAfterAbort`). Where the
  completing transition leaves the approved status, as in the sample workflow, a single failed write
  does it (`Limits.FaultAfterCompletionRejects`; the run `Limits.RejectedWhileBound`). For a due request
  that is bound, the next reconcile does it exactly if the ticket is not in the approved status
  (`Limits.RejectedAndBoundIff`).
- **The end time is not compared before granting** (`Limits.ExpiredRequestIsStillGranted`; the run
  `Limits.GrantedPastEnd`). `Limits.CreatesBindingIff` says exactly when a reconcile creates a binding;
  the end time is not part of the condition.
- **A Succeeded request need not own its bindings.** A key that is taken is passed over, so where a
  deleted request of the same name has left its binding, the new request becomes Succeeded on a binding
  that is garbage (`Limits.SucceededOwnsIff`; the run `Limits.SucceededWithoutAccess`).
- **A timer can be early when a name is used again**: the timer of a deleted request stays
  (`Limits.ReusedNameWakesEarly`). It is never late for that reason.
- **A delete goes by name** and can hit a newer request of that name, exactly if one was created since
  the reconcile read its own (`Limits.DeletesAnotherIffRecreated`; the run `Limits.NewerRequestDeleted`).
- **The enforced namespace pattern and the cached one can disagree**: after a restart
  (`Limits.RestartDropsPattern`), after an invalid pattern, which disables the check, and after the
  pattern was removed, which does not lift it.
- **The payload can depend on map order.** It does exactly if two required fields of known kinds share
  a Jira field id and supply different values, or two custom fields do whose id no such required field
  overrides (`Payload.PayloadOrderIndependent`).

## Where code and documentation disagree

The model follows the code. The comment on `handleFetchError` says that it cleans up owned objects;
the object it receives was not found and is empty, so it deletes nothing, and bindings disappear
through owner references. The repository's README says the operator deletes expired requests and
their bindings; the bindings go with garbage collection afterwards. The CRD gives the state the
default "Pending", but the default only applies when a status is submitted, and a new request is
handled in state "".

## Assumptions about the surroundings

- Status is written only by the operator; bindings named "<name>-jit" with a `JitRequest` owner are
  created only by it. People may delete bindings.
- Reads see the latest write, there is one worker, and one reconcile runs at a time.
- A write that repeats the stored value still gets a new version. A delay of zero or less asks for no
  re-queue, and adding a timer keeps the earlier one (behaviour of controller-runtime).
- Deleting a request by name carries no precondition. A restart re-announces every stored request.
- Names may be reused, except where a statement says otherwise; no two requests ever have the same number.
- Each issue the tracker creates has a key not used before. Its workflow is a fixed map from (status,
  transition) to status.
- The role and time values of a binding come from the spec, the deadlines from the status; the spec may
  be edited at any time, also after the checks, except where a statement speaks of an undisturbed
  reconcile.

## Model

| member | source | states |
|---|---|---|
| Invariants.Reachable | internal/controller/jitrequest_controller.go:63-104 | In every state of every run, stored statuses fit their phase, recorded tickets belong to their request, bindings name their owner, and an in-memory copy is never ahead of the store. |
| Updates.StaleWriteNeverSucceeds | internal/controller/utils.go:32-48 | A status write on a stale copy is never accepted, at any retry, under any concurrent writers, until the reconcile is over. |
| Updates.RetriesAreStale | internal/controller/utils.go:39-42 | In every run, a retried status write carries a version that is no longer stored. |
| Updates.WriteSucceedsIffFirstAttemptDoes | internal/controller/utils.go:32-48 | A status write takes effect exactly on the first attempt, on the very record that was read, and replaces that record only. |
| Updates.CallsBounded | internal/controller/jitrequest_controller.go:63-104 | In any run, one reconcile makes at most 31 calls and one more for each namespace of the request it has read. |
| Updates.AttemptsBounded | internal/controller/utils.go:39-42 | In any run, a reconcile makes at most five attempts to write a status, so it makes at most one update, of at most five attempts. |
| Updates.FifthConflictGivesUp | internal/controller/utils.go:39-45 | Up to four conflicts in a row repeat the same write; the fifth ends the reconcile, in error unless a missing field was being rejected. |
| Wakeups.NoStrandedRequest | internal/controller/jitrequest_controller.go:91-121 | In every run, names reused or not, a stored request is in flight, queued, announced, or has a timer that fires no later after its deadline than the worker took to act on the delay; unless its latest reconcile computed its delay too late or dropped a failed rejection. |
| Timers.TimersAreNotEarly | internal/controller/handlers.go:72-78 | In every run in which names are not reused, a stored request with a timer is Pre-Approved or Succeeded and the timer does not fire before its start or end. |
| Wakeups.ArmedIffInTime | internal/controller/handlers.go:73-78 | Whatever happens between the second clock reading and the worker acting on it, the request then has a wake-up exactly if it had one or the target was still ahead when read; a new timer fires after the target by just the time since the reading. |
| Wakeups.SwallowedIffWriteFails | internal/controller/jira_client.go:139-148 | A request with a missing field keeps a wake-up exactly if it had one or the rejecting write took effect, and the reconcile reports success either way. |
| Wakeups.AnnouncedExactly | internal/controller/jitrequest_controller.go:106-129 | Apart from a restart, a step announces a name exactly when its record is created, deleted or turns Rejected. |
| Grants.GrantSafety | internal/controller/handlers.go:47-107 | Every binding ever created comes from a reconcile that read the request Pre-Approved, then a clock not before its start, then its own ticket in the approved status; and an earlier reconcile read an earlier version of it as new, read a configuration, opened that very ticket with the fields of that version, and checked it: its role is among the allowed ones, it gives every configured field, each of its namespaces existed with every label asked for (unless webhooks are on) and is accepted by the pattern that was read. |
| Grants.ApprovalDecides | internal/controller/jira_client.go:76-102 | From the approval check, bindings are created exactly if the ticket was read, with a reply, in the approved status; any other answer leads to the write that rejects with the recorded ticket. |
| Edits.GrantedAsVetted | internal/controller/handlers.go:34-107 | The spec that is granted is the one that was checked, after exactly the edits that took effect in between; without any, its role, fields and namespaces passed every check and its fields are in the ticket; the two differ exactly if there were edits and the last one set another spec. |
| Edits.UneditedGrantIsChecked | internal/controller/handlers.go:34-107 | A request that is never edited is granted exactly as it was checked and as its ticket says. |
| Grants.EveryBindingIsGranted | internal/controller/utils.go:145-174 | In every state of every run, a binding owned by a request is one a recorded and justified grant created: under the name of that request in one of its namespaces, for its reporter and then its additional users, with its role and end time, and owned by it alone. |
| Grants.NewBindingIsGranted | internal/controller/utils.go:145-174 | No step but a recorded grant adds or replaces a binding, and what it adds has the name, subjects, role, expiry and single owner of that request. |
| Traces.EntriesTell | internal/controller/jitrequest_controller.go:63-104 | Every entry of the trace is true of the step that made it: what a reconcile read was so, with the reply received, and what it did changed exactly that record, ticket or binding, in that way. |
| Traces.NothingUntold | internal/controller/jitrequest_controller.go:63-104 | No ticket the operator opens, no transition it makes, no status it writes, no request it removes and no binding it creates is missing from the trace. |
| Comments.DecisionsAreAnnounced | internal/controller/jira_client.go:42-307 | In every run, comments are never lost; Pre-Approved is written only on a ticket that lists the namespaces, the reporter, the additional users and the configured text; a ticket is moved only after the completion or the reason was said on it; a rejected request is deleted only after its ticket was given its reason and then the rejecting transition, and Succeeded is written only after the completing one. |
| Expiry.RejectedAndBoundOnlyAfterAbort | internal/controller/handlers.go:79-103 | A Rejected request owns a binding only if a reconcile of it broke off after creating one and before writing Succeeded. |
| Expiry.BoundWithoutAbort | internal/controller/handlers.go:90-106 | Without such a fault, the owner of a binding is Succeeded, is being granted right now, or is gone and the binding is garbage. |
| Expiry.CollectionClears | internal/controller/utils.go:163-166 | After deletion, a binding of the request that exists at the end of a run existed before it and was not collected in it. |
| Expiry.DeadForever | internal/controller/utils.go:50-59 | A deleted request that no reconcile holds is never stored again, in any run. |
| Tickets.TicketsBounded | internal/controller/jira_client.go:129-227 | Tickets opened for a request number at most one plus its reconciles that broke off in or after opening one. |
| Tickets.ExactlyOneTicket | internal/controller/jira_client.go:129-227 | The recorded ticket of a stored request was opened for it, and without such a fault it is the only one; a skipped request has none. |
| Tickets.DeletedRequestHadOneTicket | internal/controller/handlers.go:17-32 | The same for requests the operator has deleted, over the whole run. |
| Tickets.RecordedTicketIsFinal | internal/controller/handlers.go:80-101 | Once the state has left "", the recorded ticket never changes, in any run. |
| Tickets.TicketsAreKept | internal/controller/jira_client.go:214-226 | Every ticket ever opened stays, with the owner and the fields it was opened with. |
| Closure.MovesFollowStatus | internal/controller/jira_client.go:42-74 | While none of its reconciles failed, the ticket of an idle request has one completing transition if it is Succeeded and no operator transition otherwise. |
| Closure.DeletedRequestHasClosedTicket | internal/controller/handlers.go:17-32 | When a request none of whose reconciles failed has been deleted, no ticket was ever opened for it if it was Skipped; otherwise exactly one, which has exactly one operator transition: completing if it was Succeeded, rejecting if Rejected. |
| Isolation.Isolation | internal/controller/jitrequest_controller.go:63-104 | What one name sees of any interleaved run is a run of that name alone, taking just the steps that concern it, each of which is possible there. |
| Isolation.StepView | internal/controller/utils.go:145-174 | Every single step either concerns a name and acts on its view as on the world, or leaves its view unchanged. |
| Isolation.ReconcilesCommute | internal/controller/jitrequest_controller.go:63-104 | Whole reconciles of two names that choose different ticket keys are possible in both orders, with the same result for every name. |
| Types.BindingNameInjective | internal/controller/utils.go:149 | Distinct requests have distinct binding names. |
| Bindings.CreatedExactly | internal/controller/utils.go:127-176 | The creation loop adds exactly the missing keys, each with the request as its one owner, the reporter and the additional users as subjects, and its role and end time, and leaves existing entries unchanged. |
| Bindings.CreatedIsCompleted | internal/controller/utils.go:145-176 | The loop over the sequence equals the order-free completion of its set of namespaces. |
| Bindings.PassedOwnsIff | internal/controller/utils.go:168-173 | A call that gets past a namespace leaves it with the request's own binding exactly if the key was free or its own when the call was made. |
| Bindings.CreatedOwnsIff | internal/controller/utils.go:145-176 | The same for the whole loop. |
| Bindings.CreatedIgnoresOrder | internal/controller/utils.go:145-176 | Order and repetition of namespaces do not matter to its result. |
| Bindings.CreationResumes | internal/controller/utils.go:127-177 | Broken off anywhere, any number of times, and then completed, it leaves the store of one uninterrupted run. |
| Bindings.LoopCreatesPrefix | internal/controller/utils.go:145-176 | Whatever its calls return, the loop in the machine leaves the store as after some prefix of the namespaces, and after all of them if it succeeds. |
| Bindings.DeleteUndoesCreate | internal/controller/utils.go:96-120 | Deleting after creating restores a store that had none of the keys and nothing so owned in those namespaces. |
| Progress.UndisturbedReconcile | internal/controller/handlers.go:17-123 | If every call succeeds and only time passes, the request, the configuration, the ticket and the clock give, for each phase, the new state, its message (for a refusal, the first check that fails), the tickets opened and moved, the bindings (when blocked, those up to the first missing namespace) and the delay. |
| Progress.Finishes | internal/controller/jitrequest_controller.go:63-104 | From every reachable point of a reconcile, calls that succeed lead to its end. |
| Progress.ReconcileExists | internal/controller/jitrequest_controller.go:63-104 | A queued name of an idle worker can be reconciled without disturbance. |
| Progress.RestartRecovers | internal/controller/jitrequest_controller.go:124-129 | After a restart and the delivery of its announcement, a request that is due and not blocked can be reconciled, and every undisturbed reconcile of it makes progress, stranded or not before. |
| Progress.WholeReconcile | internal/controller/jitrequest_controller.go:63-104 | The same from the queue to the settled result: re-queued on error, timed on a positive delay. |
| Progress.RankedProgress | internal/controller/jitrequest_controller.go:91-103 | Such a reconcile brings the request closer to deletion, or keeps it waiting for its deadline with a timer that is not early and late by at most the duration of the reconcile, or fails because it is blocked; at the deadline it makes progress exactly if it is not blocked. |
| Progress.RankNeverRises | internal/controller/utils.go:32-48 | No step of any run, with any faults, brings a request further from deletion. |
| Progress.ThreeReconcilesDelete | internal/controller/jitrequest_controller.go:91-103 | Three undisturbed, unblocked reconciles at their deadlines delete any request, whatever happens before and between them. |
| Progress.ExpiredRequestIsDead | internal/controller/handlers.go:118-122 | An undisturbed reconcile of a Succeeded request at or past its end deletes it for good. |
| Progress.ExpiryClearsBindings | internal/controller/handlers.go:109-123 | After such a reconcile of a Succeeded request past its end, once its bindings are collected none remains or ever appears again. |
| Limits.LateClockStrands | internal/controller/jira_client.go:303-306 | A run in which the start time passes between the two clock readings leaves a Pre-Approved request with no wake-up. |
| Limits.SwallowedWriteStrands | internal/controller/jira_client.go:143-147 | A run in which the rejecting write fails leaves a new request with no wake-up. |
| Limits.FaultAfterCompletionRejects | internal/controller/handlers.go:97-103 | If the write of Succeeded fails after the ticket has left the approved status, the next undisturbed reconcile rejects the request and leaves its bindings. |
| Limits.RejectedWhileBound | internal/controller/handlers.go:97-103 | A run from the beginning, under the sample workflow, to a Rejected request that owns a binding. |
| Limits.RejectedAndBoundIff | internal/controller/handlers.go:81-103 | A due Pre-Approved request that owns a binding is left Rejected and bound by an undisturbed reconcile exactly if its ticket is not in the approved status. |
| Limits.UncheckedSpecIsGranted | internal/controller/handlers.go:90-95 | A run from the beginning in which an edit after the approval leads to a binding for a role that is not allowed and for another user. |
| Limits.UnapprovedIsRejected | internal/controller/handlers.go:81-88 | An undisturbed reconcile of a due request whose ticket is not approved rejects it and leaves its bindings. |
| Limits.TerminalTicketBlocksDeletion | internal/controller/handlers.go:20-25 | A Rejected request whose ticket is in a final status is never deleted by the operator, in any run. |
| Limits.StuckRequestExists | internal/controller/handlers.go:81-88 | A run from the beginning to such a request. |
| Limits.BlockedKeepsBindings | internal/controller/handlers.go:90-99 | A due request that is blocked stays Pre-Approved and queued in each undisturbed reconcile, keeps every binding and gains those up to the first missing namespace. |
| Limits.BlockedPastEnd | internal/controller/handlers.go:90-99 | A run from the beginning to a blocked request that owns a binding past its end time. |
| Limits.DeletesAnotherIffRecreated | internal/controller/utils.go:50-59 | What a reconcile would delete is not the request it read exactly if another one of that name was created since. |
| Limits.NewerRequestDeleted | internal/controller/utils.go:50-59 | A run in which a request just created is deleted in place of an older one of its name. |
| Limits.SampleTerminals | samples/workflow.xml:31-131 | In the sample workflow the final statuses are all but Todo and Approved. |
| Limits.RestartDropsPattern | internal/config/justintimeconfig_controller.go:38-43 | From a restart until the configuration is reconciled again no pattern is enforced, so no request is refused by it. |
| Defaults.DefaultFitsWorkflow | pkg/configuration/client.go:43-49 | Under the sample workflow the default configuration completes an approved ticket and rejects a new one, and not the other way round, and neither can be moved afterwards. |
| Defaults.DefaultPayload | pkg/configuration/client.go:59-68 | Under the default configuration every payload sends the approver and the product owner as accounts and the justification, role and times as plain text, under their own ids, and nothing else. |
| Limits.ExpiredRequestIsStillGranted | internal/controller/handlers.go:70-107 | A due, approved, unblocked request gets all its bindings even past its end time, and is then deleted. |
| Limits.CreatesBindingIff | internal/controller/handlers.go:70-95 | An undisturbed reconcile creates a binding that was not there exactly if the request is Pre-Approved, due, its ticket is approved, and a key is missing among its namespaces up to the first that does not exist; its end time does not matter. |
| Limits.SucceededOwnsIff | internal/controller/utils.go:168-173 | A request that an undisturbed reconcile makes Succeeded has a binding in each namespace, its own exactly if the key was free or its own already. |
| Limits.SucceededWithoutAccess | internal/controller/utils.go:168-173 | A run from the beginning to a Succeeded request whose namespace holds the garbage binding of a deleted request of its name. |
| Limits.ReusedNameWakesEarly | internal/controller/handlers.go:72-78 | A run from the beginning in which a timer left by a deleted request is due before the start time of its successor. |
| Limits.GrantedPastEnd | internal/controller/handlers.go:70-107 | A run from the beginning to a binding created after its end time. |
| Validation.Contains | pkg/utils/utils.go:57-65 | True exactly if the item is in the slice. |
| Validation.ValidateNamespaceRegex | pkg/utils/utils.go:67-81 | Without a pattern nothing is refused; with one, nothing is refused exactly if it accepts every namespace, and otherwise the first one it does not accept is returned. |
| Validation.ValidateNamespaceLabels | pkg/utils/utils.go:83-129 | Accepts without labels, fails with the listing, and otherwise returns exactly the requested namespaces not listed. |
| Validation.UnmatchedIsSubsequence | pkg/utils/utils.go:105-111 | The returned namespaces are those at exactly the positions that do not match, in order. |
| Validation.LabelCheckExact | pkg/utils/utils.go:83-129 | With a faithful listing in any order, the check accepts exactly if there are no labels or every namespace exists and its labels include those asked for. |
| Validation.SelectsIsInclusion | pkg/utils/utils.go:91-97 | A namespace is selected exactly if the labels asked for, keys and values, are among its own. |
| Payload.BuildPayload | internal/controller/jira_client.go:137-173 | For every iteration order, refuses exactly specs that lack a configured field and names one of them; otherwise the payload is the fold over an order of the custom fields and then one of the required fields, and with distinct ids each field is sent in the form of its kind, see PayloadCovers. |
| Payload.AddRequiredFields | internal/controller/jira_client.go:152-173 | The second loop extends what the first has built to such a payload. |
| Payload.PayloadHolds | internal/controller/jira_client.go:104-173 | In every order a required field of a known kind wins over custom fields with its id, and otherwise one of the custom fields with the id decides. |
| Payload.PayloadOrderIndependent | internal/controller/jira_client.go:104-173 | All orders yield the same payload exactly if the required fields of known kinds that share an id supply one value, and so do the custom fields of known kinds that share an id no such required field overrides. |
| Payload.PayloadUnique | internal/controller/jira_client.go:104-173 | With distinct field ids every iteration order yields the same payload. |
| Payload.PayloadCovers | internal/controller/jira_client.go:104-173 | With distinct ids, whatever the order: a user field holds an account, a select field an option, a text or date field plain text, a field of another kind is not sent, and nothing else is; custom fields have the values the request gives, the required ones its start, its end and its role. |
| Payload.PayloadIsSupplied | internal/controller/jira_client.go:104-173 | With distinct ids an id holds a value exactly if some configured field supplies it. |
| Payload.SharedIdsDisagree | internal/controller/jira_client.go:152-173 | A configuration and two orders of the required fields that yield different payloads. |
| Admission.ValidateSpec | internal/webhook/v1/jitrequest_webhook.go:68-150 | Admits only admissible specs, all of them if its calls succeed, and a refusal then names the first check that fails and why. Every namespace of an admitted spec is accepted by the pattern; each of its user fields names a known user, who has another account than the reporter unless self-approval is enabled; it is refused for self-approval only if that is disabled and the two accounts are equal. |
| Admission.ValidateCreate | internal/webhook/v1/jitrequest_webhook.go:152-169 | With reliable calls, admits exactly the admissible specs. |
| Admission.ValidateUpdate | internal/webhook/v1/jitrequest_webhook.go:171-188 | The same for the new object; the old one plays no part. |
| Admission.RefusalsAgree | internal/webhook/v1/jitrequest_webhook.go:111-147 | Two refusals of the same spec come from the same check, whatever the order of the fields. |
| Admission.CheckUsers | internal/webhook/v1/jitrequest_webhook.go:131-147 | In any order of the fields, accepts only if every user field names a known user, with an account that differs from the reporter's unless self-approval is enabled; refuses for self-approval only if that is disabled and the accounts are equal, and, with reliable calls, only for a field that violates this. |
| Admission.FindMissingField | internal/webhook/v1/jitrequest_webhook.go:111-120 | Finds a configured field the request does not give, and none exactly if it gives all. |
| Admission.AdmissionIsStricter | internal/controller/handlers.go:34-67 | With webhooks off, the webhook's demands are the controller's plus the order of the times and the user fields. |
| Admission.AdmissibleByStages | internal/webhook/v1/jitrequest_webhook.go:68-150 | A spec is admissible exactly if it passes each of the webhook's checks in turn. |
| Admission.AdmissibleMeansChecked | internal/webhook/v1/jitrequest_webhook.go:68-150 | What is demanded of a spec, said of its fields and the cluster directly, is the conjunction of what the single checks test. |
| Admission.PreApprovedIffAccepted | internal/controller/handlers.go:34-67 | An undisturbed reconcile of a new request before its start pre-approves it exactly if the controller's checks pass. |
| Admission.AdmittedIsPreApproved | internal/controller/jira_client.go:263-307 | An admitted request handled under the same surroundings before its start ends Pre-Approved, with a wake-up at its start that is late by at most the duration of the reconcile, and an end after its start. |
| ConfigCache.SteadyAssembly | pkg/configuration/client.go:35-130 | If the object does not change between the accessors' fetches, the saved content is the object, or the default when it is absent. |
| ConfigCache.TornAssembly | internal/config/justintimeconfig_controller.go:123-137 | If it changes, the saved content can be a configuration that never existed. |
| ConfigCache.Cache.Reconcile | internal/config/justintimeconfig_controller.go:52-107 | A non-empty pattern is enforced from the moment it is read, whether or not the save succeeds, and otherwise the enforced one stays; the file is replaced, spoiled or left as the fetches and the disk decide. After a success the file is the object, or the default if there is none, if that did not change meanwhile, and file and pattern agree exactly if there is a pattern or none was enforced before; an invalid pattern fails, leaves the file, and refuses no namespace. |
| ConfigCache.Cache.Restart | internal/config/justintimeconfig_controller.go:38-43 | After a restart the file stays, no namespace is refused until the next reconcile, and the two agree exactly if the file asks for nothing that compiles. |
| ConfigCache.Cache.SaveConfigToFile | internal/config/justintimeconfig_controller.go:109-162 | A save does not touch the file if a fetch or opening it fails, leaves it spoiled if writing fails, and otherwise replaces it by the assembled configuration. |
| ConfigCache.Cache.SetPattern | internal/config/justintimeconfig_controller.go:87-96 | The enforced pattern becomes the compilation of the given one, or none if it is invalid. |
| ConfigCache.EmptyPatternKeepsEnforced | internal/config/justintimeconfig_controller.go:87-96 | Saves of configurations without a pattern never lift the enforced one. |
| ConfigLock.ReadsAreAtomic | pkg/utils/utils.go:38-55 | Under any interleaving the lock allows, a read returns whole what the finished saves left, and none finishes while it runs. |
| ConfigLock.ReadIsWholeOrError | internal/config/justintimeconfig_controller.go:119-161 | A read parses to the configuration of the last save that truncated the file if that was completed, and fails to parse otherwise. |
| ClusterApi.Cluster.PutStatus | internal/controller/utils.go:39-42 | One attempt of the write; on success the stored record is the object sent, with a new version. |
| ClusterApi.Cluster.GetRequest | internal/controller/utils.go:24-29 | Returns the record as stored at that moment, not-found only if there is none, or an error. |
| ClusterApi.Cluster.DeleteRequest | internal/controller/utils.go:50-59 | One delete by name; on success the name is not stored. |
| ClusterApi.Cluster.HasStatus | internal/controller/jira_client.go:83-101 | True only if the ticket exists and has the given status at that moment. |
| ClusterApi.Cluster.CreateTicket | internal/controller/jira_client.go:214-226 | A reported key is new, belongs to the request and carries the payload. |
| ClusterApi.Cluster.CheckNamespaceLabels | internal/controller/handlers.go:52-58 | Passes only if webhooks are on, no labels are asked for, or every namespace exists with all of them; refuses with exactly the namespaces that do not, or with none if the listing failed. |
| ClusterApi.Cluster.CheckNamespaceRegex | internal/controller/handlers.go:60-64 | Passes exactly if there is no enforced pattern or it accepts every namespace, and otherwise refuses with the first it does not accept. |
| ClusterApi.Cluster.CreateRoleBinding | internal/controller/utils.go:168-173 | Creates the given binding under the given key unless the key exists or the call fails; nothing else changes if nobody else acts. |
| ClusterApi.Cluster.ListRoleBindings | internal/controller/utils.go:99-104 | Returns exactly the bindings of the namespace, in some order, or fails. |
| ClusterApi.Cluster.DeleteRoleBinding | internal/controller/utils.go:109-112 | One delete of a binding; success, or not-found, means it is gone. |
| ClusterApi.Cluster.Interfere | internal/controller/jitrequest_controller.go:63-104 | Any number of environment steps between two calls; the reconcile stays where it is. |
| Operator.Reconciler.UpdateStatus | internal/controller/utils.go:31-48 | Assigns the status once and repeats the same write while it conflicts, at most five times; on success the stored record is the copy in memory. |
| Operator.Reconciler.DeleteIfOwned | internal/controller/utils.go:106-116 | Deletes the binding if an owner reference has the kind and the name, and does nothing otherwise. |
| Operator.Reconciler.DeleteInNamespace | internal/controller/utils.go:98-117 | If nobody else acts meanwhile, success leaves no so owned binding in the namespace, and nothing else is gone. |
| Operator.Reconciler.DeleteOwnedObjects | internal/controller/utils.go:96-120 | If nobody else acts meanwhile, on success exactly the bindings in the object's namespaces with an owner of kind JitRequest and its name are gone, and on failure nothing else is; an object without namespaces leaves everything as it is. |
| Operator.Reconciler.RequeueAt | internal/controller/handlers.go:75 | The delay reaches exactly the target from a clock reading of its own. |
| Operator.Reconciler.Subjects | internal/controller/utils.go:129-143 | Exactly the reporter, followed by the additional users in order. |
| Operator.Reconciler.CreateRoleBindings | internal/controller/utils.go:127-177 | Creates the binding of each namespace in turn, goes past existing ones, and stops at the first failure. If nobody else acts meanwhile, nothing that was there changes, what is new gives the reporter and the additional users the role in a namespace of the request, owned by it, and on success every namespace has a binding. |
| Operator.Reconciler.BindNamespace | internal/controller/utils.go:145-173 | Makes the call of one namespace; if nobody else acts meanwhile, nothing that was there changes, what is new gives the request's access, and on success the namespace has a binding. |
| Operator.Reconciler.DeleteJitRequest | internal/controller/utils.go:50-59 | On success the name is no longer stored. |
| Operator.Reconciler.RejectInvalidNamespace | internal/controller/utils.go:74-83 | Rejects with the refused namespaces and the ticket. |
| Operator.Reconciler.RejectInvalidRole | internal/controller/utils.go:85-94 | Rejects with the refused role and the ticket. |
| Operator.Reconciler.CreateJiraTicket | internal/controller/jira_client.go:129-227 | Scans the fields, finds the reporter, opens the ticket; a missing field rejects the request and reports Skipped even when the write fails. |
| Operator.Reconciler.CompleteJiraTicket | internal/controller/jira_client.go:42-74 | Comments, then makes the completing transition; goes on only if both succeed. |
| Operator.Reconciler.RejectJiraTicket | internal/controller/jira_client.go:229-261 | Comments with the reason, then makes the rejecting transition; goes on only if both succeed. |
| Operator.Reconciler.GetJiraApproval | internal/controller/jira_client.go:76-102 | Approved only if the ticket could be read in the configured status; a failed read counts as not approved. |
| Operator.Reconciler.PreApproveRequest | internal/controller/jira_client.go:263-323 | Before the start: comment, Pre-Approved, and the delay from a second clock reading; otherwise Rejected. |
| Operator.Reconciler.AwaitStart | internal/controller/jira_client.go:267-307 | Comments, writes Pre-Approved, and on success the delay reaches exactly the start time from the second clock reading. |
| Operator.Reconciler.HandleRejected | internal/controller/handlers.go:17-32 | Rejects the ticket unless skipped, then deletes; success means the request is gone. |
| Operator.Reconciler.HandleNewRequest | internal/controller/handlers.go:34-67 | Ticket, role, labels, pattern and start are dealt with in this order; the first failure rejects. |
| Operator.Reconciler.CheckNamespaces | internal/controller/handlers.go:52-66 | Labels, then the pattern, then pre-approval; a refusal rejects with the refused namespaces. |
| Operator.Reconciler.HandlePreApproved | internal/controller/handlers.go:69-107 | Waits for the start, then approval, bindings, completion, Succeeded and clean-up in this order. |
| Operator.Reconciler.RejectUnapproved | internal/controller/handlers.go:81-88 | Rejects with the recorded ticket; an error only if the write fails. |
| Operator.Reconciler.GrantAccess | internal/controller/handlers.go:90-106 | Bindings, completion of the ticket, Succeeded and clean-up in this order; the first failure ends it. |
| Operator.Reconciler.HandleCleanup | internal/controller/handlers.go:109-123 | Success means the request is gone or the delay reaches exactly its end time. |
| Operator.Reconciler.HandleFetchError | internal/controller/handlers.go:125-136 | A request that was not found ends the reconcile without changing anything in the cluster; any other error is returned. |
| Operator.Reconciler.Reconcile | internal/controller/jitrequest_controller.go:62-104 | One reconcile is a run of the machine from the fetch of the name to its result. |
| Operator.EveryClusterIsSafe | internal/controller/jitrequest_controller.go:54-104 | Whatever the controller code has done to a cluster, every stored request is scheduled in time unless it lapsed, has one ticket moved as its status says unless a reconcile failed, and every binding owned by a request comes from a justified grant, holds what that grant's request says, and belongs to a Rejected one only after a broken-off grant. |

## Left out

- Several workers, stale caches and leader election: one reconcile runs at a time and reads are current.
- The class layer restarts only between reconciles; a restart in the middle of one is a step of the machine.
- Jira's HTTP interface, JSON, events, logging, log text and the wording of comments and messages: they are abstract values or omitted.
- The regular-expression engine and label-selector syntax: a pattern is a predicate on names, a selector a conjunction of equalities.
- Time formatting and time zones: a formatted time is an opaque value of its instant.
- Summary, project, issue type, reporter account and labels of a new ticket, which are copied from the request and the configuration.
- Panics on configurations without required fields or environment: both are always present here.
- The first thirteen accessor calls of a configuration reconcile, which only log; a failed one ends the reconcile before it changes anything.
- Failures of file closing and directory creation: the first is only logged, the second is a save that does not open the file.
- ValidateDelete and the type assertions of the webhook, which accept everything and cannot fail for this type.
- nameMatchPredicate, manager set-up, charts, manifests and the command line: wiring only.
- Operator.Reconciler.DeleteOwnedObjects: its exact result is stated for the case that nobody else acts during its calls; otherwise others may create or remove bindings in between, and only its call sequence is fixed.

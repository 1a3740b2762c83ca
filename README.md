# diob.app domain layer in Dafny

This project models the domain layer of diob.app, a marketplace where clients hire service
providers. It covers three parts.

- **Request lifecycles.** Three generations of requests keep an append-only log of status
  entries. Each entry records a status, the acting user, an instant and an optional reason.
  - `ServiceRequest` is the newest (module `ServiceRequests`).
  - `Request`/`ScheduledRequest` is the middle one (module `Requests`). Its guard decorators
    are in module `RequestGuards`.
  - `JobRequest` is the oldest (module `JobRequests`).
  Most transitions check the current stage or the history, and most check who is acting.
  A transition then appends exactly one entry, or it fails with the error message the source
  throws and leaves the log unchanged. The exceptions:
  - The middle generation's `schedule` checks only that the client acts, and its `begin` only
    that the provider acts and that the scheduled instant has not passed. Neither looks at the
    stage or the history.
  - `JobRequest.initiate` checks nothing and always appends.
  - No other `JobRequest` transition checks the actor, and neither do the middle generation's
    `cancel` and `finish`. Each records whichever user is passed.
- **Catalogs.** These are `Work`, `ProviderWork`/`Provider`, and the earlier
  `ProviderJob`/`Provider` (modules `WorkCatalog`, `ProviderCatalog`, `LegacyCatalog`). Each is a
  list keyed by id that must be non-empty when it is built. Add rejects a duplicate id. Remove
  rejects an unknown id and deletes the first match. A provider work's total cost is the larger
  of its jobs' summed cost and its minimum cost.
- **Users and value objects.** The user rating accumulator takes ratings in [1, 5], and the
  rating is their mean (module `Users`). Value objects are validated when they are built and
  when their value changes (module `ValueObjects`). The phone-contact and CEP formats are
  modules `UserValues` and `ClientAddresses`.

Module layout:
- `Outcomes` holds the `Option`/`Outcome`/`Result` types. A thrown error becomes a `Fail` or an
  `Err` carrying one variant per message.
- `LogTrail` holds the shared log entry and the history queries (`.some(...)` over the log).
- `Collections` holds the `findIndex`/`push`/`splice` idioms the catalogs share.

Every guard is modelled as the source writes it, including where it contradicts its own
message and the accompanying tests:
- In `ServiceRequest`, `reschedule`, `cancel`, `confirm` and `refuse` throw exactly when the
  current stage IS scheduled or rescheduled.
  - The test at src/domain/service-request/entity/service-request.spec.ts:62-75 expects a
    reschedule after schedule to succeed.
  - The test at src/domain/service-request/entity/service-request.spec.ts:99-111 expects a
    cancel after schedule to succeed.
  - The tests at src/domain/service-request/entity/service-request.spec.ts:113-145 expect a
    cancel, and a confirm, after schedule and reschedule to succeed. As written, their
    reschedule after schedule already fails.
  - `ServiceRequests.ConfirmAfterScheduleFails` shows that, as written, these steps fail.
- `start` throws only when the scheduled instant is already past the clock.
  - The test at src/domain/service-request/entity/service-request.spec.ts:218-236 expects start
    to fail one second before the scheduled instant.
  - `ServiceRequests.StartAllowedBeforeScheduledTime` shows that it passes.
  - That test also replaces the `when` getter, which `start` never reads.
- `finish` and `rate` throw as soon as any STARTED entry exists, so their "only once" branches
  can never fire, and after `start` the request can never be finished.
- `RequestGuards.ServiceChecksAsGuards` states these inversions as relations between the
  inline checks and the decorator guards. The source's conditions are followed throughout; no
  check is corrected.

Instants are integers, in milliseconds. Every read of the wall clock is a `now` parameter.
The user's age in whole years, which the source computes with a date library, is an `age`
parameter. Ratings, costs and the street number of an address are `real`.

## Model

| member | source | states |
|---|---|---|
| Users.Mean | src/domain/user/entity/user.ts:45-50 | the rating is undefined (`None`) exactly for an empty list; otherwise it times the count equals the sum of the ratings |
| Users.SumAppend | src/domain/user/entity/user.ts:45-50 | pushing one rating adds exactly that rating to the sum |
| Users.SumBounds | src/domain/user/entity/user.ts:45-50 | ratings that are all in [1, 5] sum to between n and 5n |
| Users.MeanInRange | src/domain/user/entity/user.ts:45-50 | a non-empty list of accepted ratings has a mean, and that mean is in [1, 5] |
| Users.MeanExample | src/domain/client/entity/client.spec.ts:50-59 | the ratings 5, 1, 3 give a rating of 3 |
| Users.RateCheck | src/domain/user/entity/user.ts:72-75 | a rating passes iff 1 <= rating <= 5 (both ends accepted); otherwise the error is the rating-range error |
| Users.ValidateAge | src/domain/user/entity/user.ts:64-70 | validation fails iff the age is under 18, with the underage error |
| Users.User.constructor | src/domain/user/entity/user.ts:10-19 | stores every field as given and starts with no ratings |
| Users.User.ChangeName | src/domain/user/entity/user.ts:52-54 | replaces the name and touches no other field |
| Users.User.ChangeEmail | src/domain/user/entity/user.ts:56-58 | replaces the e-mail and touches no other field |
| Users.User.ChangeContact | src/domain/user/entity/user.ts:60-62 | replaces the contact and touches no other field |
| Users.User.Rate | src/domain/user/entity/user.ts:72-78 | the outcome is the range check; on success the target's ratings gain exactly this rating at the end; on failure they are unchanged; the evaluator's own ratings are unchanged when it is not the target; every stored rating stays in [1, 5] |
| ValueObjects.ValueObject.constructor | src/domain/@shared/value-object.ts:4-7 | stores the value and the validator it is checked with |
| ValueObjects.ValueObject.ChangeValue | src/domain/@shared/value-object.ts:13-15 | the outcome is the validator's verdict on the new value; the value is replaced iff it passes, and otherwise the old value is kept |
| ValueObjects.New | src/domain/@shared/value-object.ts:4-7 | construction succeeds iff the validator accepts the value; a rejection carries the validator's own error; success yields a fresh object holding exactly that value |
| UserValues.ContactOfAccepted | src/domain/@shared/value-object/user.ts:24-36 | every "(" + 2 digits + ") " + 4 or 5 digits + "-" + 4 digits is accepted |
| UserValues.AcceptedIsContactOf | src/domain/@shared/value-object/user.ts:24-36 | every accepted contact is exactly such a string, split at its fixed positions |
| UserValues.ContactRejections | src/domain/@shared/value-object/user.spec.ts:37-51 | the six malformed numbers of the tests are rejected |
| UserValues.ContactAcceptances | src/domain/@shared/value-object/user.spec.ts:53-60 | "(47) 98877-6655" and "(47) 8877-6655" are accepted |
| UserValues.ContactCheck | src/domain/@shared/value-object/user.ts:24-36 | passes iff the string matches the contact pattern; otherwise the contact-format error |
| UserValues.DocumentCheck | src/domain/@shared/value-object/user.ts:6-13 | passes iff the CPF validator accepts the string; otherwise the CPF error |
| UserValues.EmailCheck | src/domain/@shared/value-object/user.ts:15-22 | passes iff the e-mail validator accepts the string; otherwise the e-mail error |
| UserValues.NewUserContact | src/domain/@shared/value-object/user.ts:24-36 | building a contact succeeds iff it matches the pattern, and keeps the string unchanged |
| UserValues.NewUserDocument | src/domain/@shared/value-object/user.ts:6-13 | building a document succeeds iff the CPF validator accepts it; otherwise the CPF error |
| UserValues.NewUserEmail | src/domain/@shared/value-object/user.ts:15-22 | building an e-mail succeeds iff the validator accepts it; otherwise the e-mail error |
| ClientAddresses.CepShape | src/domain/value-object/client.ts:18-28 | a string head + "-" + tail is a valid CEP iff head is 5 digits and tail is 3 digits |
| ClientAddresses.CepExamples | src/domain/value-object/client.spec.ts:4-11 | "12345678", "12345-67x" and "abcde-fgh" are rejected and "12345-678" is accepted |
| ClientAddresses.AddressCheck | src/domain/value-object/client.ts:18-28 | an address passes iff its CEP matches the pattern; otherwise the CEP error |
| ClientAddresses.OnlyCepIsChecked | src/domain/value-object/client.ts:18-28 | the number and the complement never change the verdict |
| ClientAddresses.NewClientAddress | src/domain/value-object/client.ts:10-16 | building an address succeeds iff the CEP is valid, and then stores cep, number and complement exactly as given |
| Collections.IndexOf | src/domain/work/work.ts:27-28 | `findIndex` by id: -1 iff no item has the id; otherwise the first index whose item has it |
| Collections.RemoveAt | src/domain/work/work.ts:42 | `splice(i, 1)` drops exactly the item at i and keeps the rest in order (same multiset minus that item) |
| Collections.AppendKeepsDistinct | src/domain/work/work.ts:27-34 | pushing an item whose id is absent keeps all ids distinct |
| Collections.RemoveKeepsDistinct | src/domain/work/work.ts:36-43 | deleting an item keeps ids distinct, and with distinct ids its id is then gone |
| WorkCatalog.Work.constructor | src/domain/work/work.ts:1-8 | stores id, name and jobs as given |
| WorkCatalog.Work.Validate | src/domain/work/work.ts:22-25 | passes iff the work has at least one job; otherwise the no-jobs error |
| WorkCatalog.Work.AddJob | src/domain/work/work.ts:27-34 | fails with the duplicate error iff a job with that id exists, whatever its name, leaving the list unchanged; otherwise the job is appended at the end; distinct ids stay distinct |
| WorkCatalog.Work.RemoveJob | src/domain/work/work.ts:36-43 | fails with the unknown-job error iff no job has that id, leaving the list unchanged; otherwise the first job with that id is deleted and the rest keep their order; distinct ids stay distinct and the id is gone |
| WorkCatalog.NewWork | src/domain/work/work.ts:1-8 | building a work succeeds iff the job list is non-empty, and then stores the fields as given |
| WorkCatalog.RemovingTheOnlyJob | src/domain/work/work.ts:36-43 | removal does not re-validate: a work built with one job can lose it, and its validation then fails |
| ProviderCatalog.TotalCostOf | src/domain/provider/entity/provider.ts:87-93 | the total cost is the larger of the minimum cost and the jobs' summed cost: at least each, and equal to one of them |
| ProviderCatalog.JobsTotalConcat | src/domain/provider/entity/provider.ts:88-91 | the jobs' sum over a concatenation is the sum of the two parts |
| ProviderCatalog.JobsTotalAppend | src/domain/provider/entity/provider.ts:100-107 | appending a job raises the jobs' sum by exactly its cost |
| ProviderCatalog.JobsTotalRemove | src/domain/provider/entity/provider.ts:109-118 | deleting a job lowers the jobs' sum by exactly its cost |
| ProviderCatalog.TotalCostExample | src/domain/provider/entity/provider.ts:87-93 | an instance of the total-cost formula: with minimum 100, one job of 40 costs 100, and jobs of 40 and 80 cost 120 |
| ProviderCatalog.ProviderWork.constructor | src/domain/provider/entity/provider.ts:62-69 | stores id, name, jobs and minimum cost as given |
| ProviderCatalog.ProviderWork.TotalCost | src/domain/provider/entity/provider.ts:87-93 | the work's total cost is at least its minimum cost and at least its jobs' summed cost, and equals one of the two; it is the quantity the `AddJob`/`RemoveJob` cost contracts move |
| ProviderCatalog.ProviderWork.Validate | src/domain/provider/entity/provider.ts:95-98 | passes iff the work has at least one job; otherwise the no-jobs error |
| ProviderCatalog.ProviderWork.AddJob | src/domain/provider/entity/provider.ts:100-107 | duplicate id fails and leaves the list unchanged; otherwise the job is appended; the jobs' sum grows by its cost; distinct ids stay distinct |
| ProviderCatalog.ProviderWork.RemoveJob | src/domain/provider/entity/provider.ts:109-118 | unknown id fails and leaves the list unchanged; otherwise the first match is deleted, order kept; the jobs' sum drops by its cost; distinct ids stay distinct and the id is gone |
| ProviderCatalog.Provider.constructor | src/domain/provider/entity/provider.ts:15-27 | stores the user and the works as given |
| ProviderCatalog.Provider.Validate | src/domain/provider/entity/provider.ts:33-38 | passes iff the age is at least 18 and there is a work; the underage error wins over the no-works error |
| ProviderCatalog.Provider.AddWork | src/domain/provider/entity/provider.ts:40-47 | a work whose id is present fails, even when it is another object; otherwise it is appended; distinct ids stay distinct |
| ProviderCatalog.Provider.RemoveWork | src/domain/provider/entity/provider.ts:49-58 | unknown id fails and leaves the list unchanged; otherwise the first match is deleted, order kept; distinct ids stay distinct and the id is gone |
| ProviderCatalog.NewProviderWork | src/domain/provider/entity/provider.ts:62-69 | building a provider work succeeds iff it has a job, and stores the fields as given |
| ProviderCatalog.NewProvider | src/domain/provider/entity/provider.ts:15-27 | building a provider succeeds iff the age is at least 18 and there is a work, with the same error order as `validate` |
| LegacyCatalog.ProviderJob.constructor | src/domain/entity/provider.ts:54-61 | stores id, name, services and minimum cost as given |
| LegacyCatalog.ProviderJob.Validate | src/domain/entity/provider.ts:79-82 | passes iff the job has at least one service; otherwise the no-services error |
| LegacyCatalog.ProviderJob.AddService | src/domain/entity/provider.ts:84-93 | duplicate id fails and leaves the list unchanged; otherwise the service is appended; distinct ids stay distinct |
| LegacyCatalog.ProviderJob.RemoveService | src/domain/entity/provider.ts:95-106 | unknown id fails and leaves the list unchanged; otherwise the first match is deleted, order kept, possibly emptying the list; distinct ids stay distinct and the id is gone |
| LegacyCatalog.Provider.constructor | src/domain/entity/provider.ts:7-19 | stores the user and the jobs as given |
| LegacyCatalog.Provider.Validate | src/domain/entity/provider.ts:25-30 | passes iff the age is at least 18 and there is a job; the underage error wins |
| LegacyCatalog.Provider.AddJob | src/domain/entity/provider.ts:32-39 | duplicate id fails and leaves the list unchanged; otherwise the job is appended; distinct ids stay distinct |
| LegacyCatalog.Provider.RemoveJob | src/domain/entity/provider.ts:41-50 | unknown id fails and leaves the list unchanged; otherwise the first match is deleted, order kept; distinct ids stay distinct and the id is gone |
| LegacyCatalog.NewProviderJob | src/domain/entity/provider.ts:54-61 | building a provider job succeeds iff it has a service |
| LegacyCatalog.NewProvider | src/domain/entity/provider.ts:7-19 | building a provider succeeds iff the age is at least 18 and there is a job |
| LogTrail.HistoryAppend | src/domain/service-request/entity/service-request.ts:63-70 | after one push, a status (by a user, or by a user id) is in the history iff it was before or the new entry has it |
| LogTrail.HistoryGrows | src/domain/service-request/entity/service-request.ts:160-163 | a status found in the history is still found once the history has grown |
| ServiceRequests.ScheduleCheck | src/domain/service-request/entity/service-request.ts:72-80 | passes iff the caller is the client and the stage is CREATED; a non-client always gets the client error first |
| ServiceRequests.RescheduleCheck | src/domain/service-request/entity/service-request.ts:82-96 | passes iff the caller is the client and the stage is NOT scheduled or rescheduled; the role error comes first |
| ServiceRequests.CancelCheck | src/domain/service-request/entity/service-request.ts:98-112 | passes iff the caller is the client and the stage is NOT scheduled or rescheduled; the role error comes first |
| ServiceRequests.ConfirmCheck | src/domain/service-request/entity/service-request.ts:114-128 | passes iff the caller is the provider and the stage is NOT scheduled or rescheduled; the role error comes first |
| ServiceRequests.RefuseCheck | src/domain/service-request/entity/service-request.ts:130-144 | passes iff the caller is the provider and the stage is NOT scheduled or rescheduled; the role error comes first |
| ServiceRequests.StartCheck | src/domain/service-request/entity/service-request.ts:146-158 | passes iff the caller is the provider, the stage is CONFIRMED and the clock is not past the scheduled instant; errors in the order role, stage, time |
| ServiceRequests.FinishCheck | src/domain/service-request/entity/service-request.ts:160-172 | passes iff no STARTED entry exists; every failure is the "after STARTED" error, so "only once" never fires |
| ServiceRequests.RateCheck | src/domain/service-request/entity/service-request.ts:174-188 | passes iff no STARTED entry exists and the rating is in [1, 5]; the history error precedes the range error |
| ServiceRequests.AppendKeepsWellFormed | src/domain/service-request/entity/service-request.ts:63-70 | appending an entry that fits its role, onto a well-formed log, keeps the log well-formed |
| ServiceRequests.StartedBlocksFinishAndRate | src/domain/service-request/entity/service-request.ts:160-188 | once STARTED is logged, every later finish and rate fails, whoever calls |
| ServiceRequests.ConfirmAfterScheduleFails | src/domain/service-request/entity/service-request.ts:82-128 | after create and schedule, confirm, reschedule and cancel by the right role all fail with their stage errors |
| ServiceRequests.StartAllowedBeforeScheduledTime | src/domain/service-request/entity/service-request.ts:146-158 | a confirmed request can be started by the provider one second before its scheduled instant |
| ServiceRequests.ServiceRequest.constructor | src/domain/service-request/entity/service-request.ts:26-33 | the log is exactly one CREATED entry by the client, and the invariant holds |
| ServiceRequests.ServiceRequest.CurrentLog | src/domain/service-request/entity/service-request.ts:51-53 | the current entry is the last element of the log, and it carries the user of its role and a reason only when it is a cancellation |
| ServiceRequests.ServiceRequest.SaveLog | src/domain/service-request/entity/service-request.ts:63-70 | appends exactly one entry and keeps the invariant |
| ServiceRequests.ServiceRequest.Schedule | src/domain/service-request/entity/service-request.ts:72-80 | the outcome is the schedule check; on success SCHEDULED by the caller is appended, on failure the log is unchanged; the invariant holds |
| ServiceRequests.ServiceRequest.Reschedule | src/domain/service-request/entity/service-request.ts:82-96 | the outcome is the reschedule check; on success RESCHEDULED is appended, otherwise the log is unchanged |
| ServiceRequests.ServiceRequest.Cancel | src/domain/service-request/entity/service-request.ts:98-112 | the outcome is the cancel check; on success CANCELLED carrying the reason is appended, otherwise the log is unchanged |
| ServiceRequests.ServiceRequest.Confirm | src/domain/service-request/entity/service-request.ts:114-128 | the outcome is the confirm check; on success CONFIRMED is appended, otherwise the log is unchanged |
| ServiceRequests.ServiceRequest.Refuse | src/domain/service-request/entity/service-request.ts:130-144 | the outcome is the refuse check; on success REFUSED is appended, otherwise the log is unchanged |
| ServiceRequests.ServiceRequest.Start | src/domain/service-request/entity/service-request.ts:146-158 | the outcome is the start check at `now`; on success STARTED is appended, otherwise the log is unchanged |
| ServiceRequests.ServiceRequest.Finish | src/domain/service-request/entity/service-request.ts:160-172 | the outcome is the finish check; on success FINISHED is appended, otherwise the log is unchanged |
| ServiceRequests.ServiceRequest.Rate | src/domain/service-request/entity/service-request.ts:174-188 | the outcome is the rate check; on success the evaluated user's ratings gain the rating and RATED by the evaluator is appended; on failure neither changes |
| Requests.CancelCheck | src/domain/request/entity/request.ts:70-81 | passes iff no FINISHED entry exists, whoever calls |
| Requests.BeginCheck | src/domain/request/entity/request.ts:83-90 | a non-provider fails before the extra validation runs; the provider gets the validation's outcome |
| Requests.ScheduledTimeCheck | src/domain/request/entity/scheduled-request.ts:45-53 | the extra begin validation passes iff the clock is not past the scheduled instant |
| Requests.FinishCheck | src/domain/request/entity/request.ts:92-103 | passes iff some BEGAN entry exists, for any user and any number of times |
| Requests.RateCheck | src/domain/request/entity/request.ts:105-131 | the client and the provider pass iff they have a FINISHED entry of their own, with the client's error tested first; any other evaluator passes |
| Requests.ScheduleCheck | src/domain/request/entity/scheduled-request.ts:27-32 | passes iff the caller is the client; no stage is checked |
| Requests.RescheduleCheck | src/domain/request/entity/scheduled-request.ts:34-43 | passes iff the stage is exactly SCHEDULED and the caller is the client; the stage error comes first |
| Requests.AppendKeepsWellFormed | src/domain/request/entity/request.ts:62-68 | appending an entry the guards allow keeps the ordering invariant: FINISHED after BEGAN, no CANCELLED after FINISHED, RATED by client or provider after its own FINISHED |
| Requests.FinishedBlocksCancel | src/domain/request/entity/request.ts:70-81 | once FINISHED is logged, cancel fails for good |
| Requests.BeganEnablesFinish | src/domain/request/entity/request.ts:92-103 | once BEGAN is logged, finish passes for good |
| Requests.FinishedImpliesBegan | src/domain/request/entity/request.ts:92-103 | every reachable log with a FINISHED entry has a BEGAN entry |
| Requests.CancelledNeverAfterFinished | src/domain/request/entity/request.ts:70-81 | in every reachable log no CANCELLED entry follows a FINISHED entry |
| Requests.RescheduleNotRepeatable | src/domain/request/entity/scheduled-request.ts:34-43 | right after a reschedule, another reschedule fails with the not-scheduled error |
| Requests.ScheduledRequest.constructor | src/domain/request/entity/scheduled-request.ts:13-21 | the log is exactly one CREATED entry by the client, and `when` and the work are stored |
| Requests.ScheduledRequest.CurrentLog | src/domain/request/entity/request.ts:50-52 | the current entry is the last element of the log; a BEGAN entry is the provider's, a scheduling entry the client's, and no entry has a reason |
| Requests.ScheduledRequest.TotalCost | src/domain/request/entity/request.ts:54-56 | equals the bound work's total cost, hence at least its minimum cost and its jobs' summed cost |
| Requests.ScheduledRequest.SaveLog | src/domain/request/entity/request.ts:62-68 | appends exactly one entry and keeps the invariant |
| Requests.ScheduledRequest.Cancel | src/domain/request/entity/request.ts:70-81 | the outcome is the cancel check; on success CANCELLED by the caller is appended, otherwise the log is unchanged |
| Requests.ScheduledRequest.BeginWith | src/domain/request/entity/request.ts:83-90 | the outcome is the begin check; BEGAN is appended only when the role and the extra validation pass |
| Requests.ScheduledRequest.Begin | src/domain/request/entity/scheduled-request.ts:45-53 | passes iff the caller is the provider and the clock is not past `when`; role error first; on success BEGAN is appended |
| Requests.ScheduledRequest.Finish | src/domain/request/entity/request.ts:92-103 | the outcome is the finish check; on success FINISHED by the caller is appended |
| Requests.ScheduledRequest.Rate | src/domain/request/entity/request.ts:105-131 | the outcome is the rate check; on success RATED by the evaluator is appended |
| Requests.ScheduledRequest.Schedule | src/domain/request/entity/scheduled-request.ts:27-32 | the outcome is the schedule check; on success SCHEDULED attributed to the client is appended |
| Requests.ScheduledRequest.Reschedule | src/domain/request/entity/scheduled-request.ts:34-43 | the outcome is the reschedule check; on success RESCHEDULED is appended |
| RequestGuards.Holds | src/domain/request/entity/request.decorators.ts:14-206 | each guard's pass condition: `requireStage` the current status equals it; `requireStages` the current status is in the list; `requireStatus` some entry has it; `requireStatusByUser` some entry has it by `args[0]`; `requireStatusByUserAndProvider` `args[0]` is not the provider or has such an entry; `statusExists`/`statusExistsByUser` no such entry; `onlyProvider`/`onlyClient` `args[0]` is that role |
| RequestGuards.Decorate | src/domain/request/entity/request.decorators.ts:13-18 | a call succeeds iff every guard holds, and then returns the original's result on the same arguments; otherwise it fails with the message of the first failing guard, every earlier one having held |
| RequestGuards.Descriptor.constructor | src/domain/request/entity/request.decorators.ts:11 | an undecorated method: the original with no wrapper |
| RequestGuards.Descriptor.Value | src/domain/request/entity/request.decorators.ts:13-18 | the wrapped `descriptor.value` succeeds iff every applied guard holds, and then returns the original's result on the same arguments |
| RequestGuards.Descriptor.Apply | src/domain/request/entity/request.decorators.ts:13-20 | decorating puts the guard outermost: the new value throws the guard's message when it fails, and otherwise behaves as the previous value |
| RequestGuards.RequireStatusComplement | src/domain/request/entity/request.decorators.ts:55-59 | `requireStatus` holds iff `statusExists` fails for the same status |
| RequestGuards.RequireStatusByUserComplement | src/domain/request/entity/request.decorators.ts:80-86 | `requireStatusByUser` holds iff `statusExistsByUser` fails for the same status and user |
| RequestGuards.ByUserAndProviderOnlyConstrainsProvider | src/domain/request/entity/request.decorators.ts:107-114 | every non-provider passes; for the provider it agrees with `requireStatusByUser` |
| RequestGuards.SingleStage | src/domain/request/entity/request.decorators.ts:36 | `requireStages` with a single stage is `requireStage` |
| RequestGuards.TwoGuards | src/domain/request/entity/request.decorators.ts:13-18 | two stacked guards pass iff both hold, and the outer one's message wins when both fail |
| RequestGuards.RequestChecksAsGuards | src/domain/request/entity/request.ts:70-103 | cancel is `statusExists(FINISHED)`, finish is `requireStatus(BEGAN)`, and begin's role check is `onlyProvider` |
| RequestGuards.RateAsGuards | src/domain/request/entity/request.ts:105-131 | rate is `requireStatusByUserAndProvider(FINISHED)` plus `requireStatusByUser(FINISHED)` for the client |
| RequestGuards.RescheduleAsGuards | src/domain/request/entity/scheduled-request.ts:34-43 | reschedule is `requireStage(SCHEDULED)` outside `onlyClient`, with the same outcomes and the same error order |
| RequestGuards.ServiceChecksAsGuards | src/domain/service-request/entity/service-request.ts:72-172 | schedule is `onlyClient` with `requireStage(CREATED)`; finish is `statusExists(STARTED)`; for the client, reschedule passes iff `requireStages([SCHEDULED, RESCHEDULED])` fails |
| JobRequests.PendingCheck | src/domain/entity/request.ts:64-101 | accept, reject and cancel pass iff the last entry is PENDING, each with its own error |
| JobRequests.DoneCheck | src/domain/entity/request.ts:103-123 | done fails iff the last entry is DONE and this user, matched by id, already has a DONE entry |
| JobRequests.JobRequest.constructor | src/domain/entity/request.ts:20-27 | the log is the supplied history followed by one PENDING entry by the client |
| JobRequests.JobRequest.LastLog | src/domain/entity/request.ts:45-47 | the log is everything before the returned entry followed by it: it is the final element |
| JobRequests.JobRequest.Initiate | src/domain/entity/request.ts:56-62 | appends PENDING by the client, whatever the current stage |
| JobRequests.JobRequest.Accept | src/domain/entity/request.ts:64-75 | the outcome is the pending check; on success ACCEPTED by the passed actor is appended, with no role check |
| JobRequests.JobRequest.Reject | src/domain/entity/request.ts:77-88 | the outcome is the pending check; on success REJECTED by the passed actor is appended |
| JobRequests.JobRequest.Cancel | src/domain/entity/request.ts:90-101 | the outcome is the pending check; on success CANCELLED by the passed actor is appended |
| JobRequests.JobRequest.MarkDone | src/domain/entity/request.ts:103-123 | the outcome is the done check; on success DONE by the passed actor is appended |
| JobRequests.PendingTransitionNotRepeatable | src/domain/entity/request.ts:64-101 | after a successful accept, reject or cancel, each of them fails |
| JobRequests.DonePasses | src/domain/entity/request.ts:103-123 | done passes whenever the last entry is not DONE, or the user has no DONE entry of their own |
| JobRequests.DoneNotRepeatable | src/domain/entity/request.ts:103-123 | a user who has just marked the request done fails to do it again |
| JobRequests.DoneSequence | src/domain/entity/request.spec.ts:71-97 | accept, client done and provider done pass, and a second provider done fails |

## Left out

- Everything under src/infra/ and src/lib/ (Prisma repositories, DTOs, models): database I/O with no domain logic.
- The factories (provider.factory.ts, client.factory.ts, service-request.factory.ts): translation of database records into entities.
- The CPF and e-mail validators of the `cpf-cnpj-validator` and `email-validator` libraries: foreign code, passed in as predicates.
- The date-library age computation and `new Date()`: replaced by the `age` and `now` parameters; log instants are opaque integers.
- src/domain/entity/user.ts, src/domain/entity/client.ts and src/domain/client/entity/client.ts: field holders whose only check is the age computation modelled in `Users.ValidateAge`.
- `JobRequest.totalCost`: it sums a `totalCost` field that the earlier `ProviderJob` does not define.
- Client and Provider are represented by their `User` part in the requests. A provider's own `validate` takes the user's `age` as a parameter instead of calling the inherited `validate`.
- Aliasing: the arrays passed to constructors are copied into `seq` values. A caller that later mutates its own array, or the array a getter returns, is not modelled.
- JavaScript numbers are modelled as exact reals. Floating-point rounding, NaN and infinities are not modelled, and the empty mean is `None` rather than NaN.
- Users.User.Rating: carries no contract of its own; its properties are those of `Users.Mean`.
- Requests.ScheduledRequest.BeginWith: the extra validation is a precomputed outcome rather than a closure. The source's closure only reads the clock and `when`, so running it after the role check or before it gives the same result.
- ServiceRequests.ServiceRequest.Start: the guard's and the log entry's reads of the clock are one instant `now`.
- Requests.ScheduledRequest.Begin: the validation closure's and the log entry's reads of the clock are one instant `now`.
- RequestGuards.Decorate: the original method is a pure function of the acting user and the remaining arguments. Its effects on the request are not modelled, and neither is the error a guard raises when the log is empty.
- The `Request` base class and its one subclass `ScheduledRequest` are modelled as one class.
- Behaviour that only the tests mention and the source does not implement is not modelled. This covers `updateWork`, `updateJob`, the provider's request methods, and the cancel reason and extra cancel errors of the middle request generation.
- `*.spec.fixture.ts` and the interfaces under src/domain/@shared: type shapes and fake data only.

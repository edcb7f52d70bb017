# Analysis job controller, modelled in Dafny

This project models the analysis-job controller of the Squid API JavaScript
client (`src/squid_api_analysisjob_controller.js`). The controller submits an
analysis job to the compute service. It then polls for the job's results, and
while the service answers "still computing" it asks again. At the end it writes
status, results and error back into the job's Backbone model. A batch
(`MultiAnalysisJob`) computes each of its children and folds their errors into
its own once jQuery's `$.when` settles the combined promise.

The files:

- `wrappers.dfy`: `Option`, which stands for JavaScript's null or undefined.
- `jobs.dfy`: the `AnalysisJob` and `MultiAnalysisJob` models as classes. Their
  setters build their reference lists in loops, as the source does. `JobState`
  is a snapshot of a job's attributes.
- `orchestration.dfy`: the controller's logic as functions on snapshots, plus
  the lemmas about them. `ChooseSelection` and `RequestFor` are the submission;
  `Submitted` and `Poll` are the network callbacks; `SingleRun` is one job;
  `FirstRejected`, `SettlePoint`, `LastError` and `BatchAfter` are a batch.
- `controller.dfy`: the controller's methods. They update the job objects in
  place, and each is proved against those functions.
  `ComputeSingleAnalysis` and the batch's per-child steps do not call
  `CreateAnalysisJob`. They run its two halves, `StartSubmission` and then the
  `save` callbacks inside `CompleteSingleAnalysis`, separately, because a batch
  launches every child before any answer arrives.

The network is not called. Each submitted job instead receives a `Replies`
value: the outcome of its `save`, or none if it is never answered, and then the
outcomes of its result fetches in order. Once these run out, the job is still
polling. Within a batch, the children are launched in order. Their answers are
then processed in child order. The combined promise settles at the first
rejected child; the children after it are still as launched at that moment. If
no child rejects, it settles once every child has resolved.

Behaviour of the code that the model reproduces, and that a reader might
expect to be different:

- **Selection.** An explicit `filters` argument decides the selection, even
  over the job's own selection (lines 243-252).
- **Retries.** Only the exact `apiError` "COMPUTING_IN_PROGRESS" asks again.
  Any other `apiError` is handled as a successful answer (lines 217-225).
- **Fetch errors.** A failed results fetch sets only `error` and `status`
  (lines 211-214), so the job keeps any results it already had.
- **Synchronous DONE.** A returned error always rejects in the `save`
  callback (lines 162-167). The DONE branch of `computeSingleAnalysis`
  (lines 256-260) therefore only resolves.
- **Early settlement.** `$.when` settles the batch at the first rejected child,
  not after all children (lines 290-305). The error fold and the DONE status
  then see the later children as they are at that moment, still RUNNING.
- **Empty batches.** An `analyses` array is truthy even when it is empty, so
  an empty batch takes the batch path (line 191). There its combined promise
  resolves at once and the batch becomes DONE.
- **No result value.** `compute` returns nothing (lines 190-198). In the model
  its methods return the submission requests they sent, which the source sends
  to the network instead.

## Model

| member | source | states |
|---|---|---|
| Jobs.AnalysisJob.constructor | src/squid_api_analysisjob_controller.js:36-44 | `new AnalysisJob()` with no constructor attributes. The new job is in the process-wide project with no job id. It has exactly the process-wide domain when that id is truthy, else an empty domain list. Dimensions and metrics are empty lists, and every other attribute is unset. |
| Jobs.AnalysisJob.SetProjectId | src/squid_api_analysisjob_controller.js:46-52 | Only `id` changes, to the given project with a null job id. |
| Jobs.AnalysisJob.SetDomainIds | src/squid_api_analysisjob_controller.js:54-64 | The new domains have the input's length and order. Entry k is input k stamped with `id.projectId`. Nothing else changes. |
| Jobs.AnalysisJob.SetDimensionIds | src/squid_api_analysisjob_controller.js:66-78 | The new dimensions have the input's length and order. Entry k carries input k, `id.projectId` and the first domain's id. Exactly one explicit `change:dimensions` trigger carries the new list, and nothing else changes. |
| Jobs.AnalysisJob.SetDimensionId | src/squid_api_analysisjob_controller.js:80-91 | Only the slot at `index` (slot 0 when the index is falsy) is written, with the project id, the first domain's id and the new dimension id. Every other slot keeps its entry. Writing the slot just past the end appends. One `change:dimensions` event is triggered. |
| Jobs.AnalysisJob.SetMetricIds | src/squid_api_analysisjob_controller.js:93-104 | The new metrics have the input's length and order. Entry k carries input k, `id.projectId` and the first domain's id. No event is triggered. |
| Jobs.AnalysisJob.IsDone | src/squid_api_analysisjob_controller.js:111-113 | It holds exactly when `status` is "DONE". |
| Jobs.AnalysisJob.SetSelection | src/squid_api_analysisjob_controller.js:106-109 | Only `selection` changes. |
| Jobs.MultiAnalysisJob.constructor | src/squid_api_analysisjob_controller.js:116-120 | A batch holds its children and has no status and no error yet. |
| Jobs.MultiAnalysisJob.IsDone | src/squid_api_analysisjob_controller.js:117-119 | It holds exactly when the batch's `status` is "DONE". |
| Orchestration.ChooseSelection | src/squid_api_analysisjob_controller.js:243-252 | Explicit filters decide the selection even when the job has its own, and even when theirs is absent. Without filters the job's own selection is used when present, else the default filters' selection. |
| Orchestration.RequestFor | src/squid_api_analysisjob_controller.js:139-153 | The request has a null job id. Its project is `id.projectId` when that is truthy, else the `projectId` attribute. Domains, dimensions, metrics and autoRun pass through, with the chosen selection. |
| Orchestration.PollSkipsInProgress | src/squid_api_analysisjob_controller.js:216-219 | Any number of "still computing" answers before the rest of the script leave the final job and the settlement as if they were absent. Each costs one fetch. |
| Orchestration.RetryIsTransparent | src/squid_api_analysisjob_controller.js:210-227 | k retries followed by a terminal answer end exactly as that answer's callback alone, after k + 1 fetches. |
| Orchestration.PollSettlesAtFirstAnswer | src/squid_api_analysisjob_controller.js:210-227 | A settled poll is decided by the first answer that is not "still computing". A fetch error leaves `{message: statusText}` with that status text and DONE, with the results untouched. Any other answer leaves no error, that answer's payload as results, and DONE. Both take one fetch per answer up to that one. |
| Orchestration.PollPendingIff | src/squid_api_analysisjob_controller.js:210-227 | The poll is still open exactly when every answer so far said "still computing". The job is then untouched, and every answer was one fetch. |
| Orchestration.PollWrites | src/squid_api_analysisjob_controller.js:211-226 | A poll writes only `error`, `results` and `status`. When it resolves, the error is null and results are set. When it rejects, the error is a `{message: …}` value and the old results stay. A settled poll leaves DONE. Which status text or payload lands is stated by `PollSettlesAtFirstAnswer`. |
| Orchestration.SubmissionFailureRejects | src/squid_api_analysisjob_controller.js:162-181 | A transport error, or a returned record with an error, rejects without a fetch. The results are cleared, the error is the response or the returned error, the status is DONE, and `id` and `oid` are untouched. |
| Orchestration.SynchronousDoneResolves | src/squid_api_analysisjob_controller.js:255-260 | A returned DONE without error resolves without a fetch. The job takes the returned id, oid and results, has no error and is DONE. |
| Orchestration.AcceptedSubmissionPolls | src/squid_api_analysisjob_controller.js:168-172 | Any other accepted submission takes the returned id and oid, then polls from there. While the poll is open, the job stays RUNNING. |
| Orchestration.SettledIffDone | src/squid_api_analysisjob_controller.js:111-113 | After a run the job is RUNNING or DONE. `isDone` holds exactly when its observer settled. A rejected job has an error, and a resolved one has none. |
| Orchestration.RunRetryIsTransparent | src/squid_api_analysisjob_controller.js:254-264 | For a whole single-job run, "still computing" answers change neither the final job nor how its observer ends. |
| Orchestration.FirstRejected | src/squid_api_analysisjob_controller.js:290-292 | The index returned is rejected and no earlier child is. When none is returned, no child is rejected. |
| Orchestration.LastErrorIsLastTruthy | src/squid_api_analysisjob_controller.js:297-303 | The error fold yields the last child error in index order that is set. Without one it yields the batch's own error, so it is absent only when all of them are. |
| Orchestration.BatchRejection | src/squid_api_analysisjob_controller.js:290-305 | A batch with a rejected child ends DONE and marked failed, with a non-null error. That error comes from the children up to the first rejected one as they finished, and from the later ones as launched. |
| Orchestration.BatchAllResolved | src/squid_api_analysisjob_controller.js:297-305 | A batch whose children all resolved ends DONE, not failed, and keeps its own error. |
| Orchestration.BatchPending | src/squid_api_analysisjob_controller.js:290-297 | A batch with an open child and no rejected one stays RUNNING with its error untouched. |
| Orchestration.BatchOutcomeSpec | src/squid_api_analysisjob_controller.js:117-119 | A batch's `isDone` holds exactly when the combined promise settled. A failed batch is DONE with an error, and an all-resolved batch is DONE, not failed, and keeps its error. |
| Controller.StartSubmission | src/squid_api_analysisjob_controller.js:136-153 | The job becomes RUNNING before anything is sent, and the request is `RequestFor` the job as it was. |
| Controller.SubmitCallbacks | src/squid_api_analysisjob_controller.js:160-182 | The `save` callbacks leave the job and the observer as `Submitted` says. |
| Controller.CreateAnalysisJob | src/squid_api_analysisjob_controller.js:132-185 | It returns the request sent and the observer's end. The job ends as `Submitted` of the launched job, or stays launched and pending when no answer comes. |
| Controller.GetAnalysisJobResults | src/squid_api_analysisjob_controller.js:203-232 | The retry loop leaves the job, the settlement and the fetch count exactly as `Poll` over the script. |
| Controller.CompleteSingleAnalysis | src/squid_api_analysisjob_controller.js:254-268 | After submission, the job and its observer end as `Complete` says: a synchronous DONE, a poll or a rejection. |
| Controller.ComputeSingleAnalysis | src/squid_api_analysisjob_controller.js:239-271 | The request carries `ChooseSelection`'s choice, and the job ends as `SingleRun` of its old state. |
| Controller.FoldChildErrors | src/squid_api_analysisjob_controller.js:297-303 | The `always` loop sets the batch error to `LastError` of the children's current errors. |
| Controller.SettleBatch | src/squid_api_analysisjob_controller.js:292-305 | On failure the process-wide status says "Computation failed" in both fields. Either way the error fold runs and the batch becomes DONE. |
| Controller.LaunchChildren | src/squid_api_analysisjob_controller.js:283-287 | Every child is launched in order, and the requests are each child's `RequestFor` in child order. No child's `change:dimensions` log changes. |
| Controller.SettleChildren | src/squid_api_analysisjob_controller.js:290-295 | Each child ends as its own `SingleRun`. The combined promise fires exactly when some child rejected, and then the batch settles with the children as they were at that first rejection. No child's `change:dimensions` log changes. |
| Controller.ComputeMultiAnalysis | src/squid_api_analysisjob_controller.js:277-306 | The children list is unchanged, and each child ends as its own `SingleRun`. The batch status and error, and whether the process-wide status reads "Computation failed", are as `BatchAfter` says. No child's `change:dimensions` log changes. |
| Controller.Compute | src/squid_api_analysisjob_controller.js:190-198 | A batch target, whose `analyses` is always set and so truthy even when empty, takes the batch path; a job target takes the single path. Each ends as that path's specification says, and no job's `change:dimensions` log changes. |
| Controller.ComputeAnalysis | src/squid_api_analysisjob_controller.js:310-312 | The same as `compute`: the same paths, the same end states and the same unchanged event logs. |

## Left out

- The AMD wrapper, the `console` logging and the `fakeServer` hooks (lines 2-9, 156-158, 229-231): they carry no behaviour.
- The `urlRoot` functions (lines 14-16, 26-27): they delegate to `ProjectModel.prototype.urlRoot`, which is not part of this model.
- The real `save` and `fetch` calls and the Deferred objects. They are replaced by `Replies` values and a `Settlement`. The `(model, response)` arguments passed to the Deferred callbacks are not carried.
- Interleaving of the children's answers: the model processes the replies in child order, and other orders are not modelled.
- Unbounded retry: polling runs over a finite script of answers, and running out of answers leaves the job polling.
- Backbone's own `change` events fired by `set`: only the explicit `change:dimensions` triggers are recorded.
- The `return this` of the setters, which permits chaining: the methods return nothing.
- `squid_api.model.filters` and `squid_api.model.status`: they become the `defaults` and `globalStatus` parameters.
- Falsy error values such as `""` or `0`: a set error is always an object, hence truthy.
- Falsy selections: `!selection` (line 245) falls back to the default filters on any falsy value, but the model falls back only on an absent selection. A present selection payload is an object, hence truthy.
- Never-set list attributes: `domains`, `dimensions` and `metrics` are undefined on a fresh job in the source, but empty lists here. The submission request then carries empty lists where the source sends undefined (lines 149-151).
- Jobs.AnalysisJob.SetDimensionId: its index is a `nat` or absent, so negative indices are not modelled. In the source `index || 0` (line 82) keeps -1, and `dims[-1] = …` (line 83) adds a property instead of an element. The list keeps its elements, and the trigger fires with an unchanged list.
- Jobs.AnalysisJob.SetDimensionId: its index must be at most the number of dimensions. A larger index grows a sparse JavaScript array with holes, which is not modelled.
- Jobs.AnalysisJob.SetDimensionId: a job whose dimensions were never set holds an empty list here. In the source that array is undefined and the call throws.
- Jobs.AnalysisJob.SetDimensionId: the source overwrites the very array it passed with earlier `change:dimensions` events (lines 81-89), so those earlier payloads show the new slot too. The model records each event's list as a value, so that aliasing is not captured.
- Jobs.AnalysisJob.SetDimensionIds: a non-empty input on a job without domains is excluded by its precondition. The source throws a TypeError there.
- Jobs.AnalysisJob.SetMetricIds: a non-empty input on a job without domains is excluded by its precondition. The source throws a TypeError there.
- Controller.LaunchChildren: the children must be distinct objects, as `ComputeMultiAnalysis` needs. The source loop (lines 284-287) also accepts a batch listing the same job twice.
- Controller.SettleChildren: the children must be distinct objects, as `ComputeMultiAnalysis` needs. The source (lines 290-295) also accepts a batch listing the same job twice.
- Controller.ComputeMultiAnalysis: the children must be distinct objects. A batch that lists the same job twice, so that two children alias, is not modelled.
- Controller.Compute: the batch path needs distinct children, as `ComputeMultiAnalysis` does.
- Controller.Compute: the source picks its path by testing the `analyses` attribute at run time (line 191), but here the target's shape is fixed by its `Target` constructor. Two source cases therefore cannot be written. One is a `MultiAnalysisJob` whose `analyses` is unset or null: the source takes the single path, sets status RUNNING and then throws a TypeError at `get("id").projectId` (line 141). The other is an `AnalysisJob` that carries an `analyses` attribute, which the source sends down the batch path.
- Controller.ComputeAnalysis: the batch path needs distinct children, as `ComputeMultiAnalysis` does.
- Controller.ComputeAnalysis: it dispatches as `Controller.Compute` does, with the target's shape fixed by its constructor. A `MultiAnalysisJob` without `analyses`, which the source sends down the single path to a TypeError, and an `AnalysisJob` carrying `analyses`, which it sends down the batch path, cannot be written.

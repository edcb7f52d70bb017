/**
 * The controller object of src/squid_api_analysisjob_controller.js
 * (lines 124-319) as methods that update the job models in place, each proved
 * against the functions of module Orchestration.
 *
 * Every network call is replaced by the answer it gets (a `Replies` value),
 * and the asynchronous callbacks run when their answer is consumed.
 */
module Controller {
  import opened Wrappers
  import opened Jobs
  import opened Orchestration

  /** The process-wide status model `squid_api.model.status`. */
  class StatusModel {
    var message: Option<string>
    var error: Option<string>

    constructor ()
      ensures message == None && error == None
    {
      message, error := None, None;
    }
  }

  /**
   * What `compute` is given: a model without an `analyses` attribute, or a batch
   * model with one. An `analyses` array is truthy even when empty. The shape is
   * fixed by the constructor, so a batch without `analyses` and a job with one
   * cannot be written.
   */
  datatype Target = SingleJob(job: AnalysisJob) | MultiJob(batch: MultiAnalysisJob)

  function States(children: seq<AnalysisJob>): (r: seq<JobState>)
    reads set c | c in children
    ensures |r| == |children| && forall i :: 0 <= i < |children| ==> r[i] == children[i].State()
  {
    seq(|children|, i reads set c | c in children requires 0 <= i < |children| => children[i].State())
  }

  function ChildErrors(children: seq<AnalysisJob>): (r: seq<Option<ErrorValue>>)
    reads set c | c in children
    ensures |r| == |children| && forall i :: 0 <= i < |children| ==> r[i] == children[i].error
  {
    seq(|children|, i reads set c | c in children requires 0 <= i < |children| => children[i].error)
  }

  predicate Distinct(children: seq<AnalysisJob>) {
    forall i, j :: 0 <= i < j < |children| ==> children[i] != children[j]
  }

  /** Child j of a batch launched from `before` ran as `run`. */
  predicate RanAs(before: seq<JobState>, replies: seq<Replies>, j: int, run: Run) {
    0 <= j < |before| && run == SingleRun(before[j], ReplyFor(replies, j))
  }

  /** The requests a batch's children send, in child order. */
  function BatchRequests(before: seq<JobState>, filters: Option<Filters>, defaults: Filters): (r: seq<SubmitRequest>)
    ensures |r| == |before|
    ensures forall i :: 0 <= i < |before| ==>
      r[i] == RequestFor(before[i], ChooseSelection(filters, before[i].selection, defaults))
  {
    seq(|before|, i requires 0 <= i < |before| => RequestFor(before[i], ChooseSelection(filters, before[i].selection, defaults)))
  }

  // ---------------------------------------------------------------- submission

  /** `createAnalysisJob` up to the `save` call: mark the job RUNNING and build the request. */
  method StartSubmission(job: AnalysisJob, selection: Option<Payload>) returns (request: SubmitRequest)
    modifies job
    ensures request == RequestFor(old(job.State()), selection)
    ensures job.State() == Launch(old(job.State()))
    ensures job.dimensionEvents == old(job.dimensionEvents)
  {
    job.status := Some(RUNNING);
    var projectId := if Truthy(job.id.projectId) then job.id.projectId else job.projectId;
    request := SubmitRequest(JobId(projectId, None), job.domains, job.dimensions, job.metrics, job.autoRun, selection);
  }

  /** The `success` and `error` callbacks of that `save`. */
  method SubmitCallbacks(job: AnalysisJob, outcome: SubmitOutcome) returns (run: Run)
    modifies job
    ensures run == Submitted(old(job.State()), outcome)
    ensures job.State() == run.state
    ensures job.dimensionEvents == old(job.dimensionEvents)
  {
    match outcome
    case TransportError(response) =>
      job.results := None;
      job.error := Some(HttpResponse(response));
      job.status := Some(DONE);
      run := Run(job.State(), Rejected, 0);
    case Returned(record) =>
      if record.error.Some? {
        job.results := None;
        job.error := record.error;
        job.status := Some(DONE);
        run := Run(job.State(), Rejected, 0);
      } else {
        job.id := record.id;
        job.oid := record.id.analysisJobId;
        run := Run(job.State(), Resolved, 0);
      }
  }

  /**
   * `createAnalysisJob`: the request it sends and how its observer ends; with no
   * answer the job stays RUNNING and the observer pending.
   */
  method CreateAnalysisJob(job: AnalysisJob, selection: Option<Payload>, submit: Option<SubmitOutcome>)
    returns (request: SubmitRequest, run: Run)
    modifies job
    ensures request == RequestFor(old(job.State()), selection)
    ensures run == if submit.None? then Run(Launch(old(job.State())), Pending, 0)
                   else Submitted(Launch(old(job.State())), submit.value)
    ensures job.State() == run.state
    ensures job.dimensionEvents == old(job.dimensionEvents)
  {
    request := StartSubmission(job, selection);
    if submit.None? {
      run := Run(job.State(), Pending, 0);
    } else {
      run := SubmitCallbacks(job, submit.value);
    }
  }

  // ------------------------------------------------------------------- polling

  /**
   * `getAnalysisJobResults`: every "still computing" answer asks again with the
   * job untouched; the first other answer settles it. The source recurses without
   * bound; here the answers are a finite script, and running out of them leaves
   * the poll pending.
   */
  method GetAnalysisJobResults(job: AnalysisJob, script: seq<FetchOutcome>) returns (settlement: Settlement, fetches: nat)
    modifies job
    ensures job.State() == Poll(old(job.State()), script).state
    ensures settlement == Poll(old(job.State()), script).settlement
    ensures fetches == Poll(old(job.State()), script).fetches
    ensures job.dimensionEvents == old(job.dimensionEvents)
  {
    var i := 0;
    while i < |script| && StillComputing(script[i])
      invariant 0 <= i <= |script|
      invariant AllStillComputing(script[..i])
    {
      assert script[..i + 1] == script[..i] + [script[i]];
      i := i + 1;
    }
    PollSkipsInProgress(job.State(), script[..i], script[i..]);
    assert script[..i] + script[i..] == script;
    if i == |script| {
      settlement, fetches := Pending, i;
    } else {
      fetches := i + 1;
      match script[i]
      case FetchError(statusText) =>
        job.error := Some(StatusMessage(statusText));
        job.status := Some(DONE);
        settlement := Rejected;
      case Fetched(_, body) =>
        job.error := None;
        job.results := Some(body);
        job.status := Some(DONE);
        settlement := Resolved;
    }
  }

  // ---------------------------------------------------------------- single job

  /**
   * The part of `computeSingleAnalysis` that runs once its submission is
   * answered: a synchronous DONE copies the returned error and results, any
   * other accepted status polls, a failed submission just rejects.
   */
  method CompleteSingleAnalysis(job: AnalysisJob, replies: Replies) returns (run: Run)
    modifies job
    ensures run == Complete(old(job.State()), replies)
    ensures job.State() == run.state
    ensures job.dimensionEvents == old(job.dimensionEvents)
  {
    if replies.submit.None? {
      run := Run(job.State(), Pending, 0);
      return;
    }
    var outcome := replies.submit.value;
    var created := SubmitCallbacks(job, outcome);
    if created.settlement == Rejected {
      run := created;
    } else if outcome.record.status == Some(DONE) {
      job.error := outcome.record.error;
      job.results := outcome.record.results;
      job.status := Some(DONE);
      run := Run(job.State(), Resolved, 0);
    } else {
      var settlement, fetches := GetAnalysisJobResults(job, replies.polls);
      run := Run(job.State(), settlement, fetches);
    }
  }

  /** `computeSingleAnalysis`: choose the selection, submit, then settle as the replies say. */
  method ComputeSingleAnalysis(job: AnalysisJob, filters: Option<Filters>, defaults: Filters, replies: Replies)
    returns (request: SubmitRequest, run: Run)
    modifies job
    ensures request == RequestFor(old(job.State()), ChooseSelection(filters, old(job.selection), defaults))
    ensures run == SingleRun(old(job.State()), replies)
    ensures job.State() == run.state
    ensures job.dimensionEvents == old(job.dimensionEvents)
  {
    var selection := ChooseSelection(filters, job.selection, defaults);
    request := StartSubmission(job, selection);
    run := CompleteSingleAnalysis(job, replies);
  }

  // --------------------------------------------------------------------- batch

  /** The `always` callback's loop: each child with a truthy error overwrites the batch error. */
  method FoldChildErrors(batch: MultiAnalysisJob)
    modifies batch`error
    ensures batch.error == LastError(ChildErrors(batch.analyses), old(batch.error))
  {
    var children := batch.analyses;
    ghost var errors := ChildErrors(children);
    var i := 0;
    while i < |children|
      invariant 0 <= i <= |children|
      invariant batch.error == LastError(errors[..i], old(batch.error))
    {
      assert errors[..i + 1][..i] == errors[..i];
      assert LastError(errors[..i + 1], old(batch.error)) ==
             if errors[i].Some? then errors[i] else LastError(errors[..i], old(batch.error));
      if children[i].error.Some? {
        batch.error := children[i].error;
      }
      i := i + 1;
    }
    assert errors[..i] == errors;
  }

  lemma FirstRejectedExtend(runs: seq<Run>, r: Run)
    ensures var before := FirstRejected(Settlements(runs)); var after := FirstRejected(Settlements(runs + [r]));
      && (before.Some? ==> after == before)
      && (before.None? && r.settlement == Rejected ==> after == Some(|runs|))
      && (before.None? && r.settlement != Rejected ==> after.None?)
  {
    var ss, ss' := Settlements(runs), Settlements(runs + [r]);
    assert forall j :: 0 <= j < |runs| ==> ss'[j] == ss[j];
    assert ss'[|runs|] == r.settlement;
  }

  /** When the first m children have run and the rest are as launched, the fold reads these errors. */
  lemma ErrorsSeen(children: seq<AnalysisJob>, before: seq<JobState>, runs: seq<Run>, m: nat)
    requires |children| == |before| && m == |runs| <= |children|
    requires forall j :: 0 <= j < m ==> children[j].error == runs[j].state.error
    requires forall j :: m <= j < |children| ==> children[j].error == before[j].error
    ensures ChildErrors(children) == RunErrors(runs) + StateErrors(before)[m..]
  {
    var seen := RunErrors(runs) + StateErrors(before)[m..];
    assert |seen| == |children|;
    forall j | 0 <= j < |children| ensures ChildErrors(children)[j] == seen[j] {
      if j >= m { assert seen[j] == StateErrors(before)[m..][j - m]; }
    }
  }

  /**
   * The settling of the combined promise: on failure the process-wide status
   * first (`fail`), then the error fold and DONE (`always`).
   */
  method SettleBatch(batch: MultiAnalysisJob, globalStatus: StatusModel, failed: bool)
    modifies batch`error, batch`status, globalStatus
    ensures batch.status == Some(DONE)
    ensures batch.error == LastError(ChildErrors(batch.analyses), old(batch.error))
    ensures failed ==> globalStatus.message == Some(COMPUTATION_FAILED) && globalStatus.error == Some(COMPUTATION_FAILED)
    ensures !failed ==> unchanged(globalStatus)
  {
    if failed {
      globalStatus.message := Some(COMPUTATION_FAILED);
      globalStatus.error := Some(COMPUTATION_FAILED);
    }
    FoldChildErrors(batch);
    batch.status := Some(DONE);
  }

  /** The launch loop of `computeMultiAnalysis`: `computeSingleAnalysis` up to the `save` call, child by child. */
  method LaunchChildren(children: seq<AnalysisJob>, filters: Option<Filters>, defaults: Filters)
    returns (requests: seq<SubmitRequest>)
    requires Distinct(children)
    modifies set c | c in children
    ensures requests == BatchRequests(old(States(children)), filters, defaults)
    ensures forall j :: 0 <= j < |children| ==> children[j].State() == Launch(old(children[j].State()))
    ensures forall c :: c in children ==> c.dimensionEvents == old(c.dimensionEvents)
  {
    ghost var before := States(children);
    requests := [];
    var i := 0;
    while i < |children|
      invariant 0 <= i <= |children|
      invariant requests == BatchRequests(before[..i], filters, defaults)
      invariant forall j :: 0 <= j < i ==> children[j].State() == Launch(before[j])
      invariant forall j :: i <= j < |children| ==> children[j].State() == before[j]
      invariant forall c :: c in children ==> c.dimensionEvents == old(c.dimensionEvents)
    {
      var child := children[i];
      var selection := ChooseSelection(filters, child.selection, defaults);
      var request := StartSubmission(child, selection);
      assert before[..i + 1] == before[..i] + [before[i]];
      requests := requests + [request];
      i := i + 1;
    }
    assert before[..i] == before;
  }

  /**
   * The combined promise settles after the first |runs| children ran and the
   * rest are as launched: the batch error is folded from exactly these errors.
   */
  method SettleBatchAt(batch: MultiAnalysisJob, globalStatus: StatusModel, failed: bool,
                       ghost before: seq<JobState>, ghost runs: seq<Run>)
    requires |before| == |batch.analyses| && |runs| <= |before|
    requires forall j :: 0 <= j < |runs| ==> batch.analyses[j].State() == runs[j].state
    requires forall j :: |runs| <= j < |before| ==> batch.analyses[j].State() == Launch(before[j])
    modifies batch`error, batch`status, globalStatus
    ensures batch.status == Some(DONE)
    ensures batch.error == LastError(RunErrors(runs) + StateErrors(before)[|runs|..], old(batch.error))
    ensures failed ==> globalStatus.message == Some(COMPUTATION_FAILED) && globalStatus.error == Some(COMPUTATION_FAILED)
    ensures !failed ==> unchanged(globalStatus)
  {
    ErrorsSeen(batch.analyses, before, runs, |runs|);
    SettleBatch(batch, globalStatus, failed);
  }

  /** The child after those already in `done` settles by its own replies; no other child changes. */
  method RunNext(children: seq<AnalysisJob>, replies: seq<Replies>, ghost before: seq<JobState>, done: seq<Run>)
    returns (runs: seq<Run>)
    requires Distinct(children) && |done| < |children| == |before|
    requires forall j {:trigger RanAs(before, replies, j, done[j])} :: 0 <= j < |done| ==> RanAs(before, replies, j, done[j])
    requires forall j :: 0 <= j < |done| ==> children[j].State() == done[j].state
    requires forall j :: |done| <= j < |children| ==> children[j].State() == Launch(before[j])
    modifies children[|done|]
    ensures |runs| == |done| + 1 && runs == done + [runs[|done|]]
    ensures forall j {:trigger RanAs(before, replies, j, runs[j])} :: 0 <= j < |runs| ==> RanAs(before, replies, j, runs[j])
    ensures forall j :: 0 <= j < |runs| ==> children[j].State() == runs[j].state
    ensures forall j :: |runs| <= j < |children| ==> children[j].State() == Launch(before[j])
    ensures forall c :: c in children ==> c.dimensionEvents == old(c.dimensionEvents)
  {
    var i := |done|;
    var run := CompleteSingleAnalysis(children[i], ReplyFor(replies, i));
    assert RanAs(before, replies, i, run);
    runs := done + [run];
  }

  /** The children after those already in `done`, in order, each settled by its own replies. */
  method RunChildren(children: seq<AnalysisJob>, replies: seq<Replies>, ghost before: seq<JobState>, done: seq<Run>)
    returns (runs: seq<Run>)
    requires Distinct(children) && |done| <= |children| == |before|
    requires forall j {:trigger RanAs(before, replies, j, done[j])} :: 0 <= j < |done| ==> RanAs(before, replies, j, done[j])
    requires forall j :: 0 <= j < |done| ==> children[j].State() == done[j].state
    requires forall j :: |done| <= j < |children| ==> children[j].State() == Launch(before[j])
    modifies set j | |done| <= j < |children| :: children[j]
    ensures |runs| == |children| && runs[..|done|] == done
    ensures forall j {:trigger RanAs(before, replies, j, runs[j])} :: 0 <= j < |runs| ==> RanAs(before, replies, j, runs[j])
    ensures forall j :: 0 <= j < |children| ==> children[j].State() == runs[j].state
    ensures forall c :: c in children ==> c.dimensionEvents == old(c.dimensionEvents)
  {
    runs := done;
    while |runs| < |children|
      invariant |done| <= |runs| <= |children| && runs[..|done|] == done
      invariant forall j {:trigger RanAs(before, replies, j, runs[j])} :: 0 <= j < |runs| ==> RanAs(before, replies, j, runs[j])
      invariant forall j :: 0 <= j < |runs| ==> children[j].State() == runs[j].state
      invariant forall j :: |runs| <= j < |children| ==> children[j].State() == Launch(before[j])
      invariant forall c :: c in children ==> c.dimensionEvents == old(c.dimensionEvents)
      decreases |children| - |runs|
    {
      ghost var prev := runs;
      runs := RunNext(children, replies, before, runs);
      assert runs[..|done|] == prev[..|done|];
    }
  }

  /** Children in order, up to and including the first one whose observer rejects. */
  method RunUntilRejected(children: seq<AnalysisJob>, replies: seq<Replies>, ghost before: seq<JobState>)
    returns (runs: seq<Run>, rejected: bool)
    requires Distinct(children) && |children| == |before|
    requires forall j :: 0 <= j < |children| ==> children[j].State() == Launch(before[j])
    modifies set c | c in children
    ensures |runs| <= |children|
    ensures forall j {:trigger RanAs(before, replies, j, runs[j])} :: 0 <= j < |runs| ==> RanAs(before, replies, j, runs[j])
    ensures forall j :: 0 <= j < |runs| ==> children[j].State() == runs[j].state
    ensures forall j :: |runs| <= j < |children| ==> children[j].State() == Launch(before[j])
    ensures rejected ==> 0 < |runs| && FirstRejected(Settlements(runs)) == Some(|runs| - 1)
    ensures !rejected ==> |runs| == |children| && FirstRejected(Settlements(runs)).None?
    ensures forall c :: c in children ==> c.dimensionEvents == old(c.dimensionEvents)
  {
    runs, rejected := [], false;
    while |runs| < |children| && !rejected
      invariant |runs| <= |children|
      invariant forall j {:trigger RanAs(before, replies, j, runs[j])} :: 0 <= j < |runs| ==> RanAs(before, replies, j, runs[j])
      invariant forall j :: 0 <= j < |runs| ==> children[j].State() == runs[j].state
      invariant forall j :: |runs| <= j < |children| ==> children[j].State() == Launch(before[j])
      invariant !rejected ==> FirstRejected(Settlements(runs)).None?
      invariant rejected ==> 0 < |runs| && FirstRejected(Settlements(runs)) == Some(|runs| - 1)
      invariant forall c :: c in children ==> c.dimensionEvents == old(c.dimensionEvents)
      decreases |children| - |runs|
    {
      var prev := runs;
      runs := RunNext(children, replies, before, runs);
      FirstRejectedExtend(prev, runs[|prev|]);
      rejected := runs[|prev|].settlement == Rejected;
    }
  }

  lemma FirstRejectedPrefix(prefix: seq<Run>, runs: seq<Run>, k: nat)
    requires |prefix| <= |runs| && runs[..|prefix|] == prefix
    requires FirstRejected(Settlements(prefix)) == Some(k)
    ensures FirstRejected(Settlements(runs)) == Some(k)
  {
    var ss, ss' := Settlements(prefix), Settlements(runs);
    assert forall j :: 0 <= j < |prefix| ==> ss'[j] == ss[j];
  }

  lemma SeenErrorsPrefix(before: seq<Option<ErrorValue>>, prefix: seq<Run>, runs: seq<Run>)
    requires |prefix| <= |runs| == |before| && runs[..|prefix|] == prefix
    ensures SeenErrors(before, runs, |prefix|) == RunErrors(prefix) + before[|prefix|..]
  {
    assert RunErrors(runs)[..|prefix|] == RunErrors(prefix);
  }

  /**
   * After the first rejected child (the last of `first`): the combined promise
   * rejects, the batch settles with the children as they are at that moment,
   * and the remaining children still run afterwards.
   */
  method RejectThenRunRest(batch: MultiAnalysisJob, replies: seq<Replies>, globalStatus: StatusModel,
                           children: seq<AnalysisJob>, ghost before: seq<JobState>, first: seq<Run>)
    returns (runs: seq<Run>)
    requires children == batch.analyses && Distinct(children) && |before| == |children| && 0 < |first| <= |before|
    requires forall j {:trigger RanAs(before, replies, j, first[j])} :: 0 <= j < |first| ==> RanAs(before, replies, j, first[j])
    requires forall j :: 0 <= j < |first| ==> children[j].State() == first[j].state
    requires forall j :: |first| <= j < |before| ==> children[j].State() == Launch(before[j])
    requires FirstRejected(Settlements(first)) == Some(|first| - 1)
    modifies batch`error, batch`status, globalStatus, set c | c in children
    ensures |runs| == |before|
    ensures forall j {:trigger RanAs(before, replies, j, runs[j])} :: 0 <= j < |runs| ==> RanAs(before, replies, j, runs[j])
    ensures forall j :: 0 <= j < |runs| ==> children[j].State() == runs[j].state
    ensures FirstRejected(Settlements(runs)) == Some(|first| - 1)
    ensures batch.status == Some(DONE)
    ensures batch.error == LastError(SeenErrors(StateErrors(before), runs, |first|), old(batch.error))
    ensures globalStatus.message == Some(COMPUTATION_FAILED) && globalStatus.error == Some(COMPUTATION_FAILED)
    ensures forall c :: c in children ==> c.dimensionEvents == old(c.dimensionEvents)
  {
    // `fail`, then `always`
    SettleBatchAt(batch, globalStatus, true, before, first);
    runs := RunChildren(children, replies, before, first);
    FirstRejectedPrefix(first, runs, |first| - 1);
    SeenErrorsPrefix(StateErrors(before), first, runs);
  }

  /**
   * The children's answers, processed in child order, and the settling of the
   * combined promise at the first rejected child.
   */
  method SettleChildren(batch: MultiAnalysisJob, replies: seq<Replies>, globalStatus: StatusModel, ghost before: seq<JobState>)
    returns (runs: seq<Run>, fired: bool)
    requires Distinct(batch.analyses) && |before| == |batch.analyses|
    requires forall j :: 0 <= j < |before| ==> batch.analyses[j].State() == Launch(before[j])
    modifies batch`error, batch`status, globalStatus, set c | c in batch.analyses
    ensures |runs| == |before|
    ensures forall j {:trigger RanAs(before, replies, j, runs[j])} :: 0 <= j < |runs| ==> RanAs(before, replies, j, runs[j])
    ensures forall j :: 0 <= j < |runs| ==> batch.analyses[j].State() == runs[j].state
    ensures fired <==> FirstRejected(Settlements(runs)).Some?
    ensures !fired ==> batch.status == old(batch.status) && batch.error == old(batch.error) && unchanged(globalStatus)
    ensures forall c :: c in batch.analyses ==> c.dimensionEvents == old(c.dimensionEvents)
    ensures fired ==>
      && batch.status == Some(DONE)
      && batch.error == LastError(SeenErrors(StateErrors(before), runs, FirstRejected(Settlements(runs)).value + 1), old(batch.error))
      && globalStatus.message == Some(COMPUTATION_FAILED) && globalStatus.error == Some(COMPUTATION_FAILED)
  {
    var first;
    first, fired := RunUntilRejected(batch.analyses, replies, before);
    if fired {
      runs := RejectThenRunRest(batch, replies, globalStatus, batch.analyses, before, first);
    } else {
      runs := first;
    }
  }

  lemma RunsAreBatchRuns(before: seq<JobState>, replies: seq<Replies>, runs: seq<Run>)
    requires |runs| == |before|
    requires forall j {:trigger RanAs(before, replies, j, runs[j])} :: 0 <= j < |runs| ==> RanAs(before, replies, j, runs[j])
    ensures runs == BatchRuns(before, replies)
  {
    forall j | 0 <= j < |runs| ensures runs[j] == BatchRuns(before, replies)[j] {
      assert RanAs(before, replies, j, runs[j]);
    }
  }

  lemma StatesOfRuns(children: seq<AnalysisJob>, runs: seq<Run>)
    requires |children| == |runs|
    requires forall j :: 0 <= j < |runs| ==> children[j].State() == runs[j].state
    ensures States(children) == RunStates(runs)
  {
  }

  /**
   * Everything after the launch loop: the replies, the settling of the
   * combined promise, and the remaining children.
   */
  method SettleAll(batch: MultiAnalysisJob, replies: seq<Replies>, globalStatus: StatusModel, ghost before: seq<JobState>)
    returns (failed: bool)
    requires Distinct(batch.analyses) && |before| == |batch.analyses| && batch.status == Some(RUNNING)
    requires forall j :: 0 <= j < |before| ==> batch.analyses[j].State() == Launch(before[j])
    modifies batch`error, batch`status, globalStatus, set c | c in batch.analyses
    ensures States(batch.analyses) == RunStates(BatchRuns(before, replies))
    ensures BatchAfter(old(batch.error), StateErrors(before), BatchRuns(before, replies)) ==
            BatchOutcome(batch.status, batch.error, failed)
    ensures failed ==> globalStatus.message == Some(COMPUTATION_FAILED) && globalStatus.error == Some(COMPUTATION_FAILED)
    ensures !failed ==> unchanged(globalStatus)
    ensures forall c :: c in batch.analyses ==> c.dimensionEvents == old(c.dimensionEvents)
  {
    var runs;
    runs, failed := SettleChildren(batch, replies, globalStatus, before);
    if !failed && AllResolved(Settlements(runs)) {
      // `$.when` resolves once the last child did: `always`
      SettleBatchAt(batch, globalStatus, false, before, runs);
    }
    RunsAreBatchRuns(before, replies, runs);
    StatesOfRuns(batch.analyses, runs);
    BatchAfterCases(old(batch.error), StateErrors(before), runs, batch.status, batch.error, failed);
  }

  /**
   * `computeMultiAnalysis`: the batch becomes RUNNING, every child is launched
   * in order, then the children's replies are processed in order. The combined
   * promise settles at the first rejected child or once all resolved; then, if a
   * child was rejected, the process-wide status says "Computation failed", the
   * batch error is folded from the children as they are at that moment, and the
   * batch becomes DONE.
   */
  method ComputeMultiAnalysis(batch: MultiAnalysisJob, filters: Option<Filters>, defaults: Filters,
                              replies: seq<Replies>, globalStatus: StatusModel)
    returns (requests: seq<SubmitRequest>)
    requires Distinct(batch.analyses)
    modifies batch, globalStatus, set c | c in batch.analyses
    ensures batch.analyses == old(batch.analyses)
    ensures forall c :: c in batch.analyses ==> c.dimensionEvents == old(c.dimensionEvents)
    ensures requests == BatchRequests(old(States(batch.analyses)), filters, defaults)
    ensures States(batch.analyses) == RunStates(BatchRuns(old(States(batch.analyses)), replies))
    ensures var b := BatchAfter(old(batch.error), StateErrors(old(States(batch.analyses))),
                                BatchRuns(old(States(batch.analyses)), replies));
      && batch.status == b.status && batch.error == b.error
      && (b.failed ==> globalStatus.message == Some(COMPUTATION_FAILED) && globalStatus.error == Some(COMPUTATION_FAILED))
      && (!b.failed ==> globalStatus.message == old(globalStatus.message) && globalStatus.error == old(globalStatus.error))
  {
    ghost var before := States(batch.analyses);
    batch.status := Some(RUNNING);
    requests := LaunchChildren(batch.analyses, filters, defaults);
    var failed := SettleAll(batch, replies, globalStatus, before);
  }

  // -------------------------------------------------------------------- facade

  function RunStates(runs: seq<Run>): (r: seq<JobState>)
    ensures |r| == |runs| && forall i :: 0 <= i < |runs| ==> r[i] == runs[i].state
  {
    seq(|runs|, i requires 0 <= i < |runs| => runs[i].state)
  }

  function Footprint(target: Target): set<object>
    reads if target.MultiJob? then {target.batch} else {}
  {
    match target
    case SingleJob(job) => {job}
    case MultiJob(batch) => {batch} + (set c: AnalysisJob | c in batch.analyses :: c as object)
  }

  /** What `compute` leaves behind, on whichever path the target's shape selects. */
  twostate predicate Computed(target: Target, filters: Option<Filters>, defaults: Filters, replies: seq<Replies>,
                              globalStatus: StatusModel, requests: seq<SubmitRequest>)
    reads Footprint(target), globalStatus
  {
    match target
    case SingleJob(job) =>
      && requests == [RequestFor(old(job.State()), ChooseSelection(filters, old(job.selection), defaults))]
      && job.State() == SingleRun(old(job.State()), ReplyFor(replies, 0)).state
      && job.dimensionEvents == old(job.dimensionEvents)
      && unchanged(globalStatus)
    case MultiJob(batch) =>
      var before := old(States(batch.analyses));
      var b := BatchAfter(old(batch.error), StateErrors(before), BatchRuns(before, replies));
      && batch.analyses == old(batch.analyses)
      && (forall c :: c in batch.analyses ==> c.dimensionEvents == old(c.dimensionEvents))
      && requests == BatchRequests(before, filters, defaults)
      && States(batch.analyses) == RunStates(BatchRuns(before, replies))
      && batch.status == b.status && batch.error == b.error
      && (b.failed ==> globalStatus.message == Some(COMPUTATION_FAILED) && globalStatus.error == Some(COMPUTATION_FAILED))
      && (!b.failed ==> globalStatus.message == old(globalStatus.message) && globalStatus.error == old(globalStatus.error))
  }

  /** `compute`: a target with `analyses` takes the batch path, any other the single path. */
  method Compute(target: Target, filters: Option<Filters>, defaults: Filters, replies: seq<Replies>,
                 globalStatus: StatusModel) returns (requests: seq<SubmitRequest>)
    requires target.MultiJob? ==> Distinct(target.batch.analyses)
    modifies Footprint(target), globalStatus
    ensures Computed(target, filters, defaults, replies, globalStatus, requests)
  {
    match target
    case SingleJob(job) =>
      var request, run := ComputeSingleAnalysis(job, filters, defaults, ReplyFor(replies, 0));
      requests := [request];
    case MultiJob(batch) =>
      requests := ComputeMultiAnalysis(batch, filters, defaults, replies, globalStatus);
  }

  /** `computeAnalysis`, the backward-compatible name of `compute`. */
  method ComputeAnalysis(target: Target, filters: Option<Filters>, defaults: Filters, replies: seq<Replies>,
                         globalStatus: StatusModel) returns (requests: seq<SubmitRequest>)
    requires target.MultiJob? ==> Distinct(target.batch.analyses)
    modifies Footprint(target), globalStatus
    ensures Computed(target, filters, defaults, replies, globalStatus, requests)
  {
    requests := Compute(target, filters, defaults, replies, globalStatus);
  }
}

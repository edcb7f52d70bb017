/**
 * The controller's orchestration logic (src/squid_api_analysisjob_controller.js,
 * lines 124-319) as functions on job snapshots, with the network replaced by
 * the outcomes it delivers.
 *
 * A single job goes Launch (status RUNNING, request built) -> Submitted (the
 * `save` handlers of `createAnalysisJob`) -> either a synchronous DONE or Poll
 * (the `fetch` handlers of `getAnalysisJobResults`). A batch launches every
 * child, then settles the way jQuery's `$.when` does: at the first child
 * rejection, or once every child resolved.
 */
module Orchestration {
  import opened Wrappers
  import opened Jobs

  /** The `apiError` sentinel that means "ask again". */
  const COMPUTING_IN_PROGRESS: string := "COMPUTING_IN_PROGRESS"
  /** What a failed batch writes into the process-wide status model. */
  const COMPUTATION_FAILED: string := "Computation failed"

  /** A filters model; only its `selection` attribute is read. */
  datatype Filters = Filters(selection: Option<Payload>)

  /** The `ProjectAnalysisJob` sent to the service's create operation. */
  datatype SubmitRequest = SubmitRequest(
    id: JobId,
    domains: seq<DomainRef>,
    dimensions: seq<DimensionRef>,
    metrics: seq<MetricRef>,
    autoRun: Option<bool>,
    selection: Option<Payload>)

  /** The attributes of the saved job once the service answered. */
  datatype JobRecord = JobRecord(id: JobId, status: Option<string>, error: Option<ErrorValue>, results: Option<Payload>)

  /** How a `save` ends: its `error` callback, or its `success` callback with the saved record. */
  datatype SubmitOutcome = TransportError(response: Payload) | Returned(record: JobRecord)

  /**
   * How one results `fetch` ends: its `error` callback with the response's
   * status text, or its `success` callback with the record's `apiError` and its JSON.
   */
  datatype FetchOutcome = FetchError(statusText: string) | Fetched(apiError: Option<string>, body: Payload)

  /** The state of a jQuery Deferred. */
  datatype Settlement = Pending | Resolved | Rejected

  /**
   * What the network answers to one submitted job: the outcome of its `save`
   * (None: never answered) and, in order, the outcomes of its result fetches.
   * Once the fetch outcomes run out the job is still polling.
   */
  datatype Replies = Replies(submit: Option<SubmitOutcome>, polls: seq<FetchOutcome>)

  /** A job's snapshot after a run, how its observer ended and how many fetches it made. */
  datatype Run = Run(state: JobState, settlement: Settlement, fetches: nat)

  /** A batch's `status` and `error`, and whether the process-wide status was marked failed. */
  datatype BatchOutcome = BatchOutcome(status: Option<string>, error: Option<ErrorValue>, failed: bool)

  // ---------------------------------------------------------------- submission

  /**
   * The selection `computeSingleAnalysis` submits: explicit filters win, even
   * over the job's own selection and even when their selection is absent;
   * without filters the job's own selection, and without that the defaults'.
   */
  function ChooseSelection(filters: Option<Filters>, own: Option<Payload>, defaults: Filters): (r: Option<Payload>)
    ensures filters.Some? ==> r == filters.value.selection
    ensures filters.None? && own.Some? ==> r == own
    ensures filters.None? && own.None? ==> r == defaults.selection
  {
    if filters.None? then
      if own.Some? then own else defaults.selection
    else
      filters.value.selection
  }

  /** The request `createAnalysisJob` builds from the job and the chosen selection. */
  function RequestFor(s: JobState, selection: Option<Payload>): (r: SubmitRequest)
    ensures r.id.analysisJobId == None
    ensures r.id.projectId == if Truthy(s.id.projectId) then s.id.projectId else s.projectId
    ensures r.domains == s.domains && r.dimensions == s.dimensions && r.metrics == s.metrics
    ensures r.autoRun == s.autoRun && r.selection == selection
  {
    var projectId := if Truthy(s.id.projectId) then s.id.projectId else s.projectId;
    SubmitRequest(JobId(projectId, None), s.domains, s.dimensions, s.metrics, s.autoRun, selection)
  }

  /** `createAnalysisJob` marks the job RUNNING before anything is sent. */
  function Launch(s: JobState): JobState {
    s.(status := Some(RUNNING))
  }

  /** The writes of a failed submission. */
  function SubmitFailed(s: JobState, e: ErrorValue): JobState {
    s.(results := None, error := Some(e), status := Some(DONE))
  }

  /** The two `save` callbacks of `createAnalysisJob`. */
  function Submitted(s: JobState, o: SubmitOutcome): Run {
    match o
    case TransportError(response) => Run(SubmitFailed(s, HttpResponse(response)), Rejected, 0)
    case Returned(record) =>
      if record.error.Some? then Run(SubmitFailed(s, record.error.value), Rejected, 0)
      else Run(s.(id := record.id, oid := record.id.analysisJobId), Resolved, 0)
  }

  // ------------------------------------------------------------------- polling

  predicate StillComputing(o: FetchOutcome) {
    o.Fetched? && o.apiError == Some(COMPUTING_IN_PROGRESS)
  }

  /** The writes of a fetch that ends the poll. */
  function Finish(s: JobState, o: FetchOutcome): (r: Run)
    requires !StillComputing(o)
  {
    match o
    case FetchError(statusText) => Run(s.(error := Some(StatusMessage(statusText)), status := Some(DONE)), Rejected, 1)
    case Fetched(_, body) => Run(s.(error := None, results := Some(body), status := Some(DONE)), Resolved, 1)
  }

  /** `getAnalysisJobResults` over a finite script of fetch outcomes. */
  function Poll(s: JobState, script: seq<FetchOutcome>): Run
    decreases |script|
  {
    if script == [] then Run(s, Pending, 0)
    else if StillComputing(script[0]) then
      var r := Poll(s, script[1..]);
      r.(fetches := r.fetches + 1)
    else Finish(s, script[0])
  }

  predicate AllStillComputing(script: seq<FetchOutcome>) {
    forall i :: 0 <= i < |script| ==> StillComputing(script[i])
  }

  /**
   * "Still computing" answers are invisible: after any number of them, the first
   * other answer decides the job exactly as if it had come first.
   */
  lemma {:induction false} PollSkipsInProgress(s: JobState, prefix: seq<FetchOutcome>, rest: seq<FetchOutcome>)
    requires AllStillComputing(prefix)
    ensures Poll(s, prefix + rest).state == Poll(s, rest).state
    ensures Poll(s, prefix + rest).settlement == Poll(s, rest).settlement
    ensures Poll(s, prefix + rest).fetches == |prefix| + Poll(s, rest).fetches
  {
    if prefix == [] {
      assert prefix + rest == rest;
    } else {
      assert StillComputing(prefix[0]);
      assert (prefix + rest)[0] == prefix[0];
      assert (prefix + rest)[1..] == prefix[1..] + rest;
      assert AllStillComputing(prefix[1..]) by {
        forall i | 0 <= i < |prefix[1..]| ensures StillComputing(prefix[1..][i]) {
          assert prefix[1..][i] == prefix[i + 1];
        }
      }
      PollSkipsInProgress(s, prefix[1..], rest);
    }
  }

  /** k retries followed by a terminal answer end like the terminal answer alone. */
  lemma RetryIsTransparent(s: JobState, prefix: seq<FetchOutcome>, last: FetchOutcome)
    requires AllStillComputing(prefix) && !StillComputing(last)
    ensures Poll(s, prefix + [last]) == Finish(s, last).(fetches := |prefix| + 1)
    ensures Poll(s, prefix + [last]).state == Poll(s, [last]).state
  {
    PollSkipsInProgress(s, prefix, [last]);
  }

  /**
   * A settled poll is decided by the first answer that is not "still
   * computing": the job gets exactly that answer's writes (its status text or
   * its payload), after one fetch per answer up to and including it.
   */
  lemma PollSettlesAtFirstAnswer(s: JobState, script: seq<FetchOutcome>, i: nat)
    requires i < |script| && AllStillComputing(script[..i]) && !StillComputing(script[i])
    ensures Poll(s, script) == Finish(s, script[i]).(fetches := i + 1)
    ensures script[i].FetchError? ==>
      Poll(s, script).state == s.(error := Some(StatusMessage(script[i].statusText)), status := Some(DONE))
    ensures script[i].Fetched? ==>
      Poll(s, script).state == s.(error := None, results := Some(script[i].body), status := Some(DONE))
  {
    PollSkipsInProgress(s, script[..i], script[i..]);
    assert script[..i] + script[i..] == script;
    assert script[i..][0] == script[i];
  }

  /** The poll is still running exactly when every answer so far said "still computing"; then nothing changed. */
  lemma {:induction false} PollPendingIff(s: JobState, script: seq<FetchOutcome>)
    ensures Poll(s, script).settlement == Pending <==> AllStillComputing(script)
    ensures Poll(s, script).settlement == Pending ==> Poll(s, script).state == s && Poll(s, script).fetches == |script|
  {
    if script != [] && StillComputing(script[0]) {
      PollPendingIff(s, script[1..]);
      assert AllStillComputing(script) <==> AllStillComputing(script[1..]) by {
        if AllStillComputing(script[1..]) {
          forall i | 0 <= i < |script| ensures StillComputing(script[i]) {
            if i > 0 { assert script[i] == script[1..][i - 1]; }
          }
        }
        if AllStillComputing(script) {
          forall i | 0 <= i < |script[1..]| ensures StillComputing(script[1..][i]) {
            assert script[1..][i] == script[i + 1];
          }
        }
      }
    }
  }

  /**
   * A poll changes only `error`, `results` and `status`. A resolved poll leaves
   * results and no error; a rejected one a `{message: statusText}` error and the
   * results the job already had (they are not cleared); a settled one DONE.
   */
  lemma {:induction false} PollWrites(s: JobState, script: seq<FetchOutcome>)
    ensures var r := Poll(s, script);
      && r.state == s.(error := r.state.error, results := r.state.results, status := r.state.status)
      && (r.settlement == Resolved ==> r.state.error == None && r.state.results.Some?)
      && (r.settlement == Rejected ==> r.state.error.Some? && r.state.error.value.StatusMessage? && r.state.results == s.results)
      && (r.settlement != Pending ==> r.state.status == Some(DONE))
      && r.fetches <= |script|
  {
    if script != [] && StillComputing(script[0]) {
      PollWrites(s, script[1..]);
    }
  }

  // ---------------------------------------------------------------- single job

  /**
   * A launched job after its submission and, unless that already settled it,
   * its polling (the `done`/`fail` handlers of `computeSingleAnalysis`).
   */
  function Complete(s: JobState, replies: Replies): Run {
    match replies.submit
    case None => Run(s, Pending, 0)
    case Some(o) =>
      var c := Submitted(s, o);
      if c.settlement == Rejected then c
      else if o.record.status == Some(DONE) then
        Run(c.state.(error := o.record.error, results := o.record.results, status := Some(DONE)), Resolved, 0)
      else Poll(c.state, replies.polls)
  }

  /** `computeSingleAnalysis` from the job's state before the call. */
  function SingleRun(s: JobState, replies: Replies): Run {
    Complete(Launch(s), replies)
  }

  predicate SubmitFailure(o: SubmitOutcome) {
    o.TransportError? || o.record.error.Some?
  }

  /** The error a failed submission records: the transport response, or the returned error. */
  function SubmitError(o: SubmitOutcome): ErrorValue
    requires SubmitFailure(o)
  {
    if o.TransportError? then HttpResponse(o.response) else o.record.error.value
  }

  /**
   * A failed submission rejects without any fetch, clears the results, records
   * the error, marks the job DONE and keeps its id and oid.
   */
  lemma SubmissionFailureRejects(s: JobState, replies: Replies)
    requires replies.submit.Some? && SubmitFailure(replies.submit.value)
    ensures var r := SingleRun(s, replies);
      && r.settlement == Rejected && r.fetches == 0
      && r.state == s.(results := None, error := Some(SubmitError(replies.submit.value)), status := Some(DONE))
  {
  }

  /**
   * A submission answered with DONE and no error resolves without any fetch:
   * the job takes the returned id, oid and results, has no error and is DONE.
   */
  lemma SynchronousDoneResolves(s: JobState, replies: Replies)
    requires replies.submit.Some? && replies.submit.value.Returned?
    requires replies.submit.value.record.error.None? && replies.submit.value.record.status == Some(DONE)
    ensures var record := replies.submit.value.record; var r := SingleRun(s, replies);
      && r.settlement == Resolved && r.fetches == 0 && !SubmitFailure(replies.submit.value)
      && r.state == s.(id := record.id, oid := record.id.analysisJobId, error := None,
                       results := record.results, status := Some(DONE))
  {
  }

  /**
   * A submission answered with any other status takes the returned id and oid
   * and polls; while it polls the job stays RUNNING.
   */
  lemma AcceptedSubmissionPolls(s: JobState, replies: Replies)
    requires replies.submit.Some? && replies.submit.value.Returned?
    requires replies.submit.value.record.error.None? && replies.submit.value.record.status != Some(DONE)
    ensures var record := replies.submit.value.record; var r := SingleRun(s, replies);
      && r == Poll(s.(status := Some(RUNNING), id := record.id, oid := record.id.analysisJobId), replies.polls)
      && (r.settlement == Pending ==> r.state.status == Some(RUNNING))
  {
    var record := replies.submit.value.record;
    PollPendingIff(s.(status := Some(RUNNING), id := record.id, oid := record.id.analysisJobId), replies.polls);
  }

  /**
   * A run leaves the job RUNNING or DONE, and `isDone` holds exactly when its
   * observer settled; a rejected job carries an error, a resolved one none.
   */
  lemma SettledIffDone(s: JobState, replies: Replies)
    ensures var r := SingleRun(s, replies);
      && (r.state.status == Some(RUNNING) || r.state.status == Some(DONE))
      && (IsDoneStatus(r.state.status) <==> r.settlement != Pending)
      && (r.settlement == Rejected ==> r.state.error.Some?)
      && (r.settlement == Resolved ==> r.state.error.None?)
  {
    if replies.submit.Some? {
      var o := replies.submit.value;
      if !SubmitFailure(o) && o.record.status != Some(DONE) {
        var t := Launch(s).(id := o.record.id, oid := o.record.id.analysisJobId);
        PollWrites(t, replies.polls);
        PollPendingIff(t, replies.polls);
      }
    }
  }

  /** Retries are invisible at the level of a whole run too. */
  lemma RunRetryIsTransparent(s: JobState, submit: Option<SubmitOutcome>, prefix: seq<FetchOutcome>, rest: seq<FetchOutcome>)
    requires AllStillComputing(prefix)
    ensures SingleRun(s, Replies(submit, prefix + rest)).state == SingleRun(s, Replies(submit, rest)).state
    ensures SingleRun(s, Replies(submit, prefix + rest)).settlement == SingleRun(s, Replies(submit, rest)).settlement
  {
    if submit.Some? && !SubmitFailure(submit.value) && submit.value.record.status != Some(DONE) {
      var record := submit.value.record;
      PollSkipsInProgress(Launch(s).(id := record.id, oid := record.id.analysisJobId), prefix, rest);
    }
  }

  // --------------------------------------------------------------------- batch

  /** The answers meant for the i-th submitted job; a job with none never hears back. */
  function ReplyFor(replies: seq<Replies>, i: nat): Replies {
    if i < |replies| then replies[i] else Replies(None, [])
  }

  function Settlements(runs: seq<Run>): (r: seq<Settlement>)
    ensures |r| == |runs| && forall i :: 0 <= i < |runs| ==> r[i] == runs[i].settlement
  {
    seq(|runs|, i requires 0 <= i < |runs| => runs[i].settlement)
  }

  function RunErrors(runs: seq<Run>): (r: seq<Option<ErrorValue>>)
    ensures |r| == |runs| && forall i :: 0 <= i < |runs| ==> r[i] == runs[i].state.error
  {
    seq(|runs|, i requires 0 <= i < |runs| => runs[i].state.error)
  }

  function StateErrors(states: seq<JobState>): (r: seq<Option<ErrorValue>>)
    ensures |r| == |states| && forall i :: 0 <= i < |states| ==> r[i] == states[i].error
  {
    seq(|states|, i requires 0 <= i < |states| => states[i].error)
  }

  /** The index of the first rejected observer, which is where `$.when` rejects. */
  function FirstRejected(ss: seq<Settlement>): (r: Option<nat>)
    ensures r.Some? ==> r.value < |ss| && ss[r.value] == Rejected && forall j :: 0 <= j < r.value ==> ss[j] != Rejected
    ensures r.None? ==> forall j :: 0 <= j < |ss| ==> ss[j] != Rejected
  {
    if ss == [] then None
    else if ss[0] == Rejected then Some(0)
    else match FirstRejected(ss[1..])
      case None => None
      case Some(k) => Some(k + 1)
  }

  predicate AllResolved(ss: seq<Settlement>) {
    forall i :: 0 <= i < |ss| ==> ss[i] == Resolved
  }

  /**
   * How many children (a prefix, in index order) have finished when the
   * combined promise settles: up to and including the first rejected one, or
   * all of them once all resolved; None while it is still pending.
   */
  function SettlePoint(ss: seq<Settlement>): Option<nat> {
    match FirstRejected(ss)
    case Some(k) => Some(k + 1)
    case None => if AllResolved(ss) then Some(|ss|) else None
  }

  /**
   * The `always` loop of `computeMultiAnalysis`: scanning the children's errors
   * in order, each truthy one overwrites the batch error.
   */
  function LastError(errors: seq<Option<ErrorValue>>, current: Option<ErrorValue>): Option<ErrorValue> {
    if errors == [] then current
    else if errors[|errors| - 1].Some? then errors[|errors| - 1]
    else LastError(errors[..|errors| - 1], current)
  }

  /**
   * The fold yields the last truthy error in index order, or the batch's own
   * error when no child has one; so it is absent only when both are.
   */
  lemma {:induction false} LastErrorIsLastTruthy(errors: seq<Option<ErrorValue>>, current: Option<ErrorValue>)
    ensures (forall j :: 0 <= j < |errors| ==> errors[j].None?) ==> LastError(errors, current) == current
    ensures forall j :: 0 <= j < |errors| && errors[j].Some? && (forall k :: j < k < |errors| ==> errors[k].None?) ==>
      LastError(errors, current) == errors[j]
    ensures LastError(errors, current).Some? <==> current.Some? || exists j :: 0 <= j < |errors| && errors[j].Some?
  {
    if errors != [] {
      var front := errors[..|errors| - 1];
      LastErrorIsLastTruthy(front, current);
      assert forall j :: 0 <= j < |front| ==> front[j] == errors[j];
    }
  }

  /**
   * A batch's outcome, given its error before the call, its children's errors
   * before the call and their runs. At the settle point n, children below n are
   * read as their runs left them and the rest as launched, which leaves their
   * old error.
   */
  function BatchAfter(batchError: Option<ErrorValue>, before: seq<Option<ErrorValue>>, runs: seq<Run>): BatchOutcome
    requires |before| == |runs|
  {
    match SettlePoint(Settlements(runs))
    case None => BatchOutcome(Some(RUNNING), batchError, false)
    case Some(n) =>
      BatchOutcome(Some(DONE), LastError(RunErrors(runs)[..n] + before[n..], batchError),
                   FirstRejected(Settlements(runs)).Some?)
  }

  /** `BatchAfter` recognised from its three cases. */
  lemma BatchAfterCases(batchError: Option<ErrorValue>, before: seq<Option<ErrorValue>>, runs: seq<Run>,
                        status: Option<string>, error: Option<ErrorValue>, failed: bool)
    requires |before| == |runs|
    requires FirstRejected(Settlements(runs)).Some? ==>
      && failed && status == Some(DONE)
      && error == LastError(SeenErrors(before, runs, FirstRejected(Settlements(runs)).value + 1), batchError)
    requires FirstRejected(Settlements(runs)).None? && AllResolved(Settlements(runs)) ==>
      !failed && status == Some(DONE) && error == LastError(RunErrors(runs) + before[|runs|..], batchError)
    requires FirstRejected(Settlements(runs)).None? && !AllResolved(Settlements(runs)) ==>
      !failed && status == Some(RUNNING) && error == batchError
    ensures BatchAfter(batchError, before, runs) == BatchOutcome(status, error, failed)
  {
    assert RunErrors(runs)[..|runs|] == RunErrors(runs);
  }

  /** The errors the fold reads when n children have finished. */
  function SeenErrors(before: seq<Option<ErrorValue>>, runs: seq<Run>, n: nat): seq<Option<ErrorValue>>
    requires |before| == |runs| && n <= |runs|
  {
    RunErrors(runs)[..n] + before[n..]
  }

  /**
   * A batch with a rejected child finishes DONE, marked failed, and its error is
   * the error of the last child in index order, up to the first rejected one,
   * that has an error, else of the last later child still carrying an old error;
   * in particular it is never absent. Children after the first rejected one are
   * read before their replies arrive.
   */
  lemma BatchRejection(batchError: Option<ErrorValue>, before: seq<Option<ErrorValue>>, runs: seq<Run>)
    requires |before| == |runs|
    requires forall i :: 0 <= i < |runs| && runs[i].settlement == Rejected ==> runs[i].state.error.Some?
    requires FirstRejected(Settlements(runs)).Some?
    ensures var k := FirstRejected(Settlements(runs)).value; var b := BatchAfter(batchError, before, runs);
      && b.status == Some(DONE) && b.failed && b.error.Some?
      && b.error == LastError(SeenErrors(before, runs, k + 1), batchError)
  {
    var k := FirstRejected(Settlements(runs)).value;
    var seen := SeenErrors(before, runs, k + 1);
    assert seen[k] == runs[k].state.error;
    LastErrorIsLastTruthy(seen, batchError);
  }

  /**
   * A batch whose children all resolved finishes DONE, not marked failed, and
   * keeps the error it had: resolved children carry no error.
   */
  lemma BatchAllResolved(batchError: Option<ErrorValue>, before: seq<Option<ErrorValue>>, runs: seq<Run>)
    requires |before| == |runs|
    requires forall i :: 0 <= i < |runs| && runs[i].settlement == Resolved ==> runs[i].state.error.None?
    requires AllResolved(Settlements(runs))
    ensures BatchAfter(batchError, before, runs) == BatchOutcome(Some(DONE), batchError, false)
  {
    var seen := SeenErrors(before, runs, |runs|);
    assert forall j :: 0 <= j < |seen| ==> seen[j] == runs[j].state.error;
    LastErrorIsLastTruthy(seen, batchError);
  }

  /** A batch with an unsettled child and no rejected one stays RUNNING with its error untouched. */
  lemma BatchPending(batchError: Option<ErrorValue>, before: seq<Option<ErrorValue>>, runs: seq<Run>)
    requires |before| == |runs|
    requires forall i :: 0 <= i < |runs| ==> runs[i].settlement != Rejected
    requires exists i :: 0 <= i < |runs| && runs[i].settlement == Pending
    ensures BatchAfter(batchError, before, runs) == BatchOutcome(Some(RUNNING), batchError, false)
  {
    var i :| 0 <= i < |runs| && runs[i].settlement == Pending;
    assert Settlements(runs)[i] == Pending;
  }

  /** The outcomes of the children of a batch, each computed from its own state before the call. */
  function BatchRuns(before: seq<JobState>, replies: seq<Replies>): (r: seq<Run>)
    ensures |r| == |before| && forall i :: 0 <= i < |before| ==> r[i] == SingleRun(before[i], ReplyFor(replies, i))
  {
    seq(|before|, i requires 0 <= i < |before| => SingleRun(before[i], ReplyFor(replies, i)))
  }

  /**
   * The batch as a whole: each child's run, and the batch outcome. Every child
   * of a batch that settled is settled up to its settle point, a batch with a
   * rejected child reports an error, and one whose children all resolved keeps
   * its error.
   */
  lemma BatchOutcomeSpec(batchError: Option<ErrorValue>, before: seq<JobState>, replies: seq<Replies>)
    ensures var runs := BatchRuns(before, replies); var b := BatchAfter(batchError, StateErrors(before), runs);
      && (IsDoneStatus(b.status) <==> SettlePoint(Settlements(runs)).Some?)
      && (b.failed ==> b.error.Some? && IsDoneStatus(b.status))
      && (AllResolved(Settlements(runs)) ==> b == BatchOutcome(Some(DONE), batchError, false))
  {
    var runs := BatchRuns(before, replies);
    forall i | 0 <= i < |runs|
      ensures runs[i].settlement == Rejected ==> runs[i].state.error.Some?
      ensures runs[i].settlement == Resolved ==> runs[i].state.error.None?
    {
      SettledIffDone(before[i], ReplyFor(replies, i));
    }
    if FirstRejected(Settlements(runs)).Some? {
      BatchRejection(batchError, StateErrors(before), runs);
    } else if AllResolved(Settlements(runs)) {
      BatchAllResolved(batchError, StateErrors(before), runs);
    }
  }
}

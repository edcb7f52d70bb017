/**
 * The `AnalysisJob` and `MultiAnalysisJob` models
 * (src/squid_api_analysisjob_controller.js, lines 33-120).
 *
 * A Backbone model is a bag of attributes; each attribute the controller
 * reads or writes becomes a field here. Payloads the client never
 * interprets (selections, result bodies, server errors) are opaque values.
 */
module Jobs {
  import opened Wrappers

  /** A JavaScript identifier value; `None` is null or undefined. */
  type Id = Option<string>

  /** JavaScript truthiness of an identifier: null, undefined and "" are falsy. */
  predicate Truthy(v: Id) {
    v.Some? && v.value != ""
  }

  const RUNNING: string := "RUNNING"
  const DONE: string := "DONE"

  /** The `id` attribute: the project and, once the service assigned one, the job. */
  datatype JobId = JobId(projectId: Id, analysisJobId: Id)

  datatype DomainRef = DomainRef(projectId: Id, domainId: string)
  datatype DimensionRef = DimensionRef(projectId: Id, domainId: string, dimensionId: string)
  datatype MetricRef = MetricRef(projectId: Id, domainId: string, metricId: string)

  /** A JSON body the client passes along without looking inside. */
  datatype Payload = Payload(json: string)

  /**
   * What ends up in a job's `error` attribute: the error object returned by the
   * service, the raw transport response of a failed request, or `{message: statusText}`.
   * Every one of them is a JavaScript object, hence truthy.
   */
  datatype ErrorValue =
    | ApiError(body: Payload)
    | HttpResponse(response: Payload)
    | StatusMessage(message: string)

  /** A snapshot of every attribute of an `AnalysisJob` that the controller touches. */
  datatype JobState = JobState(
    id: JobId,
    projectId: Id,           // the separate `projectId` attribute, a fallback at submission
    domains: seq<DomainRef>,
    dimensions: seq<DimensionRef>,
    metrics: seq<MetricRef>,
    selection: Option<Payload>,
    autoRun: Option<bool>,
    status: Option<string>,
    results: Option<Payload>,
    error: Option<ErrorValue>,
    oid: Id)

  /** The test behind both `isDone` methods. */
  predicate IsDoneStatus(status: Option<string>) {
    status == Some(DONE)
  }

  /** `index || 0`: a missing or zero index selects slot 0. */
  function SlotIndex(index: Option<nat>): nat {
    if index.Some? then index.value else 0
  }

  class AnalysisJob {
    var id: JobId
    var projectId: Id
    var domains: seq<DomainRef>
    var dimensions: seq<DimensionRef>
    var metrics: seq<MetricRef>
    var selection: Option<Payload>
    var autoRun: Option<bool>
    var status: Option<string>
    var results: Option<Payload>
    var error: Option<ErrorValue>
    var oid: Id
    /** The payloads of the `change:dimensions` events this job triggered, oldest first. */
    var dimensionEvents: seq<seq<DimensionRef>>

    function State(): JobState
      reads this
    {
      JobState(id, projectId, domains, dimensions, metrics, selection, autoRun, status, results, error, oid)
    }

    /** `isDone`: the job has finished, successfully or not. */
    predicate IsDone(): (r: bool)
      reads this
      ensures r <==> status == Some(DONE)
    {
      IsDoneStatus(status)
    }

    /**
     * `initialize`: the job starts in the process-wide project with no job id,
     * and on the process-wide domain when one is set.
     */
    constructor (globalProjectId: Id, globalDomainId: Id)
      ensures id == JobId(globalProjectId, None)
      ensures domains == if Truthy(globalDomainId) then [DomainRef(globalProjectId, globalDomainId.value)] else []
      ensures projectId == None && dimensions == [] && metrics == [] && selection == None && autoRun == None
      ensures status == None && results == None && error == None && oid == None && dimensionEvents == []
    {
      id := JobId(globalProjectId, None);
      projectId, dimensions, metrics, selection, autoRun := None, [], [], None, None;
      status, results, error, oid := None, None, None, None;
      dimensionEvents := [];
      domains := [];
      if Truthy(globalDomainId) {
        domains := [DomainRef(globalProjectId, globalDomainId.value)];
      }
    }

    /** Moves the job to another project and forgets its job id. */
    method SetProjectId(p: Id)
      modifies this
      ensures State() == old(State()).(id := JobId(p, None))
      ensures dimensionEvents == old(dimensionEvents)
    {
      id := JobId(p, None);
    }

    /** Entry k of the new domains is input k stamped with the project id. */
    method SetDomainIds(domainIds: seq<string>)
      modifies this
      ensures |domains| == |domainIds|
      ensures forall k :: 0 <= k < |domainIds| ==> domains[k] == DomainRef(id.projectId, domainIds[k])
      ensures State() == old(State()).(domains := domains)
      ensures dimensionEvents == old(dimensionEvents)
    {
      var refs: seq<DomainRef> := [];
      var i := 0;
      while i < |domainIds|
        invariant 0 <= i <= |domainIds|
        invariant |refs| == i
        invariant forall k :: 0 <= k < i ==> refs[k] == DomainRef(id.projectId, domainIds[k])
      {
        refs := refs + [DomainRef(id.projectId, domainIds[i])];
        i := i + 1;
      }
      domains := refs;
    }

    /**
     * Entry k of the new dimensions is input k stamped with the project id and
     * the first domain's id; one `change:dimensions` event carries the new list.
     * The first domain is only read when there is at least one input.
     */
    method SetDimensionIds(dimensionIds: seq<string>)
      requires |dimensionIds| > 0 ==> |domains| > 0
      modifies this
      ensures State() == old(State()).(dimensions := dimensions)
      ensures |dimensions| == |dimensionIds|
      ensures forall k :: 0 <= k < |dimensionIds| ==>
        dimensions[k] == DimensionRef(id.projectId, domains[0].domainId, dimensionIds[k])
      ensures dimensionEvents == old(dimensionEvents) + [dimensions]
    {
      var refs: seq<DimensionRef> := [];
      var i := 0;
      while i < |dimensionIds|
        invariant 0 <= i <= |dimensionIds|
        invariant |refs| == i
        invariant forall k :: 0 <= k < i ==> refs[k] == DimensionRef(id.projectId, domains[0].domainId, dimensionIds[k])
      {
        refs := refs + [DimensionRef(id.projectId, domains[0].domainId, dimensionIds[i])];
        i := i + 1;
      }
      dimensions := refs;
      dimensionEvents := dimensionEvents + [refs];
    }

    /**
     * Writes the one dimension at `index` (slot 0 when the index is missing or
     * zero) and triggers one `change:dimensions` event. Writing the slot just
     * past the end appends, as assignment to an array's length index does.
     */
    method SetDimensionId(dimensionId: string, index: Option<nat>)
      requires |domains| > 0
      requires SlotIndex(index) <= |dimensions|
      modifies this
      ensures State() == old(State()).(dimensions := dimensions)
      ensures |dimensions| == if SlotIndex(index) == old(|dimensions|) then old(|dimensions|) + 1 else old(|dimensions|)
      ensures dimensions[SlotIndex(index)] == DimensionRef(id.projectId, domains[0].domainId, dimensionId)
      ensures forall k :: 0 <= k < old(|dimensions|) && k != SlotIndex(index) ==> dimensions[k] == old(dimensions[k])
      ensures dimensionEvents == old(dimensionEvents) + [dimensions]
    {
      var slot := SlotIndex(index);
      var ref := DimensionRef(id.projectId, domains[0].domainId, dimensionId);
      if slot == |dimensions| {
        dimensions := dimensions + [ref];
      } else {
        dimensions := dimensions[slot := ref];
      }
      dimensionEvents := dimensionEvents + [dimensions];
    }

    /** Entry k of the new metrics is input k stamped with the project id and the first domain's id. */
    method SetMetricIds(metricIds: seq<string>)
      requires |metricIds| > 0 ==> |domains| > 0
      modifies this
      ensures State() == old(State()).(metrics := metrics)
      ensures |metrics| == |metricIds|
      ensures forall k :: 0 <= k < |metricIds| ==>
        metrics[k] == MetricRef(id.projectId, domains[0].domainId, metricIds[k])
      ensures dimensionEvents == old(dimensionEvents)
    {
      var refs: seq<MetricRef> := [];
      var i := 0;
      while i < |metricIds|
        invariant 0 <= i <= |metricIds|
        invariant |refs| == i
        invariant forall k :: 0 <= k < i ==> refs[k] == MetricRef(id.projectId, domains[0].domainId, metricIds[k])
      {
        refs := refs + [MetricRef(id.projectId, domains[0].domainId, metricIds[i])];
        i := i + 1;
      }
      metrics := refs;
    }

    method SetSelection(s: Option<Payload>)
      modifies this
      ensures State() == old(State()).(selection := s)
      ensures dimensionEvents == old(dimensionEvents)
    {
      selection := s;
    }
  }

  /** A batch: its `analyses` children and the status and error derived from them. */
  class MultiAnalysisJob {
    var analyses: seq<AnalysisJob>
    var status: Option<string>
    var error: Option<ErrorValue>

    constructor (children: seq<AnalysisJob>)
      ensures analyses == children && status == None && error == None
    {
      analyses, status, error := children, None, None;
    }

    /** `isDone`: the job has finished, successfully or not. */
    predicate IsDone(): (r: bool)
      reads this
      ensures r <==> status == Some(DONE)
    {
      IsDoneStatus(status)
    }
  }
}

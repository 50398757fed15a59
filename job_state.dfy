/**
 * The global job state of an import recordset (`_get_global_state`): the
 * recordset's own job and the jobs of its `import.record` children, in
 * `record_ids` order, summarised as one queue-job state.
 */
module JobStates {
  import opened Wrappers

  /** The queue-job lifecycle states; only `Done` is singled out by the recordset. */
  datatype JobState = Pending | Enqueued | Started | Done | Failed

  /** A queued job, as far as the recordset reads it. */
  datatype Job = Job(state: JobState)

  /** An `import.record` child of a recordset; `job == None` when no job is linked. */
  datatype ImportRecord = ImportRecord(job: Option<Job>)

  /** A child that cannot hold the recordset back: it has no job, or its job is done. */
  predicate Settled(r: ImportRecord) {
    r.job.None? || r.job.value.state == Done
  }

  /** The index of the first child, in order, whose job exists and is not done. */
  function FirstUnsettled(records: seq<ImportRecord>): (r: Option<nat>)
    ensures r.None? ==> forall k :: 0 <= k < |records| ==> Settled(records[k])
    ensures r.Some? ==> r.value < |records| && !Settled(records[r.value])
    ensures r.Some? ==> forall k :: 0 <= k < r.value ==> Settled(records[k])
  {
    if records == [] then None
    else if !Settled(records[0]) then Some(0)
    else
      match FirstUnsettled(records[1..])
      case None => None
      case Some(i) => Some(i + 1)
  }

  /**
   * The global state: `Done` without a job of the recordset's own, otherwise
   * the state of the first unsettled child, otherwise `Done`.
   */
  function GlobalState(job: Option<Job>, records: seq<ImportRecord>): (s: JobState)
    ensures job.None? ==> s == Done
    ensures s != Done <==> job.Some? && exists k :: 0 <= k < |records| && !Settled(records[k])
  {
    if job.None? then Done
    else
      match FirstUnsettled(records)
      case None => Done
      case Some(i) => records[i].job.value.state
  }

  /**
   * With a job of its own and every child settled (no children at all
   * included), the recordset is done.
   */
  lemma AllSettledIsDone(job: Job, records: seq<ImportRecord>)
    requires forall k :: 0 <= k < |records| ==> Settled(records[k])
    ensures GlobalState(Some(job), records) == Done
  {
  }

  /**
   * The first child, in order, whose job exists and is not done decides the
   * global state; children before it are settled, and nothing after it matters.
   */
  lemma FirstUnsettledDecides(job: Job, records: seq<ImportRecord>, i: nat)
    requires i < |records| && !Settled(records[i])
    requires forall k :: 0 <= k < i ==> Settled(records[k])
    ensures GlobalState(Some(job), records) == records[i].job.value.state
  {
  }

  /**
   * The scan stops at the first unsettled child: children appended after it
   * never change the global state.
   */
  lemma LaterRecordsIgnored(job: Option<Job>, inspected: seq<ImportRecord>, later: seq<ImportRecord>)
    requires exists k :: 0 <= k < |inspected| && !Settled(inspected[k])
    ensures GlobalState(job, inspected + later) == GlobalState(job, inspected)
  {
    if job.Some? {
      var i := FirstUnsettled(inspected).value;
      var all := inspected + later;
      assert forall k :: 0 <= k < i ==> all[k] == inspected[k];
      FirstUnsettledDecides(job.value, all, i);
      FirstUnsettledDecides(job.value, inspected, i);
    }
  }

  /** Order matters: [done, started, failed] is started, [done, failed, started] is failed. */
  lemma OrderSensitivity(job: Job)
    ensures GlobalState(Some(job), [ImportRecord(Some(Job(Done))), ImportRecord(Some(Job(Started))), ImportRecord(Some(Job(Failed)))]) == Started
    ensures GlobalState(Some(job), [ImportRecord(Some(Job(Done))), ImportRecord(Some(Job(Failed))), ImportRecord(Some(Job(Started)))]) == Failed
  {
    var a := [ImportRecord(Some(Job(Done))), ImportRecord(Some(Job(Started))), ImportRecord(Some(Job(Failed)))];
    var b := [ImportRecord(Some(Job(Done))), ImportRecord(Some(Job(Failed))), ImportRecord(Some(Job(Started)))];
    FirstUnsettledDecides(job, a, 1);
    FirstUnsettledDecides(job, b, 1);
  }
}

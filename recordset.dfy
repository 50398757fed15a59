/**
 * An import recordset (`import.recordset`): its own job, its `import.record`
 * children in `record_ids` order, and the import report kept in `jsondata`.
 */
module RecordSets {
  import opened Wrappers
  import Json
  import opened JobStates
  import opened Reports

  class RecordSet {
    /** The recordset's own queued job, if one is linked. */
    var job: Option<Job>
    /** The `import.record` children, in `record_ids` order. */
    var records: seq<ImportRecord>
    /** The stored report; `None` while the field is empty. */
    var jsondata: Option<Report>

    constructor (job: Option<Job>, records: seq<ImportRecord>)
      ensures this.job == job && this.records == records && jsondata.None?
    {
      this.job := job;
      this.records := records;
      jsondata := None;
    }

    /** `get_report`: the stored report, or the empty report when nothing is stored. */
    function GetReport(): (r: Report)
      reads this
      ensures jsondata.None? ==> r == map[]
      ensures jsondata.Some? ==> r == jsondata.value
    {
      jsondata.GetOr(map[])
    }

    /**
     * `set_report`: store `values` alone on a reset, otherwise the current
     * report updated by `values`.
     */
    method SetReport(values: Report, reset: bool)
      modifies this`jsondata
      ensures jsondata == Some(Updated(old(GetReport()), values, reset))
      ensures reset ==> GetReport() == values
      ensures !reset ==> GetReport().Keys == old(GetReport()).Keys + values.Keys
    {
      var current: Report;
      if reset {
        current := map[];
      } else {
        current := GetReport();
      }
      current := current + values;
      assert reset ==> current == values;
      jsondata := Some(current);
    }

    /**
     * `_get_global_state`: scan the children in order and stop at the first
     * whose job exists and is not done.
     */
    method GlobalJobState() returns (state: JobState)
      ensures state == GlobalState(job, records)
    {
      if job.None? {
        return Done;
      }
      state := Done;
      var i := 0;
      while i < |records|
        invariant 0 <= i <= |records|
        invariant state == Done
        invariant forall k :: 0 <= k < i ==> Settled(records[k])
      {
        var item := records[i];
        if item.job.None? {
          i := i + 1;
          continue;
        }
        if item.job.value.state != Done {
          state := item.job.value.state;
          FirstUnsettledDecides(job.value, records, i);
          break;
        }
        i := i + 1;
      }
    }

    /**
     * The data step of `_compute_report_html`: take `_last_start` out of the
     * report, then for each model in `models` count the items under each of
     * its outcome keys.
     */
    method ReportSummary(models: seq<string>) returns (r: Result<Summary, ReportError>)
      ensures r == Summarize(jsondata, models)
    {
      if jsondata.None? {
        return Ok(NotRendered);
      }
      var report := jsondata.value;
      if LastStartKey !in report {
        return Err(MissingLastStart);
      }
      var lastStart := report[LastStartKey];
      report := report - {LastStartKey};
      var byModel: seq<Entry> := [];
      var i := 0;
      while i < |models|
        invariant 0 <= i <= |models|
        invariant ByModel(report, models[..i]) == Ok(byModel)
      {
        var model := models[i];
        ByModelStep(report, models, i);
        var counts := CountOutcomes(model, Bucket(report, model));
        if counts.Err? {
          ByModelFailureSticks(report, models, i + 1);
          return Err(counts.error);
        }
        byModel := Put(byModel, model, counts.value);
        i := i + 1;
      }
      assert models[..i] == models;
      r := Ok(Rendered(lastStart, byModel));
    }
  }

  /**
   * The inner loop of `_compute_report_html`: each outcome key of one
   * model's bucket to the length of its list.
   */
  method CountOutcomes(model: string, bucket: Json.Value) returns (r: Result<Counts, ReportError>)
    ensures r == OutcomeCounts(model, bucket)
  {
    if !bucket.Object? {
      return Err(NotAMapping(model));
    }
    var counts: Counts := map[];
    var pending := bucket.fields.Keys;
    while pending != {}
      invariant pending <= bucket.fields.Keys
      invariant counts.Keys == bucket.fields.Keys - pending
      invariant forall k :: k in counts ==> Json.Len(bucket.fields[k]) == Some(counts[k])
      decreases pending
    {
      var k :| k in pending;
      var n := Json.Len(bucket.fields[k]);
      if n.None? {
        return Err(WithoutLength(model));
      }
      counts := counts[k := n.value];
      pending := pending - {k};
    }
    assert Countable(bucket);
    assert counts == OutcomeCounts(model, bucket).value;
    return Ok(counts);
  }

  /** Reports written one after another, as the import jobs write them. */
  method ReportWritesScenario() {
    var rs := new RecordSet(Some(Job(Started)), []);
    assert rs.GetReport() == map[];
    rs.SetReport(map["a" := Json.Number(1)], false);
    rs.SetReport(map["b" := Json.Number(2)], false);
    assert rs.GetReport() == map["a" := Json.Number(1), "b" := Json.Number(2)];
    rs.SetReport(map["a" := Json.Number(2)], true);
    assert rs.GetReport() == map["a" := Json.Number(2)];
    rs.SetReport(map[], true);
    assert rs.GetReport() == map[];
  }
}

/**
 * The import report of a recordset: the shallow merge `set_report` applies,
 * and the per-model outcome counts `_compute_report_html` hands to its
 * template.
 */
module Reports {
  import opened Wrappers
  import Json

  /** The decoded report: a JSON object, string keys to JSON values. */
  type Report = map<string, Json.Value>

  /** The reserved key holding the start of the last run. */
  const LastStartKey: string := "_last_start"

  // ---------------------------------------------------------------------
  // Writing the report
  // ---------------------------------------------------------------------

  /**
   * The report `set_report(values, reset)` stores over `current`: `values`
   * alone on a reset, otherwise `current` updated in place by `values`.
   */
  function Updated(current: Report, values: Report, reset: bool): (r: Report)
    ensures r.Keys == values.Keys + (if reset then {} else current.Keys)
    ensures forall k :: k in values ==> r[k] == values[k]
    ensures !reset ==> forall k :: k in current && k !in values ==> r[k] == current[k]
  {
    if reset then values else current + values
  }

  /** Merging onto an empty report is the same as a reset. */
  lemma MergeOntoEmptyIsReset(values: Report)
    ensures Updated(map[], values, false) == Updated(map[], values, true)
  {
  }

  /** Two merges in a row merge the union of both writes, the later one winning. */
  lemma MergesAccumulate(current: Report, first: Report, second: Report)
    ensures Updated(Updated(current, first, false), second, false)
         == Updated(current, Updated(first, second, false), false)
  {
  }

  /** A reset forgets everything written before it. */
  lemma ResetForgets(current: Report, first: Report, reset: bool, second: Report)
    ensures Updated(Updated(current, first, reset), second, true) == second
  {
  }

  /** Merging the same values twice is merging them once. */
  lemma MergeIdempotent(current: Report, values: Report)
    ensures Updated(Updated(current, values, false), values, false) == Updated(current, values, false)
  {
  }

  // ---------------------------------------------------------------------
  // Counting outcomes by model
  // ---------------------------------------------------------------------

  /** Outcome key (created, updated, skipped, ...) to the number of items under it. */
  type Counts = map<string, nat>

  /** One entry of the ordered per-model view. */
  type Entry = (string, Counts)

  /** Why building the view raises. */
  datatype ReportError =
    | MissingLastStart          // `report.pop('_last_start')` on a report without that key
    | NotAMapping(model: string)    // `report[model]` has no `iteritems`
    | WithoutLength(model: string)  // some outcome of `report[model]` has no `len`

  /** What `_compute_report_html` renders: nothing when no report is stored. */
  datatype Summary =
    | NotRendered
    | Rendered(lastStart: Json.Value, byModel: seq<Entry>)

  /** `report.get(model, {})`. */
  function Bucket(report: Report, model: string): (r: Json.Value)
    ensures model in report ==> r == report[model]
    ensures model !in report ==> r == Json.Object(map[])
  {
    if model in report then report[model] else Json.Object(map[])
  }

  /** Every outcome of `bucket` has a length. */
  predicate Countable(bucket: Json.Value)
    requires bucket.Object?
  {
    forall k :: k in bucket.fields ==> Json.Len(bucket.fields[k]).Some?
  }

  /** The outcome counts of one model's bucket: each outcome key to the length of its list. */
  function OutcomeCounts(model: string, bucket: Json.Value): (r: Result<Counts, ReportError>)
    ensures r.Ok? <==> bucket.Object? && Countable(bucket)
    ensures !bucket.Object? ==> r == Err(NotAMapping(model))
    ensures bucket.Object? && !Countable(bucket) ==> r == Err(WithoutLength(model))
    ensures r.Ok? ==> r.value.Keys == bucket.fields.Keys
    ensures r.Ok? ==> forall k :: k in r.value ==> Json.Len(bucket.fields[k]) == Some(r.value[k])
  {
    if !bucket.Object? then Err(NotAMapping(model))
    else if !Countable(bucket) then Err(WithoutLength(model))
    else Ok(map k | k in bucket.fields :: Json.Len(bucket.fields[k]).value)
  }

  /** The keys of an ordered mapping, in order. */
  function EntryKeys(od: seq<Entry>): (ks: seq<string>)
    ensures |ks| == |od|
    ensures forall i :: 0 <= i < |od| ==> ks[i] == od[i].0
  {
    if od == [] then [] else [od[0].0] + EntryKeys(od[1..])
  }

  /** The value an ordered mapping holds for `key`, if any. */
  function Lookup(od: seq<Entry>, key: string): Option<Counts> {
    if od == [] then None
    else if od[0].0 == key then Some(od[0].1)
    else Lookup(od[1..], key)
  }

  /**
   * `od[key] = value` on an `OrderedDict`: a key already present keeps its
   * position and takes the new value; a new key goes last.
   */
  function Put(od: seq<Entry>, key: string, value: Counts): (r: seq<Entry>)
    ensures EntryKeys(r) == if key in EntryKeys(od) then EntryKeys(od) else EntryKeys(od) + [key]
    ensures Lookup(r, key) == Some(value)
    ensures forall other :: other != key ==> Lookup(r, other) == Lookup(od, other)
  {
    if od == [] then [(key, value)]
    else if od[0].0 == key then [(key, value)] + od[1..]
    else
      assert EntryKeys(od) == [od[0].0] + EntryKeys(od[1..]);
      [od[0]] + Put(od[1..], key, value)
  }

  /** The distinct elements of `s`, each where it first occurs. */
  function Dedup(s: seq<string>): (r: seq<string>)
    ensures forall x :: x in r <==> x in s
    ensures forall i, j :: 0 <= i < j < |r| ==> r[i] != r[j]
  {
    if s == [] then []
    else
      var d := Dedup(s[..|s| - 1]);
      if s[|s| - 1] in d then d else d + [s[|s| - 1]]
  }

  /**
   * The per-model loop: for each model in the caller's order, put the
   * outcome counts of its bucket in the ordered view; the first model whose
   * bucket cannot be counted stops it, with that model's error.
   */
  function ByModel(report: Report, models: seq<string>): (r: Result<seq<Entry>, ReportError>)
    ensures r.Ok? ==> forall k :: 0 <= k < |models| ==> OutcomeCounts(models[k], Bucket(report, models[k])).Ok?
    ensures r.Err? ==> exists i :: FirstFailure(report, models, i, r.error)
  {
    if models == [] then Ok([])
    else
      var init := models[..|models| - 1];
      var model := models[|models| - 1];
      assert forall k :: 0 <= k < |init| ==> models[k] == init[k];
      match ByModel(report, init)
      case Err(e) =>
        assert exists i :: FirstFailure(report, models, i, e) by {
          var i :| FirstFailure(report, init, i, e);
          assert FirstFailure(report, models, i, e);
        }
        Err(e)
      case Ok(view) =>
        match OutcomeCounts(model, Bucket(report, model))
        case Err(e) =>
          assert FirstFailure(report, models, |models| - 1, e) by {
            assert forall k :: 0 <= k < |init| ==> OutcomeCounts(init[k], Bucket(report, init[k])).Ok?;
          }
          Err(e)
        case Ok(counts) =>
          assert forall k :: 0 <= k < |init| ==> OutcomeCounts(init[k], Bucket(report, init[k])).Ok?;
          Ok(Put(view, model, counts))
  }

  /**
   * `models[i]` is the first model, in order, whose bucket cannot be counted,
   * and counting it fails with `error`.
   */
  ghost predicate FirstFailure(report: Report, models: seq<string>, i: int, error: ReportError) {
    && 0 <= i < |models|
    && OutcomeCounts(models[i], Bucket(report, models[i])) == Err(error)
    && forall k :: 0 <= k < i ==> OutcomeCounts(models[k], Bucket(report, models[k])).Ok?
  }

  /**
   * The view succeeds exactly when every listed model's bucket can be
   * counted; it then lists each model once, where it first occurs, with the
   * counts of its bucket, and holds nothing else.
   */
  lemma {:induction false} ByModelShape(report: Report, models: seq<string>)
    ensures ByModel(report, models).Ok?
        <==> forall m :: m in models ==> OutcomeCounts(m, Bucket(report, m)).Ok?
    ensures ByModel(report, models).Ok? ==>
      && EntryKeys(ByModel(report, models).value) == Dedup(models)
      && (forall m :: m in models ==>
            Lookup(ByModel(report, models).value, m) == Some(OutcomeCounts(m, Bucket(report, m)).value))
      && (forall m :: m !in models ==> Lookup(ByModel(report, models).value, m) == None)
  {
    if models != [] {
      var init := models[..|models| - 1];
      var last := models[|models| - 1];
      assert models == init + [last];
      assert forall m :: m in models <==> m in init || m == last;
      ByModelShape(report, init);
    }
  }

  /** A model the report has never seen still gets an entry, with no outcomes. */
  lemma AbsentModelCountsNothing(report: Report, models: seq<string>, model: string)
    requires model in models && model !in report
    requires ByModel(report, models).Ok?
    ensures Lookup(ByModel(report, models).value, model) == Some(map[])
  {
    ByModelShape(report, models);
  }

  /** One more turn of the per-model loop, after the first `i` models went through. */
  lemma ByModelStep(report: Report, models: seq<string>, i: nat)
    requires i < |models| && ByModel(report, models[..i]).Ok?
    ensures var counts := OutcomeCounts(models[i], Bucket(report, models[i]));
      ByModel(report, models[..i + 1])
        == if counts.Err? then Err(counts.error)
           else Ok(Put(ByModel(report, models[..i]).value, models[i], counts.value))
  {
    assert models[..i + 1][..i] == models[..i];
  }

  /** A failure on some prefix of the models is the failure of the whole loop. */
  lemma {:induction false} ByModelFailureSticks(report: Report, models: seq<string>, n: nat)
    requires n <= |models|
    requires ByModel(report, models[..n]).Err?
    ensures ByModel(report, models) == ByModel(report, models[..n])
  {
    if n < |models| {
      var init := models[..|models| - 1];
      assert init[..n] == models[..n];
      ByModelFailureSticks(report, init, n);
    } else {
      assert models[..n] == models;
    }
  }

  /**
   * What `_compute_report_html` hands to its template: nothing without a
   * stored report; otherwise `_last_start` taken out of the report and the
   * per-model counts of what is left.
   */
  function Summarize(jsondata: Option<Report>, models: seq<string>): (r: Result<Summary, ReportError>)
    ensures jsondata.None? ==> r == Ok(NotRendered)
    ensures jsondata.Some? && LastStartKey !in jsondata.value ==> r == Err(MissingLastStart)
    ensures r.Ok? && r.value.Rendered? ==>
      && jsondata.Some?
      && r.value.lastStart == jsondata.value[LastStartKey]
      && EntryKeys(r.value.byModel) == Dedup(models)
    ensures jsondata.Some? && LastStartKey in jsondata.value ==>
      (r.Ok? <==> forall m :: m in models ==> OutcomeCounts(m, Bucket(jsondata.value - {LastStartKey}, m)).Ok?)
    ensures r.Ok? && r.value.Rendered? ==>
      forall m :: m in models ==>
        && OutcomeCounts(m, Bucket(jsondata.value - {LastStartKey}, m)).Ok?
        && Lookup(r.value.byModel, m) == Some(OutcomeCounts(m, Bucket(jsondata.value - {LastStartKey}, m)).value)
    ensures jsondata.Some? && r.Ok? ==> r.value.Rendered?
    ensures jsondata.Some? && LastStartKey in jsondata.value && r.Err? ==>
      exists i :: FirstFailure(jsondata.value - {LastStartKey}, models, i, r.error)
  {
    if jsondata.None? then Ok(NotRendered)
    else if LastStartKey !in jsondata.value then Err(MissingLastStart)
    else
      var report := jsondata.value;
      var rest := report - {LastStartKey};
      ByModelShape(rest, models);
      var byModel :- ByModel(rest, models);
      Ok(Rendered(report[LastStartKey], byModel))
  }

  /**
   * With distinct models, the view has exactly one entry per model, in the
   * caller's order, each holding the lengths of that model's outcome lists.
   */
  lemma DistinctModelsInOrder(report: Report, models: seq<string>, i: nat)
    requires forall a, b :: 0 <= a < b < |models| ==> models[a] != models[b]
    requires ByModel(report, models).Ok? && i < |models|
    ensures |ByModel(report, models).value| == |models|
    ensures ByModel(report, models).value[i].0 == models[i]
    ensures OutcomeCounts(models[i], Bucket(report, models[i])).Ok?
    ensures ByModel(report, models).value[i].1 == OutcomeCounts(models[i], Bucket(report, models[i])).value
  {
    ByModelShape(report, models);
    DedupOfDistinct(models);
    LookupDistinct(ByModel(report, models).value, i);
  }

  /**
   * First-occurrence order: deduplicating a prefix of `s` gives a prefix of
   * `Dedup(s)`, so the elements first met earlier in `s` come earlier.
   */
  lemma {:induction false} DedupKeepsFirstOccurrenceOrder(s: seq<string>, n: nat)
    requires n <= |s|
    ensures Dedup(s[..n]) <= Dedup(s)
  {
    if n < |s| {
      var init := s[..|s| - 1];
      assert init[..n] == s[..n];
      DedupKeepsFirstOccurrenceOrder(init, n);
    } else {
      assert s[..n] == s;
    }
  }

  /** Without repeats, deduplication changes nothing. */
  lemma {:induction false} DedupOfDistinct(s: seq<string>)
    requires forall a, b :: 0 <= a < b < |s| ==> s[a] != s[b]
    ensures Dedup(s) == s
  {
    if s != [] {
      DedupOfDistinct(s[..|s| - 1]);
      assert s[|s| - 1] !in s[..|s| - 1];
      assert s[..|s| - 1] + [s[|s| - 1]] == s;
    }
  }

  /** In an ordered mapping with distinct keys, looking up the key at `i` finds entry `i`. */
  lemma {:induction false} LookupDistinct(od: seq<Entry>, i: nat)
    requires forall a, b :: 0 <= a < b < |od| ==> EntryKeys(od)[a] != EntryKeys(od)[b]
    requires i < |od|
    ensures Lookup(od, od[i].0) == Some(od[i].1)
  {
    if i > 0 {
      assert EntryKeys(od)[0] != EntryKeys(od)[i];
      var tail := od[1..];
      forall a, b | 0 <= a < b < |tail|
        ensures EntryKeys(tail)[a] != EntryKeys(tail)[b]
      {
        assert EntryKeys(od)[a + 1] != EntryKeys(od)[b + 1];
      }
      LookupDistinct(tail, i - 1);
    }
  }
}

// The client-side API layer: the normaliser that turns a session's raw data
// DNA (snake_case, as produced by the Python service) into the camelCase
// DataDNA the UI stores, the poll loop that waits for a session to become
// ready, and the line-buffered decoder of the chat event stream. Network
// calls are inputs: each poll's outcome is given by its index, and the
// stream by the text chunks it delivers.
module Backend {
  import opened Wrappers
  import opened Json
  import Text

  // ---------------------------------------------------------------------
  // formatSessionToDataDNA
  // ---------------------------------------------------------------------

  /** A normalised record: its fields in declaration order, each holding a
    * value or `undefined`. */
  type Record = seq<(string, Option<Json>)>

  /** The missing-data summary carries a list of records of its own. */
  datatype MissingSummary = MissingSummary(fields: Record, coMissingPairs: seq<Record>)

  datatype DataDNA = DataDNA(
    filename: Option<Json>,
    rowCount: Json,
    columnCount: Json,
    uploadDate: Option<Json>,
    health: Option<Record>,
    missingSummary: Option<MissingSummary>,
    columns: seq<Record>,
    outlierSummary: seq<Record>,
    correlations: seq<Record>,
    segmentBreakdown: seq<Record>,
    datetimeInfo: Option<Record>,
    baselines: Obj,
    patterns: Json,
    insights: Json,
    accumulatedInsights: Json)

  const NotAnArray := "map is not a function"

  /** Copies each snake_case field of `src` under its camelCase name. */
  function Rename(src: Json, table: seq<(string, string)>): (r: Record)
    ensures |r| == |table|
    ensures forall i | 0 <= i < |table| :: r[i] == (table[i].0, Get(Some(src), table[i].1))
  {
    seq(|table|, i requires 0 <= i < |table| => (table[i].0, Get(Some(src), table[i].1)))
  }

  /** Fields written `src.x || <default>`: never undefined. */
  function Defaulted(src: Json, table: seq<(string, string, Json)>): (r: Record)
    ensures |r| == |table|
    ensures forall i | 0 <= i < |table| :: r[i].0 == table[i].0 && r[i].1.Some?
    ensures forall i | 0 <= i < |table| ::
              TruthyOpt(Get(Some(src), table[i].1)) ==> r[i].1 == Get(Some(src), table[i].1)
    ensures forall i | 0 <= i < |table| ::
              !TruthyOpt(Get(Some(src), table[i].1)) ==> r[i].1 == Some(table[i].2)
  {
    seq(|table|, i requires 0 <= i < |table| => (table[i].0, Some(Or(Get(Some(src), table[i].1), table[i].2))))
  }

  const HealthFields := [("score", "score"), ("grade", "grade"), ("completeness", "completeness"),
                         ("duplicateRows", "duplicate_rows"), ("duplicatePct", "duplicate_pct"),
                         ("missingCells", "missing_cells")]
  const HealthLists := [("constantCols", "constant_cols", JArr([])), ("allNullCols", "all_null_cols", JArr([])),
                        ("highMissingCols", "high_missing_cols", JArr([])), ("missingByCol", "missing_by_col", JObj([]))]
  const MissingFields := [("hasMissing", "has_missing"), ("affectedColumns", "affected_columns"),
                          ("affectedRows", "affected_rows"), ("affectedRowsPct", "affected_rows_pct"),
                          ("fullyEmptyRows", "fully_empty_rows")]
  const PairFields := [("colA", "col_a"), ("colB", "col_b"), ("coMissingCount", "co_missing_count")]
  const ColumnHead := [("name", "name"), ("type", "type"), ("dtype", "dtype")]
  const ColumnCounts := [("uniqueCount", "unique_count"), ("outlierCount", "outlier_count_iqr")]
  const ColumnStats := [("mean", "mean"), ("median", "median"), ("std", "std"), ("min", "min"), ("max", "max"),
                        ("iqr", "iqr"), ("skewness", "skewness"), ("kurtosis", "kurtosis"),
                        ("zerosPct", "zeros_pct"), ("outlierPct", "outlier_pct"),
                        ("outlierCountIqr", "outlier_count_iqr"), ("topValues", "top_values"),
                        ("topValuePct", "top_value_pct"), ("entropy", "entropy"),
                        ("isDominated", "is_dominated"), ("rareValues", "rare_values"),
                        ("minDate", "min_date"), ("maxDate", "max_date"), ("spanDays", "span_days"),
                        ("peakHour", "peak_hour"), ("peakDay", "peak_day"), ("medianGapDays", "median_gap_days")]
  const OutlierFields := [("column", "column"), ("iqrOutliers", "iqr_outliers"), ("iqrOutlierPct", "iqr_outlier_pct"),
                          ("extremeOutliers", "extreme_outliers"), ("lowerFence", "lower_fence"),
                          ("upperFence", "upper_fence"), ("minOutlier", "min_outlier"), ("maxOutlier", "max_outlier")]
  const CorrelationFields := [("colA", "col_a"), ("colB", "col_b"), ("strength", "strength"),
                              ("pearsonR", "pearson_r"), ("spearmanR", "spearman_r"),
                              ("direction", "direction"), ("nonlinear", "nonlinear")]
  const SegmentFields := [("dimension", "dimension"), ("metric", "metric"), ("data", "data")]
  const DatetimeFields := [("column", "column"), ("peakHour", "peak_hour"), ("peakDay", "peak_day"),
                           ("peakMonth", "peak_month"), ("spanDays", "span_days"),
                           ("businessHoursPct", "business_hours_pct"),
                           ("hourDistribution", "hour_distribution"), ("dayDistribution", "day_distribution")]

  /** `Object.keys(v)` of a truthy value that is not an array: an object's
    * member names, a string's indices, nothing for a number or boolean. */
  function ObjectKeys(v: Json): (ks: seq<string>)
  {
    match v
    case JObj(m) => Keys(m)
    case JStr(s) => seq(|s|, i requires 0 <= i < |s| => Text.NatToString(i))
    case _ => []
  }

  function Strings(ks: seq<string>): (r: seq<Json>)
    ensures |r| == |ks| && forall i | 0 <= i < |ks| :: r[i] == JStr(ks[i])
  {
    seq(|ks|, i requires 0 <= i < |ks| => JStr(ks[i]))
  }

  function Take3<T>(s: seq<T>): (r: seq<T>)
    ensures |r| <= 3 && |r| <= |s| && r == s[..|r|]
    ensures |r| == if |s| < 3 then |s| else 3
  {
    if |s| < 3 then s else s[..3]
  }

  /** A column's sample values: up to three top values (or their keys), else
    * min, mean and max as strings when a minimum is defined, else none. */
  function SampleValues(col: Json): (r: seq<Json>)
    ensures var top := Get(Some(col), "top_values");
            && (TruthyOpt(top) && top.value.JArr? ==> r == Take3(top.value.items))
            && (TruthyOpt(top) && !top.value.JArr? ==> r == Strings(Take3(ObjectKeys(top.value))))
            && (!TruthyOpt(top) && Get(Some(col), "min").Some? ==>
                  r == [JStr(Display(Get(Some(col), "min"))), JStr(Display(Get(Some(col), "mean"))),
                        JStr(Display(Get(Some(col), "max")))])
            && (!TruthyOpt(top) && Get(Some(col), "min").None? ==> r == [])
    ensures |r| <= 3
  {
    var top := Get(Some(col), "top_values");
    if TruthyOpt(top) then
      if top.value.JArr? then Take3(top.value.items) else Strings(Take3(ObjectKeys(top.value)))
    else if Get(Some(col), "min").Some? then
      [JStr(Display(Get(Some(col), "min"))), JStr(Display(Get(Some(col), "mean"))),
       JStr(Display(Get(Some(col), "max")))]
    else []
  }

  /** One normalised column. */
  function ColumnRecord(col: Json): (r: Record)
    ensures |r| == |ColumnHead| + 1 + |ColumnCounts| + 1 + |ColumnStats|
    ensures r[3] == ("nullPercentage", Some(Or(Get(Some(col), "null_pct"), JNum(0))))
    ensures r[6] == ("sampleValues", Some(JArr(SampleValues(col))))
  {
    Rename(col, ColumnHead) + [("nullPercentage", Some(Or(Get(Some(col), "null_pct"), JNum(0))))]
    + Rename(col, ColumnCounts) + [("sampleValues", Some(JArr(SampleValues(col))))]
    + Rename(col, ColumnStats)
  }

  function HealthRecord(h: Json): Record
  {
    Rename(h, HealthFields) + Defaulted(h, HealthLists)
  }

  /** `items.map(f)`: reading a field of a null element throws. */
  function MapRecords(items: seq<Json>, f: Json -> Record): (r: Result<seq<Record>>)
    ensures r.Ok? <==> JNull !in items
    ensures r.Ok? ==> |r.value| == |items| && forall i | 0 <= i < |items| :: r.value[i] == f(items[i])
  {
    if JNull in items then Err("Cannot read properties of null")
    else Ok(seq(|items|, i requires 0 <= i < |items| => f(items[i])))
  }

  /** A list section a well-formed DNA may hold: falsy, or an array without nulls. */
  predicate ListOk(v: Option<Json>)
  {
    !TruthyOpt(v) || (v.value.JArr? && JNull !in v.value.items)
  }

  /** `(v || []).map(f)`: a falsy section is empty; a truthy non-array throws. */
  function ListSection(v: Option<Json>, f: Json -> Record): (r: Result<seq<Record>>)
    ensures r.Ok? <==> ListOk(v)
    ensures !TruthyOpt(v) ==> r == Ok([])
    ensures r.Ok? && TruthyOpt(v) ==>
              |r.value| == |v.value.items| && forall i | 0 <= i < |r.value| :: r.value[i] == f(v.value.items[i])
  {
    if !TruthyOpt(v) then Ok([])
    else if !v.value.JArr? then Err(NotAnArray)
    else MapRecords(v.value.items, f)
  }

  /** `v?.map(f) || []`: only null and undefined give the empty list; any other
    * non-array throws, even a falsy one. */
  predicate ColumnsOk(v: Option<Json>)
  {
    v.None? || v.value == JNull || (v.value.JArr? && JNull !in v.value.items)
  }

  function ColumnsSection(v: Option<Json>): (r: Result<seq<Record>>)
    ensures r.Ok? <==> ColumnsOk(v)
    ensures v.None? || v == Some(JNull) ==> r == Ok([])
    ensures r.Ok? && v.Some? && v.value.JArr? ==>
              |r.value| == |v.value.items| && forall i | 0 <= i < |r.value| :: r.value[i] == ColumnRecord(v.value.items[i])
  {
    if v.None? || v.value == JNull then Ok([])
    else if !v.value.JArr? then Err(NotAnArray)
    else MapRecords(v.value.items, ColumnRecord)
  }

  /** The column count: the length of a truthy columns list, else a truthy col_count, else zero. */
  function ColumnCount(raw: Json): (n: Json)
    ensures var cols := Get(Some(raw), "columns");
            cols.Some? && cols.value.JArr? && |cols.value.items| > 0 ==> n == JNum(|cols.value.items|)
    ensures var cols := Get(Some(raw), "columns");
            !(cols.Some? && cols.value.JArr? && |cols.value.items| > 0) ==>
              (TruthyOpt(Get(Some(raw), "col_count")) ==> n == Get(Some(raw), "col_count").value)
              && (!TruthyOpt(Get(Some(raw), "col_count")) ==> n == JNum(0))
  {
    var cols := Get(Some(raw), "columns");
    if cols.Some? && cols.value.JArr? && |cols.value.items| > 0 then JNum(|cols.value.items|)
    else Or(Get(Some(raw), "col_count"), JNum(0))
  }

  predicate MissingOk(v: Option<Json>)
  {
    !TruthyOpt(v) || ListOk(Get(v, "co_missing_pairs"))
  }

  function MissingSection(v: Option<Json>): (r: Result<Option<MissingSummary>>)
    ensures r.Ok? <==> MissingOk(v)
    ensures r.Ok? ==> (r.value.None? <==> !TruthyOpt(v))
  {
    if !TruthyOpt(v) then Ok(None)
    else
      var pairs :- ListSection(Get(v, "co_missing_pairs"), j => Rename(j, PairFields));
      Ok(Some(MissingSummary(Rename(v.value, MissingFields), pairs)))
  }

  // Baselines: one level of nested objects is spread into "key_subKey" entries.

  /** `Object.entries(v)` of a value: an object's members, an array's or a
    * string's elements under their indices, nothing otherwise. */
  function Entries(v: Json): (es: Obj)
  {
    match v
    case JObj(m) => m
    case JArr(items) => seq(|items|, i requires 0 <= i < |items| => (Text.NatToString(i), items[i]))
    case JStr(s) => seq(|s|, i requires 0 <= i < |s| => (Text.NatToString(i), JStr([s[i]])))
    case _ => []
  }

  /** The entries of a nested object renamed to "key_subKey". */
  function Prefixed(key: string, sub: Obj): (r: Obj)
    ensures |r| == |sub| && forall i | 0 <= i < |sub| :: r[i] == (key + "_" + sub[i].0, sub[i].1)
  {
    seq(|sub|, i requires 0 <= i < |sub| => (key + "_" + sub[i].0, sub[i].1))
  }

  /** A JSON value is an object when it is neither null nor a scalar nor text. */
  predicate IsObject(v: Json)
  {
    v.JObj? || v.JArr?
  }

  /** One step of the reduce over the baseline entries. */
  function Spread(acc: Obj, entry: (string, Json)): Obj
  {
    if IsObject(entry.1) then Merge(acc, Prefixed(entry.0, Entries(entry.1)))
    else Put(acc, entry.0, entry.1)
  }

  /** The reduce itself, a left fold over the entries. */
  function Flatten(es: Obj): Obj
  {
    if es == [] then [] else Spread(Flatten(es[..|es| - 1]), es[|es| - 1])
  }

  /** The last entry wins: a scalar is read under its own key, a nested
    * object's spread members under theirs; every other key reads as before. */
  lemma BaselinesLaterWins(es: Obj, key: string, v: Json, k: string)
    ensures var before := Flatten(es);
            var after := Flatten(es + [(key, v)]);
            && (!IsObject(v) ==> Lookup(after, k) == if k == key then Some(v) else Lookup(before, k))
            && (IsObject(v) ==>
                  var spread := Prefixed(key, Entries(v));
                  Lookup(after, k) == if Lookup(spread, k).Some? then Lookup(spread, k) else Lookup(before, k))
  {
    var es' := es + [(key, v)];
    assert es'[..|es'| - 1] == es;
    if IsObject(v) {
      LookupMerge(Flatten(es), Prefixed(key, Entries(v)), k);
    } else {
      LookupPut(Flatten(es), key, v, k);
    }
  }

  /** Baselines without nested objects read exactly as the raw baselines. */
  lemma {:induction false} BaselinesScalarsKept(es: Obj, k: string)
    requires forall i | 0 <= i < |es| :: !IsObject(es[i].1)
    ensures Lookup(Flatten(es), k) == Lookup(es, k)
  {
    if es != [] {
      var init, last := es[..|es| - 1], es[|es| - 1];
      assert es == init + [(last.0, last.1)];
      assert forall i | 0 <= i < |init| :: init[i] == es[i];
      BaselinesScalarsKept(init, k);
      BaselinesLaterWins(init, last.0, last.1, k);
    }
  }

  /** Flattening goes one level deep only: a nested object's own object
    * values are kept as they are. */
  lemma BaselinesOneLevel(key: string, sub: string, inner: Json)
    ensures Flatten([(key, JObj([(sub, inner)]))]) == [(key + "_" + sub, inner)]
  {
    var es := [(key, JObj([(sub, inner)]))];
    assert es[..0] == [];
    assert Flatten(es) == Spread([], es[0]);
    var p := Prefixed(key, [(sub, inner)]);
    assert p == [(key + "_" + sub, inner)];
    assert Put([], key + "_" + sub, inner) == [(key + "_" + sub, inner)];
    assert p[1..] == [];
    assert Merge([], p) == Merge(Put([], p[0].0, p[0].1), p[1..]);
  }

  /** Whether a session's raw DNA can be normalised without a TypeError. */
  predicate Normalisable(session: Json)
  {
    session != JNull
    && var raw := Or(Get(Some(session), "data_dna"), JObj([]));
    && MissingOk(Get(Some(raw), "missing_summary"))
    && ColumnsOk(Get(Some(raw), "columns"))
    && ListOk(Get(Some(raw), "outlier_summary"))
    && ListOk(Get(Some(raw), "correlations"))
    && ListOk(Get(Some(raw), "segment_breakdown"))
  }

  /** formatSessionToDataDNA: every section of the raw DNA renamed to the
    * client's field names, with its default when the section is falsy. */
  function FormatSessionToDataDNA(session: Json): (r: Result<DataDNA>)
    ensures r.Ok? <==> Normalisable(session)
    ensures r.Ok? ==>
              var raw := Or(Get(Some(session), "data_dna"), JObj([]));
              var dna := r.value;
              && dna.filename == Get(Some(session), "filename")
              && dna.rowCount == Or(Get(Some(session), "row_count"), Or(Get(Some(raw), "row_count"), JNum(0)))
              && dna.columnCount == ColumnCount(raw)
              && dna.uploadDate == Get(Some(session), "created_at")
              && (dna.health.None? <==> !TruthyOpt(Get(Some(raw), "health")))
              && (dna.health.Some? ==> dna.health.value == HealthRecord(Get(Some(raw), "health").value))
              && (dna.missingSummary.None? <==> !TruthyOpt(Get(Some(raw), "missing_summary")))
              && dna.missingSummary == MissingSection(Get(Some(raw), "missing_summary")).value
              && (dna.datetimeInfo.None? <==> !TruthyOpt(Get(Some(raw), "datetime_info")))
              && (dna.datetimeInfo.Some? ==> dna.datetimeInfo.value == Rename(Get(Some(raw), "datetime_info").value, DatetimeFields))
              && dna.baselines == Flatten(Entries(Or(Get(Some(raw), "baselines"), JObj([]))))
              && dna.patterns == Or(Get(Some(raw), "detected_patterns"), JArr([]))
              && dna.insights == Or(Get(Some(raw), "suggested_queries"), JArr([]))
              && dna.accumulatedInsights == Or(Get(Some(raw), "accumulated_insights"), JArr([]))
    ensures r.Ok? ==>
              var raw := Or(Get(Some(session), "data_dna"), JObj([]));
              && r.value.columns == ColumnsSection(Get(Some(raw), "columns")).value
              && r.value.outlierSummary == ListSection(Get(Some(raw), "outlier_summary"), j => Rename(j, OutlierFields)).value
              && r.value.correlations == ListSection(Get(Some(raw), "correlations"), j => Rename(j, CorrelationFields)).value
              && r.value.segmentBreakdown == ListSection(Get(Some(raw), "segment_breakdown"), j => Rename(j, SegmentFields)).value
  {
    var dnaField :- Prop(session, "data_dna");
    var raw := Or(dnaField, JObj([]));
    var health := Get(Some(raw), "health");
    var dt := Get(Some(raw), "datetime_info");
    var missing :- MissingSection(Get(Some(raw), "missing_summary"));
    var columns :- ColumnsSection(Get(Some(raw), "columns"));
    var outliers :- ListSection(Get(Some(raw), "outlier_summary"), j => Rename(j, OutlierFields));
    var correlations :- ListSection(Get(Some(raw), "correlations"), j => Rename(j, CorrelationFields));
    var segments :- ListSection(Get(Some(raw), "segment_breakdown"), j => Rename(j, SegmentFields));
    Ok(DataDNA(
      Get(Some(session), "filename"),
      Or(Get(Some(session), "row_count"), Or(Get(Some(raw), "row_count"), JNum(0))),
      ColumnCount(raw),
      Get(Some(session), "created_at"),
      if TruthyOpt(health) then Some(HealthRecord(health.value)) else None,
      missing,
      columns,
      outliers,
      correlations,
      segments,
      if TruthyOpt(dt) then Some(Rename(dt.value, DatetimeFields)) else None,
      Flatten(Entries(Or(Get(Some(raw), "baselines"), JObj([])))),
      Or(Get(Some(raw), "detected_patterns"), JArr([])),
      Or(Get(Some(raw), "suggested_queries"), JArr([])),
      Or(Get(Some(raw), "accumulated_insights"), JArr([]))))
  }

  /** A session without DNA normalises to zero counts and empty sections. */
  lemma EmptySessionDefaults(session: Json)
    requires session.JObj? && Get(Some(session), "data_dna").None?
    requires !TruthyOpt(Get(Some(session), "row_count"))
    ensures var r := FormatSessionToDataDNA(session);
            && r.Ok? && r.value.rowCount == JNum(0) && r.value.columnCount == JNum(0)
            && r.value.columns == [] && r.value.outlierSummary == [] && r.value.correlations == []
            && r.value.segmentBreakdown == [] && r.value.health.None? && r.value.missingSummary.None?
            && r.value.baselines == [] && r.value.patterns == JArr([])
  {
    var raw := JObj([]);
    assert Or(Get(Some(session), "data_dna"), JObj([])) == raw;
    assert Normalisable(session);
  }

  // ---------------------------------------------------------------------
  // pollSessionUntilReady
  // ---------------------------------------------------------------------

  const DefaultMaxAttempts := 60
  const TimeoutError := "Session exploration timeout"

  /** How polling ends: a ready session, the error of a poll, or a timeout. */
  datatype PollOutcome = Ready(session: Json) | Failed(error: string) | TimedOut

  /** The status a poll reported, when it returned a session at all. */
  function StatusOf(poll: Result<Json>): Result<Option<Json>>
  {
    if poll.Err? then Err(poll.error) else Prop(poll.value, "status")
  }

  predicate IsReady(status: Option<Json>)
  {
    status == Some(JStr("ready"))
  }

  /** Poll `k` returned a session that is not ready yet. */
  predicate Waiting(polls: nat -> Result<Json>, k: nat)
  {
    StatusOf(polls(k)).Ok? && !IsReady(StatusOf(polls(k)).value)
  }

  /** The outcome of polling from attempt `i` on. */
  function PollFrom(polls: nat -> Result<Json>, maxAttempts: int, i: nat): PollOutcome
    decreases maxAttempts - i
  {
    if i >= maxAttempts then TimedOut
    else
      match StatusOf(polls(i))
      case Err(e) => Failed(e)
      case Ok(status) => if IsReady(status) then Ready(polls(i).value) else PollFrom(polls, maxAttempts, i + 1)
  }

  /** The poll loop; `progress` is the sequence of statuses handed to onProgress. */
  method PollSessionUntilReady(polls: nat -> Result<Json>, maxAttempts: int) returns (r: PollOutcome, progress: seq<Option<Json>>)
    ensures r == PollFrom(polls, maxAttempts, 0)
    ensures maxAttempts <= 0 ==> progress == []
    ensures maxAttempts > 0 ==> |progress| <= maxAttempts
    ensures forall k | 0 <= k < |progress| :: StatusOf(polls(k)) == Ok(progress[k])
    ensures r.Ready? ==> |progress| > 0 && IsReady(progress[|progress| - 1])
                         && polls(|progress| - 1) == Ok(r.session)
                         && forall k | 0 <= k < |progress| - 1 :: !IsReady(progress[k])
    ensures r.TimedOut? ==> |progress| == (if maxAttempts > 0 then maxAttempts else 0)
                            && forall k | 0 <= k < |progress| :: !IsReady(progress[k])
    ensures r.Failed? ==> |progress| < maxAttempts && StatusOf(polls(|progress|)) == Err(r.error)
  {
    var i: nat := 0;
    progress := [];
    while i < maxAttempts
      invariant i == 0 || i <= maxAttempts
      invariant PollFrom(polls, maxAttempts, i) == PollFrom(polls, maxAttempts, 0)
      invariant |progress| == i
      invariant forall k | 0 <= k < i :: StatusOf(polls(k)) == Ok(progress[k])
      invariant forall k | 0 <= k < i :: !IsReady(progress[k])
      decreases maxAttempts - i
    {
      var poll := polls(i);
      if poll.Err? {
        return Failed(poll.error), progress;
      }
      var status := Prop(poll.value, "status");
      if status.Err? {
        return Failed(status.error), progress;
      }
      progress := progress + [status.value];
      if IsReady(status.value) {
        return Ready(poll.value), progress;
      }
      i := i + 1;
    }
    r := TimedOut;
  }

  /** A ready outcome is the first ready session, every earlier poll having
    * returned a session that was not ready. */
  lemma {:induction false} PollReadyIsFirst(polls: nat -> Result<Json>, maxAttempts: int, i: nat)
    requires PollFrom(polls, maxAttempts, i).Ready?
    ensures exists k: nat | i <= k < maxAttempts ::
              && StatusOf(polls(k)).Ok? && IsReady(StatusOf(polls(k)).value)
              && PollFrom(polls, maxAttempts, i).session == polls(k).value
              && forall j: nat | i <= j < k :: Waiting(polls, j)
    decreases maxAttempts - i
  {
    if !IsReady(StatusOf(polls(i)).value) {
      PollReadyIsFirst(polls, maxAttempts, i + 1);
      var k: nat :| i + 1 <= k < maxAttempts
                  && StatusOf(polls(k)).Ok? && IsReady(StatusOf(polls(k)).value)
                  && PollFrom(polls, maxAttempts, i + 1).session == polls(k).value
                  && forall j: nat | i + 1 <= j < k :: Waiting(polls, j);
      assert forall j: nat | i <= j < k :: Waiting(polls, j);
    } else {
      assert forall j: nat | i <= j < i :: Waiting(polls, j);
    }
  }

  /** Polling times out exactly when every remaining poll returns a session
    * that is not ready. */
  lemma {:induction false} PollTimeoutIff(polls: nat -> Result<Json>, maxAttempts: int, i: nat)
    ensures PollFrom(polls, maxAttempts, i).TimedOut? <==> forall k: nat | i <= k < maxAttempts :: Waiting(polls, k)
    decreases maxAttempts - i
  {
    if i < maxAttempts {
      PollTimeoutIff(polls, maxAttempts, i + 1);
      if Waiting(polls, i) {
        assert (forall k: nat | i <= k < maxAttempts :: Waiting(polls, k))
               <==> (forall k: nat | i + 1 <= k < maxAttempts :: Waiting(polls, k));
      }
    }
  }

  /** A failed poll, or a session without a readable status, ends polling
    * at once with that error. */
  lemma PollErrorStops(polls: nat -> Result<Json>, maxAttempts: int, i: nat)
    requires i < maxAttempts && StatusOf(polls(i)).Err?
    ensures PollFrom(polls, maxAttempts, i) == Failed(StatusOf(polls(i)).error)
  {
  }

  // ---------------------------------------------------------------------
  // chatStream: line buffering and `data: ` decoding
  // ---------------------------------------------------------------------

  const DataPrefix := "data: "
  const DoneMarker := "[DONE]"

  /** The text delivered by the first chunks, in order. */
  function Concat(chunks: seq<string>): string
  {
    if chunks == [] then "" else Concat(chunks[..|chunks| - 1]) + chunks[|chunks| - 1]
  }

  /** The "\n"-terminated lines of a text, without their terminators. */
  function CompleteLines(text: string): seq<string>
  {
    var parts := Text.Split(text, '\n');
    parts[..|parts| - 1]
  }

  /** The unterminated tail the reader keeps in its buffer. */
  function Pending(text: string): string
  {
    var parts := Text.Split(text, '\n');
    parts[|parts| - 1]
  }

  /** The complete lines and the pending tail are exactly the text,
    * cut at its line breaks. */
  lemma LinesRebuild(text: string)
    ensures Text.Join(CompleteLines(text) + [Pending(text)], "\n") == text
    ensures forall i | 0 <= i < |CompleteLines(text)| :: '\n' !in CompleteLines(text)[i]
    ensures '\n' !in Pending(text)
  {
    var parts := Text.Split(text, '\n');
    assert CompleteLines(text) + [Pending(text)] == parts;
    Text.JoinSplit(text, '\n');
  }

  /** The event a single line yields: only a `data: ` line whose payload is
    * not the done marker and parses. */
  function LineEvents(line: string, parse: string -> Result<Json>): (e: seq<Json>)
    ensures |e| <= 1
    ensures e != [] <==> Text.StartsWith(line, DataPrefix) && line[|DataPrefix|..] != DoneMarker
                         && parse(line[|DataPrefix|..]).Ok?
    ensures e != [] ==> e[0] == parse(line[|DataPrefix|..]).value
  {
    if Text.StartsWith(line, DataPrefix) then
      var data := line[|DataPrefix|..];
      if data == DoneMarker then []
      else
        match parse(data)
        case Ok(v) => [v]
        case Err(_) => []
    else []
  }

  /** The events of a sequence of lines, in arrival order. */
  function EventsOf(lines: seq<string>, parse: string -> Result<Json>): (es: seq<Json>)
    ensures |es| <= |lines|
  {
    if lines == [] then []
    else EventsOf(lines[..|lines| - 1], parse) + LineEvents(lines[|lines| - 1], parse)
  }

  /** Events of consecutive runs of lines concatenate. */
  lemma {:induction false} EventsOfAppend(a: seq<string>, b: seq<string>, parse: string -> Result<Json>)
    ensures EventsOf(a + b, parse) == EventsOf(a, parse) + EventsOf(b, parse)
  {
    if b == [] {
      assert a + b == a;
    } else {
      var b', x := b[..|b| - 1], b[|b| - 1];
      EventsOfAppend(a, b', parse);
      DropLastAppend(a, b);
      ConcatAssoc(EventsOf(a, parse), EventsOf(b', parse), LineEvents(x, parse));
    }
  }

  lemma DropLastAppend(a: seq<string>, b: seq<string>)
    requires b != []
    ensures (a + b)[..|a + b| - 1] == a + b[..|b| - 1] && (a + b)[|a + b| - 1] == b[|b| - 1]
  {
  }

  lemma ConcatAssoc(p: seq<Json>, q: seq<Json>, r: seq<Json>)
    ensures p + q + r == p + (q + r)
  {
  }

  /** The events a whole stream yields: those of its complete lines. */
  function StreamEvents(text: string, parse: string -> Result<Json>): seq<Json>
  {
    EventsOf(CompleteLines(text), parse)
  }

  /** Decoding one batch of complete lines, in order. */
  method DecodeLines(lines: seq<string>, parse: string -> Result<Json>) returns (events: seq<Json>)
    ensures events == EventsOf(lines, parse)
  {
    events := [];
    var j := 0;
    while j < |lines|
      invariant 0 <= j <= |lines|
      invariant events == EventsOf(lines[..j], parse)
    {
      var line := lines[j];
      if Text.StartsWith(line, DataPrefix) {
        var data := line[|DataPrefix|..];
        if data != DoneMarker {
          var parsed := parse(data);
          if parsed.Ok? {
            events := events + [parsed.value];
          }
        }
      }
      assert lines[..j + 1][..j] == lines[..j];
      j := j + 1;
    }
    assert lines[..j] == lines;
  }

  lemma ConcatStep(chunks: seq<string>, i: nat)
    requires i < |chunks|
    ensures Concat(chunks[..i + 1]) == Concat(chunks[..i]) + chunks[i]
  {
    assert chunks[..i + 1][..i] == chunks[..i];
  }

  /** Appending a chunk re-splits only the pending tail. */
  lemma SplitStep(before: string, chunk: string, done: seq<string>, buffer: string)
    requires done + [buffer] == Text.Split(before, '\n')
    ensures Text.Split(before + chunk, '\n') == done + Text.Split(buffer + chunk, '\n')
  {
    Text.SplitAppend(before, chunk, '\n');
    var px := Text.Split(before, '\n');
    assert px[..|px| - 1] == done;
  }

  /** One read: the buffer gains the chunk, its complete lines are decoded
    * and the unterminated rest is what the buffer keeps. */
  method ProcessChunk(buffer: string, chunk: string, parse: string -> Result<Json>)
    returns (decoded: seq<Json>, rest: string, ghost complete: seq<string>)
    ensures Text.Split(buffer + chunk, '\n') == complete + [rest]
    ensures decoded == EventsOf(complete, parse)
  {
    var lines := Text.Split(buffer + chunk, '\n');
    var terminated := lines[..|lines| - 1];
    complete := terminated;
    decoded := DecodeLines(terminated, parse);
    rest := lines[|lines| - 1];
    assert lines == complete + [rest];
  }

  /** The reader loop: the buffer gains each chunk, its complete lines are
    * decoded and the tail is kept; an unterminated tail at the end is dropped.
    * Whatever the chunking, the events are those of the concatenated text. */
  method ChatStream(chunks: seq<string>, parse: string -> Result<Json>) returns (events: seq<Json>)
    ensures events == StreamEvents(Concat(chunks), parse)
  {
    var buffer := "";
    events := [];
    ghost var done: seq<string> := [];
    var i := 0;
    assert chunks[..0] == [];
    while i < |chunks|
      invariant 0 <= i <= |chunks|
      invariant done + [buffer] == Text.Split(Concat(chunks[..i]), '\n')
      invariant events == EventsOf(done, parse)
    {
      ConcatStep(chunks, i);
      SplitStep(Concat(chunks[..i]), chunks[i], done, buffer);
      var decoded, rest, complete := ProcessChunk(buffer, chunks[i], parse);
      EventsOfAppend(done, complete, parse);
      events := events + decoded;
      buffer := rest;
      done := done + complete;
      i := i + 1;
    }
    assert chunks[..i] == chunks;
    assert CompleteLines(Concat(chunks)) == (done + [buffer])[..|done|] == done;
  }

  /** Splitting a text without the separator gives the text itself. */
  lemma {:induction false} SplitWithout(s: string, sep: char)
    requires sep !in s
    ensures Text.Split(s, sep) == [s]
  {
    if s != [] {
      SplitWithout(s[1..], sep);
      assert [s[0]] + s[1..] == s;
    }
  }

  /** A text ending in the separator splits with an empty last piece. */
  lemma {:induction false} SplitTerminated(w: string, sep: char)
    ensures Text.Split(w + [sep], sep)[|Text.Split(w + [sep], sep)| - 1] == ""
  {
    var pw := Text.Split(w, sep);
    Text.SplitAppend(w, [sep], sep);
    var last := pw[|pw| - 1];
    SplitLastPiece(last, sep);
  }

  lemma {:induction false} SplitLastPiece(w: string, sep: char)
    requires sep !in w
    ensures Text.Split(w + [sep], sep) == [w, ""]
  {
    if w == [] {
      assert w + [sep] == [sep];
      assert [sep][1..] == [];
    } else {
      SplitLastPiece(w[1..], sep);
      assert w + [sep] == [w[0]] + (w[1..] + [sep]);
      Text.SplitCons(w[0], w[1..] + [sep], sep);
      assert [w[0]] + w[1..] == w;
    }
  }

  /** A tail without a line break after a complete line is never decoded:
    * the stream yields the same events as without it. */
  lemma UnterminatedTailIgnored(text: string, tail: string, parse: string -> Result<Json>)
    requires text == [] || text[|text| - 1] == '\n'
    requires '\n' !in tail
    ensures StreamEvents(text + tail, parse) == StreamEvents(text, parse)
  {
    var pt := Text.Split(text, '\n');
    Text.SplitAppend(text, tail, '\n');
    if text == [] {
      assert pt == [""];
    } else {
      SplitTerminated(text[..|text| - 1], '\n');
      assert text[..|text| - 1] + ['\n'] == text;
    }
    assert pt[|pt| - 1] + tail == tail;
    SplitWithout(tail, '\n');
    assert Text.Split(text + tail, '\n') == pt[..|pt| - 1] + [tail];
    assert CompleteLines(text + tail) == pt[..|pt| - 1] == CompleteLines(text);
  }
}

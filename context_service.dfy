// The context-insight store of the analysis service: each save adds a row to
// the `context_insights` table, reads return the newest row of a session
// with its four list columns decoded, updates rewrite every row of the
// session and deletes drop them all. Every failure, including stored list
// text that does not decode, comes back as an error result rather than an
// exception. The table is the sequence `rows`; the database's own errors are
// the parameter `fault` (its message), the database clock the parameter `now`.
module ContextService {
  import opened Wrappers
  import opened Json

  /** The columns a save or update writes, generic in how the four list
    * columns are held: as values (`Columns<Json>`) or as stored JSON text
    * (`Columns<JsonText>`). */
  datatype Columns<L> = Columns(
    datasetName: Json, purpose: Json, domain: Json,
    keyEntities: L, useCases: L,
    audience: Json, businessValue: Json, dataHealth: Json,
    keyInsights: L, recommendedAnalyses: L,
    contextSummary: Json)

  /** One row of the table. */
  datatype Row = Row(sessionId: string, cols: Columns<JsonText>, createdAt: nat, updatedAt: nat)

  /** A row as a read returns it, its lists decoded. */
  datatype Record = Record(sessionId: string, cols: Columns<Json>, createdAt: nat, updatedAt: nat)

  /** What an update reports: the first rewritten row, or, with no row for the
    * session, the input as it was given. */
  datatype Updated = UpdatedRow(row: Row) | Echo(data: Obj)

  const UnknownDataset := JStr("Unknown Dataset")
  const NotFound := "No context insight found for this session"
  const DeletedMessage := "Context insight deleted"

  /** The value under a key, or the default when the key is absent. */
  function GetOr(data: Obj, key: string, default: Json): (v: Json)
    ensures Lookup(data, key).None? ==> v == default
    ensures Lookup(data, key).Some? ==> v == Lookup(data, key).value
  {
    match Lookup(data, key)
    case None => default
    case Some(v) => v
  }

  /** The record a save or update builds: each key of the input when present,
    * otherwise its default. */
  function Filled(data: Obj): Columns<Json>
  {
    Columns(
      GetOr(data, "dataset_name", UnknownDataset),
      GetOr(data, "purpose", JStr("")),
      GetOr(data, "domain", JStr("")),
      GetOr(data, "key_entities", JArr([])),
      GetOr(data, "use_cases", JArr([])),
      GetOr(data, "audience", JStr("")),
      GetOr(data, "business_value", JStr("")),
      GetOr(data, "data_health", JStr("")),
      GetOr(data, "key_insights", JArr([])),
      GetOr(data, "recommended_analyses", JArr([])),
      GetOr(data, "context_summary", JStr("")))
  }

  /** The record as a dictionary with every key set. */
  function AsObj(c: Columns<Json>): (o: Obj)
    ensures |o| == 11
  {
    [("dataset_name", c.datasetName), ("purpose", c.purpose), ("domain", c.domain),
     ("key_entities", c.keyEntities), ("use_cases", c.useCases),
     ("audience", c.audience), ("business_value", c.businessValue), ("data_health", c.dataHealth),
     ("key_insights", c.keyInsights), ("recommended_analyses", c.recommendedAnalyses),
     ("context_summary", c.contextSummary)]
  }

  /** An empty input gets "Unknown Dataset" as its name, [] for the four
    * lists and "" for every other field. */
  lemma FilledEmpty()
    ensures Filled([]) == Columns(UnknownDataset, JStr(""), JStr(""), JArr([]), JArr([]),
                                  JStr(""), JStr(""), JStr(""), JArr([]), JArr([]), JStr(""))
  {
  }

  /** Defaults never override a given value: a record handed back as a full
    * dictionary fills to itself, so saving what a read returned stores the
    * same columns. */
  lemma FilledAsObj(c: Columns<Json>)
    ensures Filled(AsObj(c)) == c
  {
    FilledAsObjFront(c);
    FilledAsObjMiddle(c);
    FilledAsObjBack(c);
  }

  lemma FilledAsObjFront(c: Columns<Json>)
    ensures var f := Filled(AsObj(c));
            f.datasetName == c.datasetName && f.purpose == c.purpose
  {
    var o := AsObj(c);
    LookupLastBinding(o, 0);
    LookupLastBinding(o, 1);
  }

  lemma FilledAsObjMiddle(c: Columns<Json>)
    ensures var f := Filled(AsObj(c));
            f.domain == c.domain && f.keyEntities == c.keyEntities && f.useCases == c.useCases
  {
    var o := AsObj(c);
    LookupLastBinding(o, 2);
    LookupLastBinding(o, 3);
    LookupLastBinding(o, 4);
  }

  lemma FilledAsObjBack(c: Columns<Json>)
    ensures var f := Filled(AsObj(c));
            && f.audience == c.audience && f.businessValue == c.businessValue && f.dataHealth == c.dataHealth
            && f.keyInsights == c.keyInsights && f.recommendedAnalyses == c.recommendedAnalyses
            && f.contextSummary == c.contextSummary
  {
    var o := AsObj(c);
    LookupLastBinding(o, 5);
    LookupLastBinding(o, 6);
    LookupLastBinding(o, 7);
    LookupLastBinding(o, 8);
    LookupLastBinding(o, 9);
    LookupLastBinding(o, 10);
  }

  /** In an object whose keys are distinct after position `i`, the key at `i`
    * reads as its value there. */
  lemma {:induction false} LookupLastBinding(o: Obj, i: nat)
    requires i < |o|
    requires forall j | i < j < |o| :: o[j].0 != o[i].0
    ensures Lookup(o, o[i].0) == Some(o[i].1)
  {
    if i < |o| - 1 {
      LookupLastBinding(o[..|o| - 1], i);
    }
  }

  /** json.dumps of the four lists. */
  function Encode(c: Columns<Json>): (t: Columns<JsonText>)
    ensures t.keyEntities.Dumped? && t.useCases.Dumped? && t.keyInsights.Dumped? && t.recommendedAnalyses.Dumped?
  {
    Columns(c.datasetName, c.purpose, c.domain, Dumps(c.keyEntities), Dumps(c.useCases),
            c.audience, c.businessValue, c.dataHealth, Dumps(c.keyInsights), Dumps(c.recommendedAnalyses),
            c.contextSummary)
  }

  /** json.loads of the four lists, in the order the read decodes them: the
    * first one that does not decode gives the error. */
  function Decode(t: Columns<JsonText>): (r: Result<Columns<Json>>)
    ensures r.Ok? <==> t.keyEntities.Dumped? && t.useCases.Dumped? && t.keyInsights.Dumped? && t.recommendedAnalyses.Dumped?
  {
    var ke :- Loads(t.keyEntities);
    var uc :- Loads(t.useCases);
    var ki :- Loads(t.keyInsights);
    var ra :- Loads(t.recommendedAnalyses);
    Ok(Columns(t.datasetName, t.purpose, t.domain, ke, uc, t.audience, t.businessValue, t.dataHealth,
               ki, ra, t.contextSummary))
  }

  /** What is written is what is read: the lists come back equal, in order. */
  lemma DecodeEncode(c: Columns<Json>)
    ensures Decode(Encode(c)) == Ok(c)
  {
  }

  /** `ORDER BY created_at DESC LIMIT 1` over the session's rows: a row of the
    * session that no other row of it postdates. Rows created in the same
    * instant are not ordered by the query; the model takes the one written
    * last. */
  function Latest(rows: seq<Row>, sessionId: string): (r: Option<nat>)
    ensures r.Some? ==> r.value < |rows| && rows[r.value].sessionId == sessionId
    ensures r.Some? ==> forall j | 0 <= j < |rows| && rows[j].sessionId == sessionId :: rows[j].createdAt <= rows[r.value].createdAt
    ensures r.None? <==> forall j | 0 <= j < |rows| :: rows[j].sessionId != sessionId
  {
    if rows == [] then None
    else
      var rest := Latest(rows[..|rows| - 1], sessionId);
      var last := rows[|rows| - 1];
      if last.sessionId == sessionId && (rest.None? || rows[rest.value].createdAt <= last.createdAt)
      then Some(|rows| - 1)
      else rest
  }

  /** get_context_insight over a table. */
  function Read(rows: seq<Row>, sessionId: string, fault: Option<string>): (r: Result<Record>)
    ensures fault.Some? ==> r == Err(fault.value)
    ensures fault.None? && Latest(rows, sessionId).None? ==> r == Err(NotFound)
    ensures fault.None? && Latest(rows, sessionId).Some? ==>
              var row := rows[Latest(rows, sessionId).value];
              && (r.Ok? <==> Decode(row.cols).Ok?)
              && (r.Ok? ==> r.value == Record(sessionId, Decode(row.cols).value, row.createdAt, row.updatedAt))
              && (r.Err? ==> r.error == Decode(row.cols).error)
  {
    if fault.Some? then Err(fault.value)
    else match Latest(rows, sessionId)
      case None => Err(NotFound)
      case Some(i) =>
        var row := rows[i];
        match Decode(row.cols)
        case Err(e) => Err(e)
        case Ok(c) => Ok(Record(row.sessionId, c, row.createdAt, row.updatedAt))
  }

  /** The row a save adds. */
  function NewRow(sessionId: string, data: Obj, now: nat): Row
  {
    Row(sessionId, Encode(Filled(data)), now, now)
  }

  /** The UPDATE: every row of the session gets the new columns and `now` as
    * its update time; its creation time and every other row stay. */
  function Rewritten(rows: seq<Row>, sessionId: string, cols: Columns<JsonText>, now: nat): (r: seq<Row>)
    ensures |r| == |rows|
    ensures forall i | 0 <= i < |rows| :: r[i] ==
              if rows[i].sessionId == sessionId then rows[i].(cols := cols, updatedAt := now) else rows[i]
  {
    seq(|rows|, i requires 0 <= i < |rows| =>
      if rows[i].sessionId == sessionId then rows[i].(cols := cols, updatedAt := now) else rows[i])
  }

  /** The first row of the session in table order, which `fetchone` returns
    * from RETURNING. */
  function First(rows: seq<Row>, sessionId: string): (r: Option<nat>)
    ensures r.Some? ==> r.value < |rows| && rows[r.value].sessionId == sessionId
    ensures r.Some? ==> forall j | 0 <= j < r.value :: rows[j].sessionId != sessionId
    ensures r.None? <==> forall j | 0 <= j < |rows| :: rows[j].sessionId != sessionId
  {
    if rows == [] then None
    else if rows[0].sessionId == sessionId then Some(0)
    else match First(rows[1..], sessionId)
      case None => None
      case Some(i) => Some(i + 1)
  }

  /** The DELETE: the rows of every other session, in order. */
  function Without(rows: seq<Row>, sessionId: string): (r: seq<Row>)
    ensures |r| <= |rows|
    ensures forall row | row in r :: row in rows && row.sessionId != sessionId
    ensures forall row | row in rows && row.sessionId != sessionId :: row in r
  {
    if rows == [] then []
    else
      var rest := Without(rows[..|rows| - 1], sessionId);
      if rows[|rows| - 1].sessionId != sessionId then rest + [rows[|rows| - 1]] else rest
  }

  /** A save adds a row even when the session has one; the read then sees the
    * new record, as long as the clock has moved on since the older rows. */
  lemma {:induction false} SaveThenRead(rows: seq<Row>, sessionId: string, data: Obj, now: nat)
    requires forall j | 0 <= j < |rows| :: rows[j].createdAt < now
    ensures Read(rows + [NewRow(sessionId, data, now)], sessionId, None) ==
            Ok(Record(sessionId, Filled(data), now, now))
  {
    LatestAppended(rows, NewRow(sessionId, data, now));
    DecodeEncode(Filled(data));
  }

  /** A row appended after every older row of its session is the newest. */
  lemma LatestAppended(rows: seq<Row>, row: Row)
    requires forall j | 0 <= j < |rows| :: rows[j].createdAt < row.createdAt
    ensures Latest(rows + [row], row.sessionId) == Some(|rows|)
  {
    var r := rows + [row];
    assert r[..|r| - 1] == rows;
  }

  /** After an update of a session that has rows, the read sees the new
    * columns, the newest row's creation time and the update's time. */
  lemma UpdateThenRead(rows: seq<Row>, sessionId: string, data: Obj, now: nat)
    requires Latest(rows, sessionId).Some?
    ensures var i := Latest(rows, sessionId).value;
            Read(Rewritten(rows, sessionId, Encode(Filled(data)), now), sessionId, None) ==
            Ok(Record(sessionId, Filled(data), rows[i].createdAt, now))
  {
    var c := Encode(Filled(data));
    var r := Rewritten(rows, sessionId, c, now);
    LatestRewritten(rows, sessionId, c, now);
    DecodeEncode(Filled(data));
  }

  /** Rewriting keeps creation times, so the newest row stays the newest. */
  lemma {:induction false} LatestRewritten(rows: seq<Row>, sessionId: string, c: Columns<JsonText>, now: nat)
    ensures Latest(Rewritten(rows, sessionId, c, now), sessionId) == Latest(rows, sessionId)
  {
    if rows != [] {
      var r := Rewritten(rows, sessionId, c, now);
      assert r[..|r| - 1] == Rewritten(rows[..|rows| - 1], sessionId, c, now);
      LatestRewritten(rows[..|rows| - 1], sessionId, c, now);
    }
  }

  /** After a delete nothing of the session is found, and deleting again
    * changes nothing. */
  lemma DeleteThenRead(rows: seq<Row>, sessionId: string)
    ensures Read(Without(rows, sessionId), sessionId, None) == Err(NotFound)
    ensures Without(Without(rows, sessionId), sessionId) == Without(rows, sessionId)
  {
    WithoutIdempotent(rows, sessionId);
    var w := Without(rows, sessionId);
    assert forall j | 0 <= j < |w| :: w[j] in w;
  }

  lemma {:induction false} WithoutIdempotent(rows: seq<Row>, sessionId: string)
    ensures Without(Without(rows, sessionId), sessionId) == Without(rows, sessionId)
  {
    var w := Without(rows, sessionId);
    NoneLeft(w, sessionId);
  }

  /** Filtering rows none of which is of the session keeps them all. */
  lemma {:induction false} NoneLeft(rows: seq<Row>, sessionId: string)
    requires forall row | row in rows :: row.sessionId != sessionId
    ensures Without(rows, sessionId) == rows
  {
    if rows != [] {
      assert rows[|rows| - 1] in rows;
      NoneLeft(rows[..|rows| - 1], sessionId);
      assert rows[..|rows| - 1] + [rows[|rows| - 1]] == rows;
    }
  }

  /** The `context_insights` table and the four operations on it. */
  class Store {
    var rows: seq<Row>

    constructor(rows: seq<Row>)
      ensures this.rows == rows
    {
      this.rows := rows;
    }

    /** save_context_insight: a database error changes nothing; otherwise one
      * row with the filled-in record is added and returned. */
    method Save(sessionId: string, data: Obj, now: nat, fault: Option<string>) returns (r: Result<Row>)
      modifies this
      ensures fault.Some? ==> rows == old(rows) && r == Err(fault.value)
      ensures fault.None? ==> rows == old(rows) + [NewRow(sessionId, data, now)] && r == Ok(NewRow(sessionId, data, now))
    {
      if fault.Some? {
        return Err(fault.value);
      }
      var row := NewRow(sessionId, data, now);
      rows := rows + [row];
      r := Ok(row);
    }

    /** get_context_insight. */
    method Get(sessionId: string, fault: Option<string>) returns (r: Result<Record>)
      ensures r == Read(rows, sessionId, fault)
    {
      r := Read(rows, sessionId, fault);
    }

    /** update_context_insight: every row of the session is rewritten with the
      * same defaults as a save; with none, success is still reported and the
      * input is echoed back unfilled. */
    method Update(sessionId: string, data: Obj, now: nat, fault: Option<string>) returns (r: Result<Updated>)
      modifies this
      ensures fault.Some? ==> rows == old(rows) && r == Err(fault.value)
      ensures fault.None? ==> rows == Rewritten(old(rows), sessionId, Encode(Filled(data)), now)
      ensures fault.None? && First(old(rows), sessionId).None? ==> r == Ok(Echo(data)) && rows == old(rows)
      ensures fault.None? && First(old(rows), sessionId).Some? ==>
                r == Ok(UpdatedRow(rows[First(old(rows), sessionId).value]))
    {
      if fault.Some? {
        return Err(fault.value);
      }
      var first := First(rows, sessionId);
      rows := Rewritten(rows, sessionId, Encode(Filled(data)), now);
      if first.Some? {
        r := Ok(UpdatedRow(rows[first.value]));
      } else {
        assert rows == old(rows);
        r := Ok(Echo(data));
      }
    }

    /** delete_context_insight: success whether or not a row existed. */
    method Delete(sessionId: string, fault: Option<string>) returns (r: Result<string>)
      modifies this
      ensures fault.Some? ==> rows == old(rows) && r == Err(fault.value)
      ensures fault.None? ==> rows == Without(old(rows), sessionId) && r == Ok(DeletedMessage)
    {
      if fault.Some? {
        return Err(fault.value);
      }
      rows := Without(rows, sessionId);
      r := Ok(DeletedMessage);
    }
  }
}

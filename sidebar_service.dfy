// The workspace sidebar service: one `workspace_sidebar` row per session,
// holding the dataset's name and Data DNA, the context analysis and the
// current SQL and Python code with their histories. The table is the map
// `rows` from session id to row. What the service reads from the sessions
// table, the clock's ISO time and the database's failures are parameters:
// `lookup` is the result of reading the session (an error carries its
// message), `readFault` an error other than "no row" while reading the
// sidebar, `insertFault`/`updateFault`/`upsertFault` a failed write. A
// thrown error is an `Err` result; it leaves whatever was written before it.
module SidebarService {
  import opened Wrappers
  import opened Json

  datatype Entry = Entry(code: string, executedAt: string, description: Option<string>)

  /** One row; `None` is SQL null. */
  datatype Sidebar = Sidebar(
    filename: string,
    dataDna: Json,
    contextAnalysis: Option<Obj>,
    currentSql: Option<string>,
    sqlHistory: Option<seq<Entry>>,
    currentPython: Option<string>,
    pythonHistory: Option<seq<Entry>>)

  /** The columns read from the session's own row. */
  datatype SessionRow = SessionRow(dataDna: Option<Json>, filename: Option<string>)

  datatype Lang = Sql | Python
  datatype ClearKind = ClearSql | ClearPython | ClearBoth

  /** The table after an operation, and what the operation returned or threw. */
  datatype Outcome<T> = Outcome(rows: map<string, Sidebar>, result: Result<T>)

  const UnknownDataset := "Unknown Dataset"
  const SessionNotFound := "Cannot upsert context: session not found ("
  const FilenameNull := "Cannot upsert context: session filename is null"
  const NotSaved := "Context analysis was not saved to database (verification returned null)"

  predicate TruthyString(s: Option<string>)
  {
    s.Some? && s.value != ""
  }

  function CurrentCode(s: Sidebar, lang: Lang): Option<string>
  {
    match lang
    case Sql => s.currentSql
    case Python => s.currentPython
  }

  function History(s: Sidebar, lang: Lang): Option<seq<Entry>>
  {
    match lang
    case Sql => s.sqlHistory
    case Python => s.pythonHistory
  }

  /** `sidebar?.<lang>_code_history || []`: a missing row or a null history
    * reads as empty. */
  function HistoryOrEmpty(s: Option<Sidebar>, lang: Lang): (h: seq<Entry>)
    ensures s.None? || History(s.value, lang).None? ==> h == []
    ensures s.Some? && History(s.value, lang).Some? ==> h == History(s.value, lang).value
  {
    if s.Some? && History(s.value, lang).Some? then History(s.value, lang).value else []
  }

  /** The row initializeSidebar inserts, from what the session has: its Data
    * DNA when truthy, else null, its file name when truthy, else "Unknown
    * Dataset", and empty histories. */
  function Initialized(session: SessionRow): (s: Sidebar)
    ensures Truthy(s.dataDna) <==> TruthyOpt(session.dataDna)
    ensures TruthyOpt(session.dataDna) ==> s.dataDna == session.dataDna.value
    ensures s.filename != ""
    ensures TruthyString(session.filename) ==> s.filename == session.filename.value
    ensures !TruthyString(session.filename) ==> s.filename == UnknownDataset
    ensures s.sqlHistory == Some([]) && s.pythonHistory == Some([])
    ensures s.currentSql.None? && s.currentPython.None? && s.contextAnalysis.None?
  {
    var dna := Or(session.dataDna, JNull);
    var name := if TruthyString(session.filename) then session.filename.value else UnknownDataset;
    Sidebar(name, dna, None, None, Some([]), None, Some([]))
  }

  /** getSidebar: a read error other than "no row" is rethrown; an existing
    * row is returned as it is; a missing one is created from the session,
    * and null is returned when reading the session or inserting fails. */
  function Fetched(rows: map<string, Sidebar>, sessionId: string, readFault: Option<string>,
                   lookup: Result<SessionRow>, insertFault: bool): (o: Outcome<Option<Sidebar>>)
    ensures readFault.Some? ==> o == Outcome(rows, Err(readFault.value))
    ensures readFault.None? ==> o.result.Ok?
    ensures readFault.None? && sessionId in rows ==> o == Outcome(rows, Ok(Some(rows[sessionId])))
    ensures readFault.None? && sessionId !in rows && (lookup.Err? || insertFault) ==> o == Outcome(rows, Ok(None))
    ensures readFault.None? && sessionId !in rows && lookup.Ok? && !insertFault ==>
              o == Outcome(rows[sessionId := Initialized(lookup.value)], Ok(Some(Initialized(lookup.value))))
    ensures forall k | k != sessionId :: (k in o.rows <==> k in rows) && (k in rows ==> o.rows[k] == rows[k])
    ensures o.result.Ok? && o.result.value.Some? ==> sessionId in o.rows && o.rows[sessionId] == o.result.value.value
  {
    if readFault.Some? then Outcome(rows, Err(readFault.value))
    else if sessionId in rows then Outcome(rows, Ok(Some(rows[sessionId])))
    else if lookup.Err? || insertFault then Outcome(rows, Ok(None))
    else
      var s := Initialized(lookup.value);
      Outcome(rows[sessionId := s], Ok(Some(s)))
  }

  /** Once a row exists, fetching again returns it and writes nothing,
    * whatever the session read or the insert would do. */
  lemma FetchedStable(rows: map<string, Sidebar>, sessionId: string, lookup: Result<SessionRow>, insertFault: bool,
                      lookup': Result<SessionRow>, insertFault': bool)
    requires sessionId in rows || (lookup.Ok? && !insertFault)
    ensures var o := Fetched(rows, sessionId, None, lookup, insertFault);
            Fetched(o.rows, sessionId, None, lookup', insertFault') == o
  {
  }

  /** The `updates` of updateSQLCode / updatePythonCode applied to a row:
    * the current code is set, and with `addToHistory` one entry is appended
    * to the history read by getSidebar. */
  function Recorded(s: Sidebar, lang: Lang, code: string, addToHistory: bool, history: seq<Entry>, entry: Entry): (r: Sidebar)
    ensures CurrentCode(r, lang) == Some(code)
    ensures addToHistory ==> History(r, lang) == Some(history + [entry])
    ensures !addToHistory ==> History(r, lang) == History(s, lang)
    ensures forall other: Lang | other != lang :: CurrentCode(r, other) == CurrentCode(s, other) && History(r, other) == History(s, other)
    ensures r.filename == s.filename && r.dataDna == s.dataDna && r.contextAnalysis == s.contextAnalysis
  {
    match lang
    case Sql => s.(currentSql := Some(code), sqlHistory := if addToHistory then Some(history + [entry]) else s.sqlHistory)
    case Python => s.(currentPython := Some(code), pythonHistory := if addToHistory then Some(history + [entry]) else s.pythonHistory)
  }

  /** `update(updates).eq("session_id", …)`: the row of the session, if any. */
  function UpdateRow(rows: map<string, Sidebar>, sessionId: string, s: Sidebar): (r: map<string, Sidebar>)
    ensures sessionId in rows ==> r == rows[sessionId := s]
    ensures sessionId !in rows ==> r == rows
  {
    if sessionId in rows then rows[sessionId := s] else rows
  }

  /** updateSQLCode (`lang == Sql`) and updatePythonCode (`lang == Python`). */
  function CodeUpdated(rows: map<string, Sidebar>, sessionId: string, lang: Lang, code: string,
                       addToHistory: bool, description: Option<string>, now: string,
                       readFault: Option<string>, lookup: Result<SessionRow>, insertFault: bool,
                       updateFault: Option<string>): (o: Outcome<()>)
    ensures readFault.Some? ==> o == Outcome(rows, Err(readFault.value))
    ensures readFault.None? ==> o.rows.Keys == Fetched(rows, sessionId, None, lookup, insertFault).rows.Keys
    ensures readFault.None? && updateFault.None? ==> o.result.Ok?
  {
    var f := Fetched(rows, sessionId, readFault, lookup, insertFault);
    if f.result.Err? then Outcome(rows, Err(f.result.error))
    else
      var history := HistoryOrEmpty(f.result.value, lang);
      if updateFault.Some? then Outcome(f.rows, Err(updateFault.value))
      else if sessionId in f.rows then
        var entry := Entry(code, now, description);
        Outcome(UpdateRow(f.rows, sessionId, Recorded(f.rows[sessionId], lang, code, addToHistory, history, entry)), Ok(()))
      else Outcome(f.rows, Ok(()))
  }

  /** Recording code on a session whose row exists appends exactly one entry
    * to the end of its history (to [] when it had none), changes nothing of
    * the other language, and leaves every other session's row alone. */
  lemma CodeUpdatedAppendsOne(rows: map<string, Sidebar>, sessionId: string, lang: Lang, code: string,
                              description: Option<string>, now: string, lookup: Result<SessionRow>, insertFault: bool)
    requires sessionId in rows
    ensures var o := CodeUpdated(rows, sessionId, lang, code, true, description, now, None, lookup, insertFault, None);
            && o.result.Ok? && sessionId in o.rows
            && History(o.rows[sessionId], lang) ==
               Some(HistoryOrEmpty(Some(rows[sessionId]), lang) + [Entry(code, now, description)])
            && CurrentCode(o.rows[sessionId], lang) == Some(code)
            && (forall other: Lang | other != lang :: History(o.rows[sessionId], other) == History(rows[sessionId], other))
            && (forall k | k in rows && k != sessionId :: k in o.rows && o.rows[k] == rows[k])
  {
  }

  /** A session without a row gets one, whose history is the single entry. */
  lemma CodeUpdatedInitializes(rows: map<string, Sidebar>, sessionId: string, lang: Lang, code: string,
                               description: Option<string>, now: string, session: SessionRow)
    requires sessionId !in rows
    ensures var o := CodeUpdated(rows, sessionId, lang, code, true, description, now, None, Ok(session), false, None);
            && o.result.Ok? && sessionId in o.rows
            && History(o.rows[sessionId], lang) == Some([Entry(code, now, description)])
            && CurrentCode(o.rows[sessionId], lang) == Some(code)
  {
    var none: seq<Entry> := [];
    assert HistoryOrEmpty(Some(Initialized(session)), lang) == none;
    assert none + [Entry(code, now, description)] == [Entry(code, now, description)];
  }

  /** Without `addToHistory` only the current code changes. */
  lemma CodeUpdatedNoHistory(rows: map<string, Sidebar>, sessionId: string, lang: Lang, code: string,
                             description: Option<string>, now: string, lookup: Result<SessionRow>, insertFault: bool)
    requires sessionId in rows
    ensures var o := CodeUpdated(rows, sessionId, lang, code, false, description, now, None, lookup, insertFault, None);
            && sessionId in o.rows
            && o.rows[sessionId] == (match lang
                                     case Sql => rows[sessionId].(currentSql := Some(code))
                                     case Python => rows[sessionId].(currentPython := Some(code)))
  {
  }

  /** clearCodeHistory's `updates`: each language it names gets an empty
    * history and null current code. */
  function Cleared(s: Sidebar, kind: ClearKind): (r: Sidebar)
    ensures kind != ClearPython ==> r.sqlHistory == Some([]) && r.currentSql.None?
    ensures kind == ClearPython ==> r.sqlHistory == s.sqlHistory && r.currentSql == s.currentSql
    ensures kind != ClearSql ==> r.pythonHistory == Some([]) && r.currentPython.None?
    ensures kind == ClearSql ==> r.pythonHistory == s.pythonHistory && r.currentPython == s.currentPython
    ensures r.filename == s.filename && r.dataDna == s.dataDna && r.contextAnalysis == s.contextAnalysis
  {
    var none: seq<Entry> := [];
    match kind
    case ClearSql => s.(sqlHistory := Some(none), currentSql := None)
    case ClearPython => s.(pythonHistory := Some(none), currentPython := None)
    case ClearBoth => s.(sqlHistory := Some(none), currentSql := None, pythonHistory := Some(none), currentPython := None)
  }

  /** Clearing both is clearing one language and then the other, and
    * clearing again changes nothing. */
  lemma ClearedCompose(s: Sidebar, kind: ClearKind)
    ensures Cleared(Cleared(s, ClearSql), ClearPython) == Cleared(s, ClearBoth)
    ensures Cleared(Cleared(s, ClearPython), ClearSql) == Cleared(s, ClearBoth)
    ensures Cleared(Cleared(s, kind), kind) == Cleared(s, kind)
  {
  }

  /** clearCodeHistory over the table; it reads nothing first, so a session
    * without a row stays without one. */
  function HistoryCleared(rows: map<string, Sidebar>, sessionId: string, kind: ClearKind, updateFault: Option<string>): (o: Outcome<()>)
    ensures updateFault.Some? ==> o == Outcome(rows, Err(updateFault.value))
    ensures updateFault.None? && sessionId in rows ==> o == Outcome(rows[sessionId := Cleared(rows[sessionId], kind)], Ok(()))
    ensures updateFault.None? && sessionId !in rows ==> o == Outcome(rows, Ok(()))
  {
    if updateFault.Some? then Outcome(rows, Err(updateFault.value))
    else if sessionId in rows then Outcome(UpdateRow(rows, sessionId, Cleared(rows[sessionId], kind)), Ok(()))
    else Outcome(rows, Ok(()))
  }

  /** getCodeHistory: the history of the fetched row, [] without one. */
  function CodeHistory(rows: map<string, Sidebar>, sessionId: string, lang: Lang,
                       readFault: Option<string>, lookup: Result<SessionRow>, insertFault: bool): (o: Outcome<seq<Entry>>)
    ensures readFault.Some? ==> o == Outcome(rows, Err(readFault.value))
    ensures readFault.None? ==> o.rows == Fetched(rows, sessionId, None, lookup, insertFault).rows
    ensures readFault.None? && sessionId in rows ==> o.result == Ok(HistoryOrEmpty(Some(rows[sessionId]), lang))
    ensures readFault.None? && sessionId !in rows ==> o.result == Ok([])
  {
    var f := Fetched(rows, sessionId, readFault, lookup, insertFault);
    if f.result.Err? then Outcome(rows, Err(f.result.error))
    else Outcome(f.rows, Ok(HistoryOrEmpty(f.result.value, lang)))
  }

  /** What is recorded is what getCodeHistory then returns, last. */
  lemma RecordThenHistory(rows: map<string, Sidebar>, sessionId: string, lang: Lang, code: string,
                          description: Option<string>, now: string, lookup: Result<SessionRow>, insertFault: bool)
    requires sessionId in rows
    ensures var o := CodeUpdated(rows, sessionId, lang, code, true, description, now, None, lookup, insertFault, None);
            var h := CodeHistory(o.rows, sessionId, lang, None, lookup, insertFault).result;
            h.Ok? && |h.value| > 0 && h.value[|h.value| - 1] == Entry(code, now, description)
  {
    CodeUpdatedAppendsOne(rows, sessionId, lang, code, description, now, lookup, insertFault);
  }

  /** `{ ...contextAnalysis, analyzed_at: now }`. */
  function Stamped(analysis: Obj, now: string): (c: Obj)
    ensures Lookup(c, "analyzed_at") == Some(JStr(now))
    ensures forall k | k != "analyzed_at" :: Lookup(c, k) == Lookup(analysis, k)
  {
    var c := Merge(analysis, [("analyzed_at", JStr(now))]);
    forall k | true
      ensures Lookup(c, k) == if k == "analyzed_at" then Some(JStr(now)) else Lookup(analysis, k)
    {
      LookupMerge(analysis, [("analyzed_at", JStr(now))], k);
    }
    c
  }

  /** The row the upsert leaves: an existing row keeps everything but its
    * file name and context analysis; a new row has only those set. */
  function Upserted(rows: map<string, Sidebar>, sessionId: string, filename: string, context: Obj): (s: Sidebar)
    ensures s.filename == filename && s.contextAnalysis == Some(context)
    ensures sessionId in rows ==> s == rows[sessionId].(filename := filename, contextAnalysis := Some(context))
  {
    if sessionId in rows then rows[sessionId].(filename := filename, contextAnalysis := Some(context))
    else Sidebar(filename, JNull, Some(context), None, None, None, None)
  }

  /** updateContextAnalysis: the session must exist and have a file name;
    * the stamped analysis is upserted with that name, then read back, and a
    * null read-back throws (an error reading it back is only logged). */
  function ContextUpdated(rows: map<string, Sidebar>, sessionId: string, analysis: Obj, now: string,
                          lookup: Result<SessionRow>, upsertFault: Option<string>, verifyFault: bool): (o: Outcome<()>)
    ensures lookup.Err? ==> o == Outcome(rows, Err(SessionNotFound + lookup.error + ")"))
    ensures lookup.Ok? && !TruthyString(lookup.value.filename) ==> o == Outcome(rows, Err(FilenameNull))
    ensures lookup.Ok? && TruthyString(lookup.value.filename) && upsertFault.Some? ==> o == Outcome(rows, Err(upsertFault.value))
    ensures o.rows != rows ==> lookup.Ok? && TruthyString(lookup.value.filename) && upsertFault.None?
  {
    if lookup.Err? then Outcome(rows, Err(SessionNotFound + lookup.error + ")"))
    else if !TruthyString(lookup.value.filename) then Outcome(rows, Err(FilenameNull))
    else if upsertFault.Some? then Outcome(rows, Err(upsertFault.value))
    else
      var rows' := rows[sessionId := Upserted(rows, sessionId, lookup.value.filename.value, Stamped(analysis, now))];
      if !verifyFault && rows'[sessionId].contextAnalysis.None? then Outcome(rows', Err(NotSaved))
      else Outcome(rows', Ok(()))
  }

  /** Once the session checks pass and the upsert succeeds, the read-back
    * always finds the analysis, stamped with the time and otherwise as
    * given, under the session's file name. */
  lemma ContextSaved(rows: map<string, Sidebar>, sessionId: string, analysis: Obj, now: string,
                     session: SessionRow, verifyFault: bool, k: string)
    requires TruthyString(session.filename)
    ensures var o := ContextUpdated(rows, sessionId, analysis, now, Ok(session), None, verifyFault);
            && o.result.Ok? && sessionId in o.rows
            && o.rows[sessionId].filename == session.filename.value
            && o.rows[sessionId].contextAnalysis.Some?
            && Lookup(o.rows[sessionId].contextAnalysis.value, "analyzed_at") == Some(JStr(now))
            && (k != "analyzed_at" ==> Lookup(o.rows[sessionId].contextAnalysis.value, k) == Lookup(analysis, k))
  {
  }

  /** The `workspace_sidebar` table and the service's operations on it. */
  class Table {
    var rows: map<string, Sidebar>

    constructor(rows: map<string, Sidebar>)
      ensures this.rows == rows
    {
      this.rows := rows;
    }

    method GetSidebar(sessionId: string, readFault: Option<string>, lookup: Result<SessionRow>, insertFault: bool)
      returns (r: Result<Option<Sidebar>>)
      modifies this
      ensures Outcome(rows, r) == Fetched(old(rows), sessionId, readFault, lookup, insertFault)
    {
      if readFault.Some? {
        return Err(readFault.value);
      }
      if sessionId in rows {
        return Ok(Some(rows[sessionId]));
      }
      if lookup.Err? || insertFault {
        return Ok(None);
      }
      var s := Initialized(lookup.value);
      rows := rows[sessionId := s];
      r := Ok(Some(s));
    }

    method UpdateCode(sessionId: string, lang: Lang, code: string, addToHistory: bool, description: Option<string>,
                      now: string, readFault: Option<string>, lookup: Result<SessionRow>, insertFault: bool,
                      updateFault: Option<string>)
      returns (r: Result<()>)
      modifies this
      ensures Outcome(rows, r) ==
              CodeUpdated(old(rows), sessionId, lang, code, addToHistory, description, now, readFault, lookup, insertFault, updateFault)
    {
      var sidebar := GetSidebar(sessionId, readFault, lookup, insertFault);
      if sidebar.Err? {
        return Err(sidebar.error);
      }
      var history := HistoryOrEmpty(sidebar.value, lang);
      if updateFault.Some? {
        return Err(updateFault.value);
      }
      if sessionId in rows {
        rows := rows[sessionId := Recorded(rows[sessionId], lang, code, addToHistory, history, Entry(code, now, description))];
      }
      r := Ok(());
    }

    /** updateSQLCode. */
    method UpdateSqlCode(sessionId: string, code: string, addToHistory: bool, description: Option<string>,
                         now: string, readFault: Option<string>, lookup: Result<SessionRow>, insertFault: bool,
                         updateFault: Option<string>)
      returns (r: Result<()>)
      modifies this
      ensures Outcome(rows, r) ==
              CodeUpdated(old(rows), sessionId, Sql, code, addToHistory, description, now, readFault, lookup, insertFault, updateFault)
    {
      r := UpdateCode(sessionId, Sql, code, addToHistory, description, now, readFault, lookup, insertFault, updateFault);
    }

    /** updatePythonCode. */
    method UpdatePythonCode(sessionId: string, code: string, addToHistory: bool, description: Option<string>,
                            now: string, readFault: Option<string>, lookup: Result<SessionRow>, insertFault: bool,
                            updateFault: Option<string>)
      returns (r: Result<()>)
      modifies this
      ensures Outcome(rows, r) ==
              CodeUpdated(old(rows), sessionId, Python, code, addToHistory, description, now, readFault, lookup, insertFault, updateFault)
    {
      r := UpdateCode(sessionId, Python, code, addToHistory, description, now, readFault, lookup, insertFault, updateFault);
    }

    method ClearCodeHistory(sessionId: string, kind: ClearKind, updateFault: Option<string>) returns (r: Result<()>)
      modifies this
      ensures Outcome(rows, r) == HistoryCleared(old(rows), sessionId, kind, updateFault)
    {
      if updateFault.Some? {
        return Err(updateFault.value);
      }
      if sessionId in rows {
        rows := rows[sessionId := Cleared(rows[sessionId], kind)];
      }
      r := Ok(());
    }

    method GetCodeHistory(sessionId: string, lang: Lang, readFault: Option<string>, lookup: Result<SessionRow>, insertFault: bool)
      returns (r: Result<seq<Entry>>)
      modifies this
      ensures Outcome(rows, r) == CodeHistory(old(rows), sessionId, lang, readFault, lookup, insertFault)
    {
      var sidebar := GetSidebar(sessionId, readFault, lookup, insertFault);
      if sidebar.Err? {
        return Err(sidebar.error);
      }
      r := Ok(HistoryOrEmpty(sidebar.value, lang));
    }

    method UpdateContextAnalysis(sessionId: string, analysis: Obj, now: string, lookup: Result<SessionRow>,
                                 upsertFault: Option<string>, verifyFault: bool)
      returns (r: Result<()>)
      modifies this
      ensures Outcome(rows, r) == ContextUpdated(old(rows), sessionId, analysis, now, lookup, upsertFault, verifyFault)
    {
      var context := Stamped(analysis, now);
      if lookup.Err? {
        return Err(SessionNotFound + lookup.error + ")");
      }
      if !TruthyString(lookup.value.filename) {
        return Err(FilenameNull);
      }
      if upsertFault.Some? {
        return Err(upsertFault.value);
      }
      rows := rows[sessionId := Upserted(rows, sessionId, lookup.value.filename.value, context)];
      var verified := rows[sessionId].contextAnalysis;
      r := if !verifyFault && verified.None? then Err(NotSaved) else Ok(());
    }
  }
}

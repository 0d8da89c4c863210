// The executor behind the agents' tool calls: it holds the session's Data
// DNA and the insights accumulated so far, and dispatches the five tool
// names. Every HTTP exchange with the analysis backend is an input.
module ToolExecutor {
  import opened Wrappers
  import opened Json
  import Text

  /** What a tool call hands back to the agent; the elapsed time is left out. */
  datatype ToolCallResult = ToolCallResult(success: bool, data: Option<Json>, error: Option<string>)

  /** The outcome of one fetch: a parsed body, a non-2xx answer with its text, or a thrown error. */
  datatype Response = HttpOk(body: Json) | HttpError(text: string) | NetworkError(message: string)

  /** The backend endpoints the executor talks to. */
  datatype Backend = Backend(
    session: Response,
    saveInsight: Json -> Response,
    sql: Json -> Response,
    python: Json -> Response)

  const ToolNames: set<string> := {"read_data_dna", "read_context", "write_context", "run_sql", "run_python"}

  /** The try/catch of executeToolCall: a value becomes a success, a thrown message a failure. */
  function ToCallResult(r: Result<Option<Json>>): (t: ToolCallResult)
    ensures t.success <==> r.Ok?
    ensures t.success ==> t.data == r.value && t.error.None?
    ensures !t.success ==> t.data.None? && t.error == Some(r.error)
  {
    match r
    case Ok(v) => ToolCallResult(true, v, None)
    case Err(e) => ToolCallResult(false, None, Some(e))
  }

  /** The session fetch of loadDataDNA: the body's data_dna, or the error thrown. */
  function SessionDna(resp: Response): (r: Result<Option<Json>>)
    ensures resp.HttpOk? && resp.body.JObj? ==> r == Ok(Lookup(resp.body.members, "data_dna"))
    ensures resp.HttpError? ==> r == Err("Failed to load session: " + resp.text)
    ensures resp.NetworkError? ==> r == Err(resp.message)
  {
    match resp
    case HttpOk(body) => Prop(body, "data_dna")
    case HttpError(text) => Err("Failed to load session: " + text)
    case NetworkError(m) => Err(m)
  }

  /** A truthy sections value whose length is zero. */
  predicate EmptyLength(sections: Json)
  {
    match sections
    case JArr(items) => |items| == 0
    case JStr(s) => |s| == 0
    case JObj(m) => Lookup(m, "length") == Some(JNum(0))
    case _ => false
  }

  /** The property keys `for (const section of sections)` visits: an array's
    * elements as property keys, a string's characters; anything else throws. */
  function SectionKeys(sections: Json): (r: Result<seq<string>>)
    ensures r.Ok? <==> sections.JArr? || sections.JStr?
    ensures sections.JArr? ==>
              |r.value| == |sections.items| && forall i | 0 <= i < |sections.items| :: r.value[i] == JsString(sections.items[i])
    ensures sections.JStr? ==>
              |r.value| == |sections.s| && forall i | 0 <= i < |sections.s| :: r.value[i] == [sections.s[i]]
  {
    match sections
    case JArr(items) => Ok(seq(|items|, i requires 0 <= i < |items| => JsString(items[i])))
    case JStr(s) => Ok(seq(|s|, i requires 0 <= i < |s| => [s[i]]))
    case _ => Err("args.sections is not iterable")
  }

  /** The object readDataDNA builds: each requested key whose value in the
    * DNA is truthy, written in request order. */
  function Selected(dna: Option<Json>, keys: seq<string>): Result<Obj>
    decreases |keys|
  {
    if keys == [] then Ok([])
    else
      var prev :- Selected(dna, keys[..|keys| - 1]);
      var v :- PropOf(dna, keys[|keys| - 1]);
      Ok(if TruthyOpt(v) then Put(prev, keys[|keys| - 1], v.value) else prev)
  }

  /** Reading a section fails exactly when the DNA is null or undefined. */
  lemma {:induction false} SelectedFails(dna: Option<Json>, keys: seq<string>)
    ensures Selected(dna, keys).Err? <==> keys != [] && (dna.None? || dna.value == JNull)
    decreases |keys|
  {
    if keys != [] {
      SelectedFails(dna, keys[..|keys| - 1]);
    }
  }

  /** A key reads from the selection as from the DNA when it was requested and
    * truthy there, and is absent otherwise. */
  lemma {:induction false} SelectedLookup(dna: Option<Json>, keys: seq<string>, k: string)
    requires Selected(dna, keys).Ok?
    ensures Lookup(Selected(dna, keys).value, k) ==
            if k in keys && TruthyOpt(PropOf(dna, k).value) then PropOf(dna, k).value else None
    decreases |keys|
  {
    if keys != [] {
      var init, last := keys[..|keys| - 1], keys[|keys| - 1];
      SelectedLast(dna, keys);
      SelectedLookup(dna, init, k);
      LookupPut(Selected(dna, init).value, last, PropOf(dna, last).value.GetOr(JNull), k);
      assert keys == init + [last];
      assert k in keys <==> k in init || k == last;
    }
  }

  /** The last requested key is written over the selection of the others when it is truthy. */
  lemma SelectedLast(dna: Option<Json>, keys: seq<string>)
    requires keys != [] && Selected(dna, keys).Ok?
    ensures Selected(dna, keys[..|keys| - 1]).Ok? && PropOf(dna, keys[|keys| - 1]).Ok?
    ensures var prev, v := Selected(dna, keys[..|keys| - 1]).value, PropOf(dna, keys[|keys| - 1]).value;
            Selected(dna, keys).value == if TruthyOpt(v) then Put(prev, keys[|keys| - 1], v.value) else prev
  {
  }

  /** `insight.finding?.toLowerCase().includes(q.toLowerCase())`: a missing or
    * null finding short-circuits the whole chain, so the query is only read
    * for an insight whose finding is a string. */
  function FindingMatches(insight: Json, q: Json): (r: Result<bool>)
    ensures r.Err? <==> insight == JNull || (insight.JObj? && Lookup(insight.members, "finding").Some?
                                              && Lookup(insight.members, "finding").value != JNull
                                              && (!Lookup(insight.members, "finding").value.JStr? || !q.JStr?))
    ensures r == Ok(true) <==> insight.JObj? && Lookup(insight.members, "finding").Some?
                               && Lookup(insight.members, "finding").value.JStr? && q.JStr?
                               && Text.Contains(Text.Lower(Lookup(insight.members, "finding").value.s), Text.Lower(q.s))
  {
    match Prop(insight, "finding")
    case Err(e) => Err(e)
    case Ok(f) =>
      if f.None? || f.value == JNull then Ok(false)
      else if !f.value.JStr? then Err("insight.finding?.toLowerCase is not a function")
      else if !q.JStr? then Err("args.query_type.toLowerCase is not a function")
      else Ok(Text.Contains(Text.Lower(f.value.s), Text.Lower(q.s)))
  }

  /** The insight filter of readContext; the first insight the test throws on aborts it. */
  function FilterInsights(insights: seq<Json>, q: Json): (r: Result<seq<Json>>)
    ensures r.Ok? <==> forall i | 0 <= i < |insights| :: FindingMatches(insights[i], q).Ok?
    ensures r.Ok? ==> |r.value| <= |insights|
  {
    if insights == [] then Ok([])
    else
      var keep :- FindingMatches(insights[0], q);
      var rest :- FilterInsights(insights[1..], q);
      assert forall i | 1 <= i < |insights| :: insights[i] == insights[1..][i - 1];
      Ok(if keep then [insights[0]] + rest else rest)
  }

  /** The filter keeps exactly the insights whose finding mentions the query. */
  lemma {:induction false} FilterInsightsMembers(insights: seq<Json>, q: Json, x: Json)
    requires FilterInsights(insights, q).Ok?
    ensures x in FilterInsights(insights, q).value <==> x in insights && FindingMatches(x, q) == Ok(true)
  {
    if insights != [] {
      assert insights == [insights[0]] + insights[1..];
      FilterCons(insights[0], insights[1..], q);
      FilterInsightsMembers(insights[1..], q, x);
    }
  }

  /** The filter keeps the insights' order: filtering a concatenation
    * concatenates the filtered parts. */
  lemma {:induction false} FilterInsightsAppend(a: seq<Json>, b: seq<Json>, q: Json)
    requires FilterInsights(a, q).Ok? && FilterInsights(b, q).Ok?
    ensures FilterInsights(a + b, q) == Ok(FilterInsights(a, q).value + FilterInsights(b, q).value)
  {
    if a == [] {
      assert a + b == b;
      assert [] + FilterInsights(b, q).value == FilterInsights(b, q).value;
    } else {
      var x, a' := a[0], a[1..];
      assert a == [x] + a';
      assert a + b == [x] + (a' + b);
      FilterCons(x, a', q);
      FilterInsightsAppend(a', b, q);
      FilterCons(x, a' + b, q);
      var head := if FindingMatches(x, q).value then [x] else [];
      assert head + (FilterInsights(a', q).value + FilterInsights(b, q).value)
          == (head + FilterInsights(a', q).value) + FilterInsights(b, q).value;
    }
  }

  /** One step of the filter. */
  lemma FilterCons(x: Json, rest: seq<Json>, q: Json)
    ensures FilterInsights([x] + rest, q).Ok? <==> FindingMatches(x, q).Ok? && FilterInsights(rest, q).Ok?
    ensures FilterInsights([x] + rest, q).Ok? ==>
              FilterInsights([x] + rest, q).value ==
              (if FindingMatches(x, q).value then [x] else []) + FilterInsights(rest, q).value
  {
    assert ([x] + rest)[0] == x && ([x] + rest)[1..] == rest;
  }

  /** `if (!insight.timestamp) insight.timestamp = now`, in strict mode: an
    * object gains the property, an array keeps its elements, a primitive throws. */
  function Stamp(insight: Json, nowIso: string): (r: Result<Json>)
    requires insight != JNull
    ensures insight.JObj? ==> r.Ok? && r.value.JObj?
    ensures insight.JObj? && TruthyOpt(Lookup(insight.members, "timestamp")) ==> r == Ok(insight)
    ensures insight.JObj? && !TruthyOpt(Lookup(insight.members, "timestamp")) ==>
              Lookup(r.value.members, "timestamp") == Some(JStr(nowIso))
              && forall k | k != "timestamp" :: Lookup(r.value.members, k) == Lookup(insight.members, k)
    ensures r.Err? <==> (insight.JBool? || insight.JNum? || insight.JStr?) && !TruthyOpt(Prop(insight, "timestamp").value)
  {
    var ts := Prop(insight, "timestamp").value;
    if TruthyOpt(ts) then Ok(insight)
    else match insight
      case JObj(m) =>
        assert forall k :: Lookup(Put(m, "timestamp", JStr(nowIso)), k) ==
                           if k == "timestamp" then Some(JStr(nowIso)) else Lookup(m, k) by {
          forall k { LookupPut(m, "timestamp", JStr(nowIso), k); }
        }
        Ok(JObj(Put(m, "timestamp", JStr(nowIso))))
      case JArr(_) => Ok(insight)
      case _ => Err("Cannot create property 'timestamp' on " + TypeName(insight) + " '" + JsString(insight) + "'")
  }

  function TypeName(j: Json): string
  {
    match j
    case JBool(_) => "boolean"
    case JNum(_) => "number"
    case JStr(_) => "string"
    case _ => "object"
  }

  /** A three-member object literal whose middle value may be undefined, which
    * JSON.stringify leaves out. */
  function Literal3(a: (string, Json), b: (string, Option<Json>), c: (string, Json)): Obj
  {
    if b.1.Some? then [a, (b.0, b.1.value), c] else [a, c]
  }

  lemma LookupLiteral3(a: (string, Json), b: (string, Option<Json>), c: (string, Json), k: string)
    requires a.0 != b.0 && b.0 != c.0 && a.0 != c.0
    ensures Lookup(Literal3(a, b, c), k) ==
            if k == c.0 then Some(c.1) else if k == b.0 then b.1 else if k == a.0 then Some(a.1) else None
  {
    assert [a][..0] == [];
    assert Lookup([a], k) == if k == a.0 then Some(a.1) else None;
    if b.1.Some? {
      var bb := (b.0, b.1.value);
      var o := [a, bb, c];
      assert o[..2] == [a, bb];
      assert [a, bb][..1] == [a];
      assert Lookup([a, bb], k) == if k == bb.0 then Some(bb.1) else Lookup([a], k);
      assert Lookup(o, k) == if k == c.0 then Some(c.1) else Lookup([a, bb], k);
    } else {
      var o := [a, c];
      assert o[..1] == [a];
      assert Lookup(o, k) == if k == c.0 then Some(c.1) else Lookup([a], k);
    }
  }

  /** The body POSTed to the SQL endpoint; a falsy limit becomes 500. */
  function SqlRequest(sessionId: string, args: Json): (r: Result<Json>)
    ensures r.Err? <==> args == JNull
    ensures r.Ok? ==> r.value.JObj?
    ensures r.Ok? ==> Lookup(r.value.members, "limit") ==
                      Some(if TruthyOpt(Prop(args, "limit").value) then Prop(args, "limit").value.value else JNum(500))
    ensures r.Ok? ==> Lookup(r.value.members, "session_id") == Some(JStr(sessionId))
                      && Lookup(r.value.members, "sql") == Prop(args, "sql").value
  {
    if args == JNull then Err("Cannot read properties of null (reading 'sql')") else
    var sql, limit := Prop(args, "sql").value, Prop(args, "limit").value;
    LookupLiteral3(("session_id", JStr(sessionId)), ("sql", sql), ("limit", Or(limit, JNum(500))), "session_id");
    LookupLiteral3(("session_id", JStr(sessionId)), ("sql", sql), ("limit", Or(limit, JNum(500))), "sql");
    LookupLiteral3(("session_id", JStr(sessionId)), ("sql", sql), ("limit", Or(limit, JNum(500))), "limit");
    Ok(JObj(Literal3(("session_id", JStr(sessionId)), ("sql", sql), ("limit", Or(limit, JNum(500))))))
  }

  /** The body POSTed to the Python endpoint; a falsy timeout becomes 10. */
  function PythonRequest(sessionId: string, args: Json): (r: Result<Json>)
    ensures r.Err? <==> args == JNull
    ensures r.Ok? ==> r.value.JObj?
    ensures r.Ok? ==> Lookup(r.value.members, "timeout") ==
                      Some(if TruthyOpt(Prop(args, "timeout").value) then Prop(args, "timeout").value.value else JNum(10))
    ensures r.Ok? ==> Lookup(r.value.members, "session_id") == Some(JStr(sessionId))
                      && Lookup(r.value.members, "code") == Prop(args, "code").value
  {
    if args == JNull then Err("Cannot read properties of null (reading 'code')") else
    var code, timeout := Prop(args, "code").value, Prop(args, "timeout").value;
    LookupLiteral3(("session_id", JStr(sessionId)), ("code", code), ("timeout", Or(timeout, JNum(10))), "session_id");
    LookupLiteral3(("session_id", JStr(sessionId)), ("code", code), ("timeout", Or(timeout, JNum(10))), "code");
    LookupLiteral3(("session_id", JStr(sessionId)), ("code", code), ("timeout", Or(timeout, JNum(10))), "timeout");
    Ok(JObj(Literal3(("session_id", JStr(sessionId)), ("code", code), ("timeout", Or(timeout, JNum(10))))))
  }

  /** A service answer: the parsed body, or the error thrown with its prefix. */
  function ServiceResult(resp: Response, prefix: string): (r: Result<Option<Json>>)
    ensures resp.HttpOk? <==> r.Ok?
    ensures resp.HttpOk? ==> r.value == Some(resp.body)
    ensures resp.HttpError? ==> r.error == prefix + resp.text
    ensures resp.NetworkError? ==> r.error == resp.message
  {
    match resp
    case HttpOk(body) => Ok(Some(body))
    case HttpError(text) => Err(prefix + text)
    case NetworkError(m) => Err(m)
  }

  /** runSQL: the request is built from the arguments and POSTed; a 2xx answer
    * is the result, anything else throws. */
  function RunSql(sessionId: string, args: Json, backend: Backend): (r: Result<Option<Json>>)
    ensures args == JNull ==> r == Err(SqlRequest(sessionId, args).error)
    ensures args != JNull ==>
              var resp := backend.sql(SqlRequest(sessionId, args).value);
              && (r.Ok? <==> resp.HttpOk?)
              && (resp.HttpOk? ==> r == Ok(Some(resp.body)))
              && (resp.HttpError? ==> r == Err("SQL execution failed: " + resp.text))
              && (resp.NetworkError? ==> r == Err(resp.message))
  {
    var body :- SqlRequest(sessionId, args);
    ServiceResult(backend.sql(body), "SQL execution failed: ")
  }

  /** runPython: as runSQL, against the Python endpoint. */
  function RunPython(sessionId: string, args: Json, backend: Backend): (r: Result<Option<Json>>)
    ensures args == JNull ==> r == Err(PythonRequest(sessionId, args).error)
    ensures args != JNull ==>
              var resp := backend.python(PythonRequest(sessionId, args).value);
              && (r.Ok? <==> resp.HttpOk?)
              && (resp.HttpOk? ==> r == Ok(Some(resp.body)))
              && (resp.HttpError? ==> r == Err("Python execution failed: " + resp.text))
              && (resp.NetworkError? ==> r == Err(resp.message))
  {
    var body :- PythonRequest(sessionId, args);
    ServiceResult(backend.python(body), "Python execution failed: ")
  }


  /** What the executor holds: the Data DNA (`None` is undefined, `Some(JNull)`
    * null) and its list of accumulated insights. */
  datatype State = State(dataDna: Option<Json>, insights: Json)

  /** A new executor: a null DNA and an empty list. */
  const Initial := State(Some(JNull), JArr([]))

  /** After a load the executor's list is the very array the DNA holds under
    * accumulated_insights whenever that value is truthy. */
  predicate Aliased(dna: Option<Json>)
  {
    TruthyOpt(Get(dna, "accumulated_insights"))
  }

  /** The list is the DNA's own value when the two are aliased, and a separate array otherwise. */
  predicate Coherent(st: State)
  {
    if Aliased(st.dataDna) then st.insights == Get(st.dataDna, "accumulated_insights").value
    else st.insights.JArr?
  }

  /** The state loadDataDNA leaves: the session's DNA and
    * `data_dna?.accumulated_insights || []`. */
  function Loaded(dna: Option<Json>): (st: State)
    ensures st.dataDna == dna && Coherent(st)
    ensures !Aliased(dna) ==> st.insights == JArr([])
  {
    State(dna, Or(Get(dna, "accumulated_insights"), JArr([])))
  }

  /** The lazy load readDataDNA and readContext start with: a truthy DNA is kept
    * without a fetch, otherwise the session is loaded and its failure thrown. */
  function EnsureLoadedOf(st: State, backend: Backend): (r: Result<State>)
    ensures TruthyOpt(st.dataDna) ==> r == Ok(st)
    ensures !TruthyOpt(st.dataDna) ==> (r.Ok? <==> SessionDna(backend.session).Ok?)
    ensures !TruthyOpt(st.dataDna) && r.Ok? ==> r.value.dataDna == SessionDna(backend.session).value && Coherent(r.value)
    ensures r.Err? ==> r.error == SessionDna(backend.session).error
  {
    if TruthyOpt(st.dataDna) then Ok(st)
    else
      var dna :- SessionDna(backend.session);
      Ok(Loaded(dna))
  }

  /** The answer of read_data_dna once the DNA is loaded. */
  function ReadDna(dna: Option<Json>, args: Json): (r: Result<Option<Json>>)
    ensures r.Err? <==> args == JNull
                        || (var s := Prop(args, "sections").value;
                            TruthyOpt(s) && !EmptyLength(s.value)
                            && (!(s.value.JArr? || s.value.JStr?) || dna.None? || dna.value == JNull))
    ensures args != JNull && (!TruthyOpt(Prop(args, "sections").value) || EmptyLength(Prop(args, "sections").value.value)) ==>
              r == Ok(dna)
    ensures r.Ok? && TruthyOpt(Prop(args, "sections").value) && !EmptyLength(Prop(args, "sections").value.value) ==>
              r.value.Some? && r.value.value.JObj?
              && forall k :: Lookup(r.value.value.members, k) ==
                             if k in SectionKeys(Prop(args, "sections").value.value).value && TruthyOpt(PropOf(dna, k).value)
                             then PropOf(dna, k).value else None
  {
    var sections :- Prop(args, "sections");
    if !TruthyOpt(sections) || EmptyLength(sections.value) then Ok(dna)
    else
      var keys :- SectionKeys(sections.value);
      assert keys != [] by {
        if sections.value.JArr? { assert |keys| == |sections.value.items|; } else { assert |keys| == |sections.value.s|; }
      }
      SelectedFails(dna, keys);
      var sel :- Selected(dna, keys);
      assert forall k :: Lookup(sel, k) == if k in keys && TruthyOpt(PropOf(dna, k).value) then PropOf(dna, k).value else None by {
        forall k { SelectedLookup(dna, keys, k); }
      }
      Ok(Some(JObj(sel)))
  }

  /** read_data_dna: the lazy load, then the answer; a failed load changes nothing. */
  function ReadDataDnaOf(st: State, args: Json, backend: Backend): (r: (Result<Option<Json>>, State))
    ensures TruthyOpt(st.dataDna) ==> r == (ReadDna(st.dataDna, args), st)
    ensures !TruthyOpt(st.dataDna) && SessionDna(backend.session).Err? ==> r == (Err(SessionDna(backend.session).error), st)
    ensures !TruthyOpt(st.dataDna) && SessionDna(backend.session).Ok? ==>
              r == (ReadDna(SessionDna(backend.session).value, args), Loaded(SessionDna(backend.session).value))
  {
    match EnsureLoadedOf(st, backend)
    case Err(e) => (Err(e), st)
    case Ok(s) => (ReadDna(s.dataDna, args), s)
  }

  /** The answer of read_context once loaded: `{ insights }` for a falsy query
    * type or "all", else the insights whose finding mentions it. */
  function Context(insights: Json, args: Json): (r: Result<Json>)
    ensures r.Err? <==> args == JNull
                        || (var qt := Prop(args, "query_type").value;
                            TruthyOpt(qt) && qt != Some(JStr("all"))
                            && (!insights.JArr? || FilterInsights(insights.items, qt.value).Err?))
    ensures r.Ok? ==> r.value.JObj? && |r.value.members| == 1 && r.value.members[0].0 == "insights"
    ensures r.Ok? && (!TruthyOpt(Prop(args, "query_type").value) || Prop(args, "query_type").value == Some(JStr("all"))) ==>
              r.value.members[0].1 == insights
    ensures r.Ok? && TruthyOpt(Prop(args, "query_type").value) && Prop(args, "query_type").value != Some(JStr("all")) ==>
              insights.JArr? && r.value.members[0].1.JArr?
              && forall x :: x in r.value.members[0].1.items <==>
                             x in insights.items && FindingMatches(x, Prop(args, "query_type").value.value) == Ok(true)
  {
    var qt :- Prop(args, "query_type");
    if !TruthyOpt(qt) || qt == Some(JStr("all")) then Ok(JObj([("insights", insights)]))
    else if !insights.JArr? then Err("insights.filter is not a function")
    else
      var filtered :- FilterInsights(insights.items, qt.value);
      assert forall x :: x in filtered <==> x in insights.items && FindingMatches(x, qt.value) == Ok(true) by {
        forall x { FilterInsightsMembers(insights.items, qt.value, x); }
      }
      Ok(JObj([("insights", JArr(filtered))]))
  }

  /** read_context: the lazy load, then the answer from the loaded list. */
  function ReadContextOf(st: State, args: Json, backend: Backend): (r: (Result<Json>, State))
    ensures TruthyOpt(st.dataDna) ==> r == (Context(st.insights, args), st)
    ensures !TruthyOpt(st.dataDna) && SessionDna(backend.session).Err? ==> r == (Err(SessionDna(backend.session).error), st)
    ensures !TruthyOpt(st.dataDna) && SessionDna(backend.session).Ok? ==>
              r.1 == Loaded(SessionDna(backend.session).value) && r.0 == Context(r.1.insights, args)
  {
    match EnsureLoadedOf(st, backend)
    case Err(e) => (Err(e), st)
    case Ok(s) => (Context(s.insights, args), s)
  }

  /** The insight write_context appends: args.insight, given the current time
    * when its timestamp is falsy. */
  function StampedInsight(args: Json, nowIso: string): (r: Result<Json>)
    ensures r.Ok? ==> args != JNull && Prop(args, "insight").value.Some? && Prop(args, "insight").value.value != JNull
                      && r == Stamp(Prop(args, "insight").value.value, nowIso)
    ensures args.JObj? && Lookup(args.members, "insight").Some? && Lookup(args.members, "insight").value.JObj? ==> r.Ok?
  {
    var insight :- Prop(args, "insight");
    var ts :- PropOf(insight, "timestamp");
    Stamp(insight.value, nowIso)
  }

  /** `this.accumulatedInsights.push(item)`: the list grows by one, and when it
    * is the DNA's own array the DNA's accumulated_insights grows with it. */
  function Push(st: State, item: Json): (r: State)
    requires st.insights.JArr?
    ensures r.insights == JArr(st.insights.items + [item]) && Coherent(r)
    ensures Aliased(st.dataDna) ==>
              r.dataDna.Some? && r.dataDna.value.JObj?
              && Get(r.dataDna, "accumulated_insights") == Some(r.insights)
              && forall k | k != "accumulated_insights" :: Get(r.dataDna, k) == Get(st.dataDna, k)
    ensures !Aliased(st.dataDna) ==> r.dataDna == st.dataDna
  {
    var grown := JArr(st.insights.items + [item]);
    if Aliased(st.dataDna) then
      var m := st.dataDna.value.members;
      assert forall k :: Lookup(Put(m, "accumulated_insights", grown), k) ==
                         if k == "accumulated_insights" then Some(grown) else Lookup(m, k) by {
        forall k { LookupPut(m, "accumulated_insights", grown, k); }
      }
      State(Some(JObj(Put(m, "accumulated_insights", grown))), grown)
    else State(st.dataDna, grown)
  }

  /** The answer of the insight POST. */
  function SaveResult(resp: Response): (r: Result<Json>)
    ensures r.Ok? <==> resp.HttpOk?
    ensures r.Ok? ==> r.value == InsightSaved
    ensures resp.HttpError? ==> r.error == "Failed to save insight: " + resp.text
    ensures resp.NetworkError? ==> r.error == resp.message
  {
    match resp
    case HttpOk(_) => Ok(InsightSaved)
    case HttpError(text) => Err("Failed to save insight: " + text)
    case NetworkError(m) => Err(m)
  }

  const InsightSaved := JObj([("success", JBool(true)), ("message", JStr("Insight saved to accumulated context"))])

  /** write_context: the stamped insight is pushed before the save, so a failed
    * save still leaves it in the list; a list that is not an array throws. */
  function WriteContextOf(st: State, args: Json, nowIso: string, backend: Backend): (r: (Result<Json>, State))
    ensures r.0.Ok? ==> r.0.value == InsightSaved
    ensures StampedInsight(args, nowIso).Err? ==> r == (Err(StampedInsight(args, nowIso).error), st)
    ensures StampedInsight(args, nowIso).Ok? && !st.insights.JArr? ==>
              r == (Err("this.accumulatedInsights.push is not a function"), st)
    ensures StampedInsight(args, nowIso).Ok? && st.insights.JArr? ==>
              var stamped := StampedInsight(args, nowIso).value;
              r.1 == Push(st, stamped)
              && r.0 == SaveResult(backend.saveInsight(JObj([("insight", stamped)])))
  {
    match StampedInsight(args, nowIso)
    case Err(e) => (Err(e), st)
    case Ok(stamped) =>
      if !st.insights.JArr? then (Err("this.accumulatedInsights.push is not a function"), st)
      else (SaveResult(backend.saveInsight(JObj([("insight", stamped)]))), Push(st, stamped))
  }

  /** executeToolCall on a state: dispatch on the five tool names; nothing is thrown. */
  function Execute(st: State, sessionId: string, name: string, args: Json, nowIso: string, backend: Backend): (r: (ToolCallResult, State))
    ensures r.0.success <==> r.0.error.None?
    ensures !r.0.success ==> r.0.data.None? && r.0.error.Some?
    ensures name !in ToolNames ==> r == (ToolCallResult(false, None, Some("Unknown tool: " + name)), st)
    ensures name == "run_sql" ==> r == (ToCallResult(RunSql(sessionId, args, backend)), st)
    ensures name == "run_python" ==> r == (ToCallResult(RunPython(sessionId, args, backend)), st)
    ensures name == "read_data_dna" ==>
              r == (ToCallResult(ReadDataDnaOf(st, args, backend).0), ReadDataDnaOf(st, args, backend).1)
    ensures name == "read_context" ==>
              r.1 == ReadContextOf(st, args, backend).1
              && (r.0.success <==> ReadContextOf(st, args, backend).0.Ok?)
              && (r.0.success ==> r.0.data == Some(ReadContextOf(st, args, backend).0.value))
    ensures name == "write_context" ==>
              r.1 == WriteContextOf(st, args, nowIso, backend).1
              && (r.0.success <==> WriteContextOf(st, args, nowIso, backend).0.Ok?)
              && (r.0.success ==> r.0.data == Some(InsightSaved))
    ensures Coherent(st) ==> Coherent(r.1)
    ensures name != "write_context" && TruthyOpt(st.dataDna) ==> r.1 == st
  {
    if name == "read_data_dna" then
      var o := ReadDataDnaOf(st, args, backend);
      (ToCallResult(o.0), o.1)
    else if name == "read_context" then
      var o := ReadContextOf(st, args, backend);
      (ToCallResult(if o.0.Ok? then Ok(Some(o.0.value)) else Err(o.0.error)), o.1)
    else if name == "write_context" then
      var o := WriteContextOf(st, args, nowIso, backend);
      (ToCallResult(if o.0.Ok? then Ok(Some(o.0.value)) else Err(o.0.error)), o.1)
    else if name == "run_sql" then (ToCallResult(RunSql(sessionId, args, backend)), st)
    else if name == "run_python" then (ToCallResult(RunPython(sessionId, args, backend)), st)
    else (ToolCallResult(false, None, Some("Unknown tool: " + name)), st)
  }

  /** The DNA's accumulated_insights and the executor's list stay one array:
    * after a write to an aliased list, reading that section of the DNA gives
    * the grown list without a fetch. */
  lemma WriteSeenInDna(st: State, args: Json, nowIso: string, backend: Backend)
    requires Coherent(st) && Aliased(st.dataDna) && st.insights.JArr?
    requires StampedInsight(args, nowIso).Ok?
    ensures var after := WriteContextOf(st, args, nowIso, backend).1;
            var grown := JArr(st.insights.items + [StampedInsight(args, nowIso).value]);
            ReadDataDnaOf(after, JObj([("sections", JArr([JStr("accumulated_insights")]))]), backend)
              == (Ok(Some(JObj([("accumulated_insights", grown)]))), after)
  {
    var stamped := StampedInsight(args, nowIso).value;
    var after := Push(st, stamped);
    assert WriteContextOf(st, args, nowIso, backend).1 == after;
    var grown := JArr(st.insights.items + [stamped]);
    assert after.dataDna.Some? && after.dataDna.value.JObj? && TruthyOpt(after.dataDna);
    var req := JObj([("sections", JArr([JStr("accumulated_insights")]))]);
    assert Lookup(req.members, "sections") == Some(JArr([JStr("accumulated_insights")]));
    var keys := SectionKeys(JArr([JStr("accumulated_insights")])).value;
    assert keys == ["accumulated_insights"];
    assert keys[..0] == [];
    assert PropOf(after.dataDna, "accumulated_insights") == Ok(Some(grown));
    assert Selected(after.dataDna, keys) == Ok(Put([], "accumulated_insights", grown));
    assert ReadDna(after.dataDna, req) == Ok(Some(JObj([("accumulated_insights", grown)])));
    assert ReadDataDnaOf(after, req, backend) == (ReadDna(after.dataDna, req), after);
  }

  /** An insight written to a loaded executor is in the next unfiltered read_context. */
  lemma WriteSeenInContext(st: State, args: Json, nowIso: string, backend: Backend)
    requires TruthyOpt(st.dataDna) && st.insights.JArr?
    requires StampedInsight(args, nowIso).Ok?
    ensures var after := WriteContextOf(st, args, nowIso, backend).1;
            ReadContextOf(after, JObj([]), backend).0
              == Ok(JObj([("insights", JArr(st.insights.items + [StampedInsight(args, nowIso).value]))]))
  {
    var after := WriteContextOf(st, args, nowIso, backend).1;
    assert TruthyOpt(after.dataDna);
    assert Prop(JObj([]), "query_type") == Ok(None);
  }

  /** With a null or undefined DNA every section read throws on the first key. */
  lemma {:induction false} SelectedNullDna(dna: Option<Json>, keys: seq<string>)
    requires keys != [] && (dna.None? || dna.value == JNull)
    ensures Selected(dna, keys) == Err(PropOf(dna, keys[0]).error)
    decreases |keys|
  {
    if |keys| > 1 {
      assert keys[..|keys| - 1][0] == keys[0];
      SelectedNullDna(dna, keys[..|keys| - 1]);
    } else {
      assert keys[..0] == [];
    }
  }

  class ToolExecutor {
    var sessionId: string
    /** `None` is undefined, `Some(JNull)` is null. */
    var dataDna: Option<Json>
    var accumulatedInsights: Json

    function Current(): State
      reads this
    {
      State(dataDna, accumulatedInsights)
    }

    constructor(sessionId: string)
      ensures this.sessionId == sessionId && Current() == Initial && Coherent(Current())
    {
      this.sessionId := sessionId;
      dataDna := Some(JNull);
      accumulatedInsights := JArr([]);
    }

    /** loadDataDNA: on success both fields are read from the session; on failure nothing changes. */
    method LoadDataDna(backend: Backend) returns (r: Result<()>)
      modifies this
      ensures sessionId == old(sessionId)
      ensures r.Ok? <==> SessionDna(backend.session).Ok?
      ensures r.Ok? ==> Current() == Loaded(SessionDna(backend.session).value)
      ensures r.Err? ==> r.error == SessionDna(backend.session).error && Current() == old(Current())
    {
      var dna := SessionDna(backend.session);
      if dna.Err? {
        return Err(dna.error);
      }
      dataDna := dna.value;
      accumulatedInsights := Or(Get(dna.value, "accumulated_insights"), JArr([]));
      return Ok(());
    }

    /** The lazy load readDataDNA and readContext start with. */
    method EnsureLoaded(backend: Backend) returns (r: Result<()>)
      modifies this
      ensures sessionId == old(sessionId)
      ensures r.Ok? <==> EnsureLoadedOf(old(Current()), backend).Ok?
      ensures r.Ok? ==> Current() == EnsureLoadedOf(old(Current()), backend).value
      ensures r.Err? ==> r.error == EnsureLoadedOf(old(Current()), backend).error && Current() == old(Current())
    {
      if !TruthyOpt(dataDna) {
        r := LoadDataDna(backend);
      } else {
        r := Ok(());
      }
    }

    /** read_data_dna: the whole DNA when no sections are asked for, else the
      * truthy requested sections, collected key by key. */
    method ReadDataDna(args: Json, backend: Backend) returns (r: Result<Option<Json>>)
      modifies this
      ensures sessionId == old(sessionId)
      ensures (r, Current()) == ReadDataDnaOf(old(Current()), args, backend)
    {
      var loaded := EnsureLoaded(backend);
      if loaded.Err? {
        return Err(loaded.error);
      }
      label loaded:
      var sections :- Prop(args, "sections");
      if !TruthyOpt(sections) || EmptyLength(sections.value) {
        return Ok(dataDna);
      }
      var keys :- SectionKeys(sections.value);
      var filtered: Obj := [];
      var i := 0;
      while i < |keys|
        invariant 0 <= i <= |keys|
        invariant Selected(dataDna, keys[..i]) == Ok(filtered)
        invariant sessionId == old(sessionId) && Current() == old@loaded(Current())
      {
        assert keys[..i + 1][..i] == keys[..i];
        SelectedFails(dataDna, keys[..i]);
        var v := PropOf(dataDna, keys[i]);
        if v.Err? {
          if i > 0 {
            assert false;
          }
          SelectedNullDna(dataDna, keys);
          return Err(v.error);
        }
        if TruthyOpt(v.value) {
          filtered := Put(filtered, keys[i], v.value.value);
        }
        i := i + 1;
      }
      assert keys[..i] == keys;
      return Ok(Some(JObj(filtered)));
    }

    /** read_context: every insight for no query type or "all", else the
      * insights whose finding mentions it, ignoring letter case. */
    method ReadContext(args: Json, backend: Backend) returns (r: Result<Json>)
      modifies this
      ensures sessionId == old(sessionId)
      ensures (r, Current()) == ReadContextOf(old(Current()), args, backend)
    {
      var loaded := EnsureLoaded(backend);
      if loaded.Err? {
        return Err(loaded.error);
      }
      r := Context(accumulatedInsights, args);
    }

    /** write_context: the insight is stamped and pushed, then POSTed. */
    method WriteContext(args: Json, nowIso: string, backend: Backend) returns (r: Result<Json>)
      modifies this
      ensures sessionId == old(sessionId)
      ensures (r, Current()) == WriteContextOf(old(Current()), args, nowIso, backend)
    {
      var stamped :- StampedInsight(args, nowIso);
      if !accumulatedInsights.JArr? {
        return Err("this.accumulatedInsights.push is not a function");
      }
      var next := Push(Current(), stamped);
      dataDna, accumulatedInsights := next.dataDna, next.insights;
      r := SaveResult(backend.saveInsight(JObj([("insight", stamped)])));
    }

    /** executeToolCall: dispatch on the five tool names; never throws. */
    method ExecuteToolCall(toolName: string, args: Json, nowIso: string, backend: Backend) returns (r: ToolCallResult)
      modifies this
      ensures sessionId == old(sessionId)
      ensures (r, Current()) == Execute(old(Current()), sessionId, toolName, args, nowIso, backend)
    {
      var res: Result<Option<Json>>;
      if toolName == "read_data_dna" {
        res := ReadDataDna(args, backend);
      } else if toolName == "read_context" {
        var c := ReadContext(args, backend);
        res := if c.Ok? then Ok(Some(c.value)) else Err(c.error);
      } else if toolName == "write_context" {
        var w := WriteContext(args, nowIso, backend);
        res := if w.Ok? then Ok(Some(w.value)) else Err(w.error);
      } else if toolName == "run_sql" {
        res := RunSql(sessionId, args, backend);
      } else if toolName == "run_python" {
        res := RunPython(sessionId, args, backend);
      } else {
        res := Err("Unknown tool: " + toolName);
      }
      r := ToCallResult(res);
    }

    function GetDataDna(): Option<Json>
      reads this
    {
      dataDna
    }

    function GetAccumulatedInsights(): Json
      reads this
    {
      accumulatedInsights
    }
  }
}

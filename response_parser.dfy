// Parsing of the composer agent's reply into its structured response. The
// two regular expressions and JSON.parse are inputs: `fence` gives the JSON
// captured inside a ``` block, `embedded` the first `{ … "text" … }` span,
// and `parse` the outcome of JSON.parse.
module ResponseParser {
  import opened Wrappers
  import opened Json
  import Text

  /** The normalised composer response. `undefined` fields are `None`. */
  datatype ComposerResponse = ComposerResponse(
    text: string,
    metrics: Json,
    chartSpec: Json,
    confidence: Option<int>,
    followUps: seq<Json>,
    sqlUsed: Json,
    insightType: Option<Json>,
    dataRows: Option<Json>,
    warning: Json)

  const InvalidTextError := "Missing or invalid \"text\" field"

  /** `json.<k> || null`. */
  function OrNull(json: Json, k: string): (v: Json)
    ensures v == JNull || Truthy(v)
    ensures TruthyOpt(Get(Some(json), k)) ==> v == Get(Some(json), k).value
  {
    Or(Get(Some(json), k), JNull)
  }

  /** The text field is usable when it is a non-empty string. */
  predicate ValidText(text: Option<Json>)
  {
    text.Some? && text.value.JStr? && text.value.s != ""
  }

  /** validateComposerResponse: a truthy string `text` is required; the other
    * fields get their defaults. Reading a field of null throws. */
  function ValidateComposerResponse(json: Json): (r: Result<ComposerResponse>)
    ensures r.Ok? <==> json != JNull && ValidText(Get(Some(json), "text"))
    ensures r.Ok? ==> && JStr(r.value.text) == Get(Some(json), "text").value
                      && r.value.metrics == OrNull(json, "metrics")
                      && r.value.chartSpec == OrNull(json, "chart_spec")
                      && r.value.sqlUsed == OrNull(json, "sql_used")
                      && r.value.warning == OrNull(json, "warning")
                      && r.value.insightType == Get(Some(json), "insight_type")
                      && r.value.dataRows == Get(Some(json), "data_rows")
    ensures r.Ok? ==> (r.value.confidence.Some? <==> Get(Some(json), "confidence").Some? && Get(Some(json), "confidence").value.JNum?)
    ensures r.Ok? && r.value.confidence.Some? ==> Get(Some(json), "confidence") == Some(JNum(r.value.confidence.value))
    ensures r.Ok? ==> var f := Get(Some(json), "follow_ups");
                      r.value.followUps == if f.Some? && f.value.JArr? then f.value.items else []
  {
    var text :- Prop(json, "text");
    if !ValidText(text) then Err(InvalidTextError)
    else
      var confidence := Get(Some(json), "confidence");
      var followUps := Get(Some(json), "follow_ups");
      Ok(ComposerResponse(
        text.value.s,
        OrNull(json, "metrics"),
        OrNull(json, "chart_spec"),
        if confidence.Some? && confidence.value.JNum? then Some(confidence.value.n) else None,
        if followUps.Some? && followUps.value.JArr? then followUps.value.items else [],
        OrNull(json, "sql_used"),
        Get(Some(json), "insight_type"),
        Get(Some(json), "data_rows"),
        OrNull(json, "warning")))
  }

  /** JSON.parse of one candidate followed by validation; any failure is null. */
  function Attempt(parsed: Result<Json>): (r: Option<ComposerResponse>)
    ensures r.Some? <==> parsed.Ok? && ValidateComposerResponse(parsed.value).Ok?
    ensures r.Some? ==> r.value == ValidateComposerResponse(parsed.value).value
  {
    if parsed.Err? then None
    else
      var v := ValidateComposerResponse(parsed.value);
      if v.Err? then None else Some(v.value)
  }

  /** The text the parse is applied to: the fenced JSON when the fence matches,
    * else the embedded object when that matches, else the whole reply. */
  function Candidate(raw: string, fence: string -> Option<string>, embedded: string -> Option<string>): string
  {
    match fence(raw)
    case Some(body) => body
    case None =>
      match embedded(raw)
      case Some(m) => m
      case None => raw
  }

  /** parseComposerResponse: the first strategy whose pattern matches decides;
    * its failure to parse or to validate is null, never an exception. */
  function ParseComposerResponse(raw: string, fence: string -> Option<string>, embedded: string -> Option<string>,
                                 parse: string -> Result<Json>): (r: Option<ComposerResponse>)
    ensures r == Attempt(parse(Candidate(raw, fence, embedded)))
  {
    match fence(raw)
    case Some(body) => Attempt(parse(body))
    case None =>
      match embedded(raw)
      case Some(m) => Attempt(parse(m))
      case None => Attempt(parse(raw))
  }

  /** A matching fence decides the outcome, even when its JSON is invalid: the
    * other strategies are not consulted. */
  lemma FenceDecides(raw: string, fence: string -> Option<string>, e1: string -> Option<string>,
                     e2: string -> Option<string>, parse: string -> Result<Json>)
    requires fence(raw).Some?
    ensures ParseComposerResponse(raw, fence, e1, parse) == ParseComposerResponse(raw, fence, e2, parse)
    ensures parse(fence(raw).value).Err? ==> ParseComposerResponse(raw, fence, e1, parse).None?
  {
  }

  /** A reply whose chosen JSON lacks a usable text is null. */
  lemma MissingTextIsNull(raw: string, fence: string -> Option<string>, embedded: string -> Option<string>,
                          parse: string -> Result<Json>)
    requires parse(Candidate(raw, fence, embedded)).Ok?
    requires !ValidText(Get(Some(parse(Candidate(raw, fence, embedded)).value), "text"))
    ensures ParseComposerResponse(raw, fence, embedded, parse).None?
  {
  }

  /** isComposerResponse: mentions "text" and one of the other markers. */
  function IsComposerResponse(text: string): (b: bool)
    ensures b ==> Text.Contains(text, "\"text\"")
    ensures b ==> Text.Contains(text, "```json") || Text.Contains(text, "\"metrics\"") || Text.Contains(text, "\"follow_ups\"")
    ensures Text.Contains(text, "\"text\"") && Text.Contains(text, "```json") ==> b
    ensures Text.Contains(text, "\"text\"") && Text.Contains(text, "\"metrics\"") ==> b
    ensures Text.Contains(text, "\"text\"") && Text.Contains(text, "\"follow_ups\"") ==> b
  {
    Text.Contains(text, "\"text\"")
    && (Text.Contains(text, "```json") || Text.Contains(text, "\"metrics\"") || Text.Contains(text, "\"follow_ups\""))
  }

  /** A reply holding the text and metrics keys is recognised as structured. */
  lemma IsComposerResponseExample()
    ensures IsComposerResponse("{\"text\":1,\"metrics\":2}")
  {
    var s := "{\"text\":1,\"metrics\":2}";
    assert Text.OccursAt(s, "\"text\"", 1);
    assert Text.OccursAt(s, "\"metrics\"", 10);
  }

  /** A plain sentence is not. */
  lemma PlainTextIsNotComposer()
    ensures !IsComposerResponse("ok")
  {
  }

  /** The argument of extractSQLQuery: a parsed response or raw text. */
  datatype ResponseOrText = Parsed(response: ComposerResponse) | Raw(text: string)

  /** extractSQLQuery: the SQL of a response, or null when it has none or the
    * text does not parse. */
  function ExtractSQLQuery(response: ResponseOrText, fence: string -> Option<string>,
                           embedded: string -> Option<string>, parse: string -> Result<Json>): (q: Json)
    ensures q == JNull || Truthy(q)
    ensures response.Parsed? ==> q == Or(Some(response.response.sqlUsed), JNull)
    ensures response.Raw? ==> var p := ParseComposerResponse(response.text, fence, embedded, parse);
                              q == if p.Some? then p.value.sqlUsed else JNull
  {
    match response
    case Parsed(r) => Or(Some(r.sqlUsed), JNull)
    case Raw(text) =>
      var p := ParseComposerResponse(text, fence, embedded, parse);
      if p.Some? then
        assert p.value.sqlUsed == JNull || Truthy(p.value.sqlUsed);
        Or(Some(p.value.sqlUsed), JNull)
      else JNull
  }
}

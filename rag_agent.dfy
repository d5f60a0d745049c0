/** The helpers of the iterative agent: `format_context`, and the
    `CypherAgent` methods `generate_cypher` and `execute_operation`. */
module RagAgent {
  import opened Text
  import opened Values
  import opened Oracles
  import opened Render
  import opened Operations

  const ProcessingError := "Error processing Neo4j response"

  /** The key under which this agent's operations carry their parameters. */
  const ParamsKey := "params"

  /** The data `format_context` decodes: a str payload goes through
      `json.loads` (None when that raises `JSONDecodeError`), any other
      payload is used as it is. */
  function Decoded(result: ToolResult, decode: string -> Option<Json>): Option<Json>
    requires HasEnvelope(result)
  {
    var payload := result.items[0].text.value;
    if payload.JStr? then decode(payload.s) else Some(payload)
  }

  /** `format_context` as a function of the tool result. */
  function FormatSpec(result: ToolResult, decode: string -> Option<Json>, dump: Json -> string): Formatted
  {
    if !HasEnvelope(result) then Text(NoResults)
    else match Decoded(result, decode)
      case None => Text(ProcessingError)
      case Some(data) =>
        if !Truthy(data) then Text(NoResults)
        else match Iterate(data)
          case None => Raised
          case Some(records) => Text(ResultsHeader + RecordsText(records, dump))
  }

  /** `format_context` of the iterative agent. */
  method FormatContext(result: ToolResult, decode: string -> Option<Json>, dump: Json -> string)
    returns (out: Formatted)
    ensures out == FormatSpec(result, decode, dump)
  {
    if !result.Items? || |result.items| == 0 || result.items[0].text.None? {
      return Text(NoResults);
    }
    var payload := result.items[0].text.value;
    var data: Json;
    if payload.JStr? {
      var decoded := decode(payload.s);
      if decoded.None? {
        return Text(ProcessingError);
      }
      data := decoded.value;
    } else {
      data := payload;
    }
    if !Truthy(data) {
      return Text(NoResults);
    }
    var records := Iterate(data);
    if records.None? {
      return Raised;
    }
    var text := RenderRecords(records.value, dump);
    out := Text(text);
  }

  /** The outcomes of `format_context`. It answers "no results" exactly when
      the envelope is missing or the decoded data is falsy, reports a
      processing error exactly when a str payload fails to decode, raises
      only when the data is a truthy bool or number (which `for` cannot walk),
      and otherwise renders every record in order under the header. Decoding
      itself never raises. */
  lemma FormatOutcomes(result: ToolResult, decode: string -> Option<Json>, dump: Json -> string)
    ensures var out := FormatSpec(result, decode, dump);
      && (out == Text(NoResults) <==>
            !HasEnvelope(result) || (Decoded(result, decode).Some? && !Truthy(Decoded(result, decode).value)))
      && (out == Text(ProcessingError) <==>
            HasEnvelope(result) && Decoded(result, decode).None?)
      && (out.Raised? <==>
            HasEnvelope(result) && Decoded(result, decode).Some?
            && (Decoded(result, decode).value.JBool? || Decoded(result, decode).value.JNum?)
            && Truthy(Decoded(result, decode).value))
      && (out.Text? && out != Text(NoResults) && out != Text(ProcessingError) ==>
            HasEnvelope(result) && Decoded(result, decode).Some?
            && Iterate(Decoded(result, decode).value).Some?
            && out.s == ResultsHeader + RecordsText(Iterate(Decoded(result, decode).value).value, dump))
  {
    if HasEnvelope(result) && Decoded(result, decode).Some? {
      var data := Decoded(result, decode).value;
      if Truthy(data) && Iterate(data).Some? {
        HeaderDistinguishes(RecordsText(Iterate(data).value, dump));
      }
    }
  }

  /** A rendered result is never mistaken for either sentinel. */
  lemma HeaderDistinguishes(body: string)
    ensures ResultsHeader + body != NoResults
    ensures ResultsHeader + body != ProcessingError
  {
    assert (ResultsHeader + body)[0] == 'D';
  }

  /** The prompt template `generate_cypher` picks: the follow-up template
      exactly when it is given non-empty extra context. */
  function CypherPrompt(question: string, extraContext: string): (p: Prompt)
  {
    if extraContext != "" then RagFollowUpPrompt(question, extraContext) else RagQueryPrompt(question)
  }

  /** `generate_cypher`: the parsed operation, or None when the model call
      raises. */
  function GenerateCypher(env: Env, question: string, extraContext: string): Option<Json>
  {
    var reply :- env.complete(CypherPrompt(question, extraContext));
    Some(ParseReply(reply, env.decode, ParamsKey))
  }

  /** A reply that is not JSON yields exactly
      `{"operation": "read", "query": "MATCH (n) RETURN n LIMIT 0", "params": {}}`,
      and that operation reads zero rows with empty parameters. */
  lemma GenerateCypherFallback(env: Env, question: string, extraContext: string)
    requires env.complete(CypherPrompt(question, extraContext)).Some?
    requires env.decode(Strip(env.complete(CypherPrompt(question, extraContext)).value)).None?
    ensures GenerateCypher(env, question, extraContext)
      == Some(JObj([("operation", JStr("read")), ("query", JStr("MATCH (n) RETURN n LIMIT 0")), ("params", JObj([]))]))
    ensures Dispatch(GenerateCypher(env, question, extraContext).value, ParamsKey)
      == Some(ToolCall(ReadTool, JObj([("query", JStr(FallbackQuery)), (ParamsKey, JObj([]))])))
  {
    var reply := env.complete(CypherPrompt(question, extraContext)).value;
    assert |ParamsKey| == 6;
    ParseReplyCases(reply, env.decode, ParamsKey);
    assert GenerateCypher(env, question, extraContext) == Some(FallbackOperation(ParamsKey));
  }

  /** `execute_operation`: the tool result, or None when reading the
      operation or the tool call raises. */
  function ExecuteOperation(env: Env, op: Json): Option<ToolResult>
  {
    var call :- Dispatch(op, ParamsKey);
    env.callTool(call)
  }
}

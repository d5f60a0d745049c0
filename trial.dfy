/** The single-shot agent: one generated operation per question, executed
    once, and an answer generated from whatever `format_context` made of the
    result, with no gate. */
module Trial {
  import opened Text
  import opened Values
  import opened Oracles
  import opened Render
  import opened Operations
  import opened Session

  const DecodeError := "Error decoding Neo4j response"

  /** The key under which this agent's operations carry their parameters. */
  const ParamsKey := "parameters"

  /** `format_context` of the single-shot agent as a function of the tool
      result. `json.loads` is applied to the payload whatever its type, so a
      payload that is not a str raises `TypeError`, which nothing catches. */
  function FormatSpec(result: ToolResult, decode: string -> Option<Json>, dump: Json -> string): Formatted
  {
    if !HasEnvelope(result) then Text(NoResults)
    else
      var payload := result.items[0].text.value;
      if !payload.JStr? then Raised
      else match decode(payload.s)
        case None => Text(DecodeError)
        case Some(data) =>
          if !Truthy(data) then Text(NoResults)
          else match Iterate(data)
            case None => Raised
            case Some(records) => Text(ResultsHeader + RecordsText(records, dump))
  }

  /** `format_context` of the single-shot agent. */
  method FormatContext(result: ToolResult, decode: string -> Option<Json>, dump: Json -> string)
    returns (out: Formatted)
    ensures out == FormatSpec(result, decode, dump)
  {
    if !result.Items? || |result.items| == 0 || result.items[0].text.None? {
      return Text(NoResults);
    }
    var payload := result.items[0].text.value;
    if !payload.JStr? {
      return Raised;
    }
    var decoded := decode(payload.s);
    if decoded.None? {
      return Text(DecodeError);
    }
    var data := decoded.value;
    if !Truthy(data) {
      return Text(NoResults);
    }
    var records := Iterate(data);
    if records.None? {
      return Raised;
    }
    var text := RenderRecords(records.value, dump);
    out := Text(text);
  }

  /** The outcomes of this `format_context`: "no results" exactly for a
      missing envelope or a str payload that decodes to a falsy value, the
      decoding error exactly for a str payload that does not decode, an
      exception for a payload that is not a str or that decodes to a truthy
      bool or number, and otherwise every record in order under the header. */
  lemma FormatOutcomes(result: ToolResult, decode: string -> Option<Json>, dump: Json -> string)
    ensures !HasEnvelope(result) ==> FormatSpec(result, decode, dump) == Text(NoResults)
    ensures HasEnvelope(result) ==>
      var out := FormatSpec(result, decode, dump);
      var payload := result.items[0].text.value;
      && (out == Text(NoResults) <==>
            payload.JStr? && decode(payload.s).Some? && !Truthy(decode(payload.s).value))
      && (out == Text(DecodeError) <==> payload.JStr? && decode(payload.s).None?)
      && (out.Raised? <==>
            !payload.JStr?
            || (decode(payload.s).Some? && Truthy(decode(payload.s).value)
                && (decode(payload.s).value.JBool? || decode(payload.s).value.JNum?)))
      && (out.Text? && out != Text(NoResults) && out != Text(DecodeError) ==>
            payload.JStr? && decode(payload.s).Some? && Iterate(decode(payload.s).value).Some?
            && out.s == ResultsHeader + RecordsText(Iterate(decode(payload.s).value).value, dump))
  {
    if HasEnvelope(result) {
      var payload := result.items[0].text.value;
      if payload.JStr? && decode(payload.s).Some? {
        var data := decode(payload.s).value;
        if Truthy(data) && Iterate(data).Some? {
          HeaderDistinguishes(RecordsText(Iterate(data).value, dump));
        }
      }
    }
  }

  /** The two sentinels differ from each other and from every rendering. */
  lemma HeaderDistinguishes(body: string)
    ensures ResultsHeader + body != NoResults
    ensures ResultsHeader + body != DecodeError
    ensures DecodeError != NoResults
  {
    assert (ResultsHeader + body)[0] == 'D';
    assert DecodeError[0] != NoResults[0];
  }

  /** `generate_cypher`: the parsed operation, or None when the model call
      raises. */
  function GenerateCypher(env: Env, question: string): Option<Json>
  {
    var reply :- env.complete(TrialQueryPrompt(question));
    Some(ParseReply(reply, env.decode, ParamsKey))
  }

  /** A reply that is not JSON yields exactly
      `{"operation": "read", "query": "MATCH (n) RETURN n LIMIT 0", "parameters": {}}`,
      and that operation reads zero rows with empty parameters. */
  lemma GenerateCypherFallback(env: Env, question: string)
    requires env.complete(TrialQueryPrompt(question)).Some?
    requires env.decode(Strip(env.complete(TrialQueryPrompt(question)).value)).None?
    ensures GenerateCypher(env, question)
      == Some(JObj([("operation", JStr("read")), ("query", JStr("MATCH (n) RETURN n LIMIT 0")), ("parameters", JObj([]))]))
    ensures Dispatch(GenerateCypher(env, question).value, ParamsKey)
      == Some(ToolCall(ReadTool, JObj([("query", JStr(FallbackQuery)), (ParamsKey, JObj([]))])))
  {
    var reply := env.complete(TrialQueryPrompt(question)).value;
    assert |ParamsKey| == 10;
    ParseReplyCases(reply, env.decode, ParamsKey);
    assert GenerateCypher(env, question) == Some(FallbackOperation(ParamsKey));
  }

  /** What `rag` reads from the operation before executing it without
      raising: `operation` must be a str (it is upper-cased), and `query` and
      `parameters` must be present. */
  predicate Printable(op: Json)
  {
    HasKey(op, "operation") && Lookup(op.fields, "operation").value.JStr?
    && HasKey(op, "query") && HasKey(op, ParamsKey)
  }

  /** Executing `call`, formatting its result and answering from whatever
      the formatting produced. */
  function AnswerFrom(env: Env, question: string, call: ToolCall): TurnOutcome
  {
    match env.callTool(call)
    case None => Failed
    case Some(raw) =>
      match FormatSpec(raw, env.decode, env.dump)
      case Raised => Failed
      case Text(context) =>
        match env.complete(TrialAnswerPrompt(question, context))
        case None => Failed
        case Some(answer) => Answered(context, answer)
  }

  /** `rag` of the single-shot agent for one input line. Every exception is
      caught and ends the turn, and the session goes on. The turn quits
      exactly on `exit` or `quit` in any case, which generates and executes
      nothing; with no gate before the answer, it never reports that nothing
      was found. */
  function Turn(env: Env, line: string): (r: TurnOutcome)
    ensures r == Quit <==> IsExitCommand(Strip(line))
    ensures r != NoInformation
  {
    var question := Strip(line);
    if IsExitCommand(question) then Quit
    else match GenerateCypher(env, question)
      case None => Failed
      case Some(op) =>
        if !Printable(op) then Failed
        else AnswerFrom(env, question, Dispatch(op, ParamsKey).value)
  }

  /** No gate: whenever the tool call, the formatting and the answer call
      complete, the answer is generated, from the no-results or the
      decoding-error sentinel as readily as from real records. */
  lemma AlwaysAnswers(env: Env, question: string, call: ToolCall)
    ensures AnswerFrom(env, question, call).Answered? <==>
      && env.callTool(call).Some?
      && FormatSpec(env.callTool(call).value, env.decode, env.dump).Text?
      && env.complete(TrialAnswerPrompt(question, FormatSpec(env.callTool(call).value, env.decode, env.dump).s)).Some?
    ensures (env.callTool(call).Some? && !HasEnvelope(env.callTool(call).value)
             && env.complete(TrialAnswerPrompt(question, NoResults)).Some?) ==>
      AnswerFrom(env, question, call) == Answered(NoResults, env.complete(TrialAnswerPrompt(question, NoResults)).value)
  {
  }

  /** A reply that is not JSON makes the turn execute the zero-row read with
      empty parameters and answer from its result. */
  lemma FallbackTurn(env: Env, line: string)
    requires !IsExitCommand(Strip(line))
    requires env.complete(TrialQueryPrompt(Strip(line))).Some?
    requires env.decode(Strip(env.complete(TrialQueryPrompt(Strip(line))).value)).None?
    ensures Turn(env, line)
      == AnswerFrom(env, Strip(line), ToolCall(ReadTool, JObj([("query", JStr(FallbackQuery)), (ParamsKey, JObj([]))])))
  {
    var question := Strip(line);
    GenerateCypherFallback(env, question);
    var op := GenerateCypher(env, question).value;
    assert |ParamsKey| == 10;
    FallbackFields(ParamsKey);
    assert Printable(op);
  }
}

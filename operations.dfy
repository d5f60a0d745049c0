/** `CypherAgent.execute_operation` and the fallback of
    `CypherAgent.generate_cypher`, which both agent files share up to the name
    of the parameters key ("params" in the iterative agent, "parameters" in
    the single-shot one). */
module Operations {
  import opened Text
  import opened Values
  import opened Oracles

  const ReadTool := "read_neo4j_cypher"
  const WriteTool := "write_neo4j_cypher"

  /** A query that matches everything and returns no row. */
  const FallbackQuery := "MATCH (n) RETURN n LIMIT 0"

  /** The operation `generate_cypher` returns when the model's reply is not
      valid JSON. */
  function FallbackOperation(paramsKey: string): Json
  {
    JObj([("operation", JStr("read")), ("query", JStr(FallbackQuery)), (paramsKey, JObj([]))])
  }

  /** `json.loads(reply.strip())`, or the fallback operation when that raises
      `JSONDecodeError`. */
  function ParseReply(reply: string, decode: string -> Option<Json>, paramsKey: string): Json
  {
    match decode(Strip(reply))
    case Some(v) => v
    case None => FallbackOperation(paramsKey)
  }

  /** The tool request `execute_operation` makes for `op`, or None when
      reading `op["operation"]` or `op["query"]` raises (a missing key, or an
      `op` that is not a dict). */
  function Dispatch(op: Json, paramsKey: string): Option<ToolCall>
  {
    if !HasKey(op, "operation") || !HasKey(op, "query") then None
    else
      var opType := Lookup(op.fields, "operation").value;
      var query := Lookup(op.fields, "query").value;
      var params := if HasKey(op, paramsKey) then Lookup(op.fields, paramsKey).value else JObj([]);
      var tool := if opType == JStr("write") then WriteTool else ReadTool;
      Some(ToolCall(tool, JObj([("query", query), (paramsKey, params)])))
  }

  /** Dispatch succeeds exactly for a dict holding both "operation" and
      "query"; it picks the write tool exactly for the string "write", and the
      read tool for every other value, unknown ones included. */
  lemma DispatchTool(op: Json, paramsKey: string)
    ensures Dispatch(op, paramsKey).Some? <==> op.JObj? && HasKey(op, "operation") && HasKey(op, "query")
    ensures Dispatch(op, paramsKey).Some? ==>
      (Dispatch(op, paramsKey).value.tool == WriteTool <==> Lookup(op.fields, "operation") == Some(JStr("write")))
    ensures Dispatch(op, paramsKey).Some? ==>
      (Dispatch(op, paramsKey).value.tool == ReadTool <==> Lookup(op.fields, "operation") != Some(JStr("write")))
  {
  }

  /** The query travels unchanged, and the parameters are `op`'s own when it
      has them and an empty mapping otherwise. */
  lemma DispatchArguments(op: Json, paramsKey: string)
    requires paramsKey != "query"
    requires Dispatch(op, paramsKey).Some?
    ensures var args := Dispatch(op, paramsKey).value.args;
      Lookup(args.fields, "query") == Lookup(op.fields, "query")
      && Lookup(args.fields, paramsKey) ==
           (if HasKey(op, paramsKey) then Lookup(op.fields, paramsKey) else Some(JObj([])))
  {
  }

  /** The three keys of the fallback operation and their values. */
  lemma FallbackFields(paramsKey: string)
    requires paramsKey != "operation" && paramsKey != "query"
    ensures var op := FallbackOperation(paramsKey);
      Lookup(op.fields, "operation") == Some(JStr("read"))
      && Lookup(op.fields, "query") == Some(JStr(FallbackQuery))
      && Lookup(op.fields, paramsKey) == Some(JObj([]))
  {
    var fields := FallbackOperation(paramsKey).fields;
    var rest := [("query", JStr(FallbackQuery)), (paramsKey, JObj([]))];
    assert fields == [("operation", JStr("read"))] + rest;
    assert fields[1..] == rest;
    assert rest[1..] == [(paramsKey, JObj([]))];
    assert "query" != "operation";
    assert Lookup(rest[1..], paramsKey) == Some(JObj([]));
    assert Lookup(rest, paramsKey) == Lookup(rest[1..], paramsKey);
    assert Lookup(fields, paramsKey) == Lookup(rest, paramsKey);
  }

  /** What `generate_cypher` makes of the model's reply: a reply that parses
      is used as it is, and an unparseable one yields exactly the fallback
      operation, whose dispatch is a read of the zero-row query with empty
      parameters. */
  lemma ParseReplyCases(reply: string, decode: string -> Option<Json>, paramsKey: string)
    requires paramsKey != "operation" && paramsKey != "query"
    ensures decode(Strip(reply)).Some? ==> ParseReply(reply, decode, paramsKey) == decode(Strip(reply)).value
    ensures decode(Strip(reply)).None? ==>
      && ParseReply(reply, decode, paramsKey) == FallbackOperation(paramsKey)
      && Dispatch(ParseReply(reply, decode, paramsKey), paramsKey)
         == Some(ToolCall(ReadTool, JObj([("query", JStr(FallbackQuery)), (paramsKey, JObj([]))])))
  {
    FallbackFields(paramsKey);
    assert JStr("read") != JStr("write") by {
      assert "read"[0] != "write"[0];
    }
  }
}

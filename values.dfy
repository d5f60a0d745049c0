/** Python values that cross the agent's boundaries: decoded JSON, the content
    list an MCP tool call returns, and the outcome of one question-answer turn. */
module Values {

  datatype Option<+T> = None | Some(value: T) {
    predicate IsFailure() { None? }

    function PropagateFailure<U>(): Option<U>
      requires None?
    {
      None
    }

    function Extract(): T
      requires Some?
    {
      value
    }
  }

  /** A value as `json.loads` produces it. An object keeps its key/value pairs
      in insertion order, with distinct keys as in a Python `dict`. Numbers are
      integers only. */
  datatype Json =
    | JNull
    | JBool(b: bool)
    | JNum(n: int)
    | JStr(s: string)
    | JArr(elems: seq<Json>)
    | JObj(fields: seq<(string, Json)>)

  /** Python truthiness (`if not data:`). */
  predicate Truthy(v: Json)
  {
    match v
    case JNull => false
    case JBool(b) => b
    case JNum(n) => n != 0
    case JStr(s) => s != []
    case JArr(elems) => elems != []
    case JObj(fields) => fields != []
  }

  /** `d[key]` on a dict's pairs: the value stored under `key`, if any. */
  function Lookup(fields: seq<(string, Json)>, key: string): Option<Json>
  {
    if fields == [] then None
    else if fields[0].0 == key then Some(fields[0].1)
    else Lookup(fields[1..], key)
  }

  /** `key in d` for a dict `d`; false for every other value. */
  predicate HasKey(v: Json, key: string)
  {
    v.JObj? && Lookup(v.fields, key).Some?
  }

  /** The one-character strings of `s`, in order. */
  function Chars(s: string): seq<Json>
  {
    if s == [] then [] else [JStr([s[0]])] + Chars(s[1..])
  }

  /** The keys of a dict, as str values, in insertion order. */
  function Keys(fields: seq<(string, Json)>): seq<Json>
  {
    if fields == [] then [] else [JStr(fields[0].0)] + Keys(fields[1..])
  }

  /** What `for x in v` walks through: the elements of a list, the keys of a
      dict, the one-character strings of a str. A null, a bool or a number is
      not iterable and the loop raises `TypeError`. */
  function Iterate(v: Json): Option<seq<Json>>
  {
    match v
    case JArr(elems) => Some(elems)
    case JObj(fields) => Some(Keys(fields))
    case JStr(s) => Some(Chars(s))
    case _ => None
  }

  /** One content item of a tool result; `text` is its `text` attribute, absent
      when `hasattr(item, "text")` is false. */
  datatype Item = Item(text: Option<Json>)

  /** What `call_tool` hands back: a Python list of content items, or any
      value that is not a list. */
  datatype ToolResult = NonList | Items(items: seq<Item>)

  /** The result of a `format_context`: its text, or an exception that it lets
      escape. */
  datatype Formatted = Text(s: string) | Raised

  /** How one turn of the question loop ends. `Quit` is the only outcome on
      which `rag` returns False; `Failed` is the catch-all `except` branch. */
  datatype TurnOutcome =
    | Quit
    | Failed
    | NoInformation
    | Answered(context: string, answer: string)
}

/** The collaborators the agent calls but does not contain: the language
    model, the MCP tool server, and the JSON codec. Each is a function
    parameter; `None` stands for a call that raised. */
module Oracles {
  import opened Values

  /** The prompts the agent sends to the language model, by template. The
      template text and the graph schema it embeds are fixed for a session. */
  datatype Prompt =
    | RagQueryPrompt(question: string)
    | RagFollowUpPrompt(question: string, extraContext: string)
    | RagAnswerPrompt(question: string, context: string)
    | TrialQueryPrompt(question: string)
    | TrialAnswerPrompt(question: string, context: string)

  /** One `call_tool(tool, args)` request. */
  datatype ToolCall = ToolCall(tool: string, args: Json)

  datatype Env = Env(
    complete: Prompt -> Option<string>,   // the model's reply text, `response.content[0].text`
    callTool: ToolCall -> Option<ToolResult>,
    decode: string -> Option<Json>,       // `json.loads`; None is `JSONDecodeError`
    dump: Json -> string                  // `json.dumps(record, indent=2)`
  )
}

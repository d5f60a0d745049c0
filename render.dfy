/** What the two `format_context` functions share: the guard on the shape
    of the tool result, the no-results sentinel, and the success branch, a
    header line followed by every record's JSON dump and a blank line. */
module Render {
  import opened Values

  const NoResults := "No results found in database"
  const ResultsHeader := "Database Results:\n"

  /** `query_result` is a non-empty list whose first item has a `text`
      attribute; otherwise `format_context` answers `NoResults`. */
  predicate HasEnvelope(result: ToolResult)
  {
    result.Items? && |result.items| > 0 && result.items[0].text.Some?
  }

  /** The dumps of `records`, each followed by "\n\n", in record order. */
  function RecordsText(records: seq<Json>, dump: Json -> string): string
  {
    if records == [] then ""
    else RecordsText(records[..|records| - 1], dump) + dump(records[|records| - 1]) + "\n\n"
  }

  /** Rendering distributes over concatenation of record lists: the text of
      the first records is followed by the text of the rest, so the records
      appear in their original order. */
  lemma {:induction false} RecordsTextSplit(a: seq<Json>, b: seq<Json>, dump: Json -> string)
    ensures RecordsText(a + b, dump) == RecordsText(a, dump) + RecordsText(b, dump)
  {
    if b != [] {
      var ab := a + b;
      assert ab[..|ab| - 1] == a + b[..|b| - 1];
      RecordsTextSplit(a, b[..|b| - 1], dump);
    } else {
      assert a + b == a;
    }
  }

  /** The first record's dump comes first. */
  lemma RecordsTextCons(r: Json, rest: seq<Json>, dump: Json -> string)
    ensures RecordsText([r] + rest, dump) == dump(r) + "\n\n" + RecordsText(rest, dump)
  {
    RecordsTextSplit([r], rest, dump);
    assert [r][..0] == [];
  }

  /** The loop in `format_context` (`context_str += json.dumps(record) +
      "\n\n"`), which starts from the header. */
  method RenderRecords(records: seq<Json>, dump: Json -> string) returns (text: string)
    ensures text == ResultsHeader + RecordsText(records, dump)
  {
    text := ResultsHeader;
    var i := 0;
    while i < |records|
      invariant 0 <= i <= |records|
      invariant text == ResultsHeader + RecordsText(records[..i], dump)
    {
      assert records[..i + 1][..i] == records[..i];
      text := text + dump(records[i]) + "\n\n";
      i := i + 1;
    }
    assert records[..i] == records;
  }
}

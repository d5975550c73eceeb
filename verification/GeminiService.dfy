/**
 * The local part of `analyzeBillSource`: the list of request parts sent to the
 * model, the category enumeration of the response schema, and how the
 * response text is turned into a result.
 */
module GeminiService {
  import opened Wrappers
  import opened JsString
  import opened Types

  /** One element of the request's `parts` list. */
  datatype Part = TextPart(text: string) | InlineData(data: string, mimeType: string)

  const TextPrefix: string := "Analyze this bill text: "

  const DocumentInstruction: string :=
    "Read the attached document (it might be a scan or PDF) and analyze the legislative content within it."

  /** The `enum` of the `category` property in the response schema. */
  const SchemaCategories: seq<string> := ["Salary", "Fuel", "Food", "Business", "Digital", "Other"]

  /**
   * JavaScript truthiness of the optional `text` argument: present and
   * non-empty. Nothing is trimmed, so white space alone still counts.
   */
  function HasText(text: Option<string>): (r: bool)
    ensures r ==> text.Some?
    ensures text.Some? && text.value != [] && AllWhiteSpace(text.value) ==> r
  {
    text.Some? && text.value != ""
  }

  /**
   * Builds `parts` by conditional pushes: the prefixed text (untrimmed) when
   * `text` is truthy, then, when a file is given, its inline data followed by
   * the fixed reading instruction. No input at all gives an empty list.
   */
  method BuildParts(text: Option<string>, file: Option<FileData>) returns (parts: seq<Part>)
    ensures |parts| == (if HasText(text) then 1 else 0) + (if file.Some? then 2 else 0)
    ensures HasText(text) ==> parts[0] == TextPart(TextPrefix + text.value)
    ensures file.Some? ==>
      parts[|parts| - 2] == InlineData(file.value.base64, file.value.mimeType) &&
      parts[|parts| - 1] == TextPart(DocumentInstruction)
  {
    parts := [];
    if HasText(text) {
      parts := parts + [TextPart(TextPrefix + text.value)];
    }
    if file.Some? {
      parts := parts + [InlineData(file.value.base64, file.value.mimeType)];
      parts := parts + [TextPart(DocumentInstruction)];
    }
  }

  /** The schema's enumeration names exactly the categories of `ImpactCard`. */
  lemma SchemaCategoriesMatch(s: string)
    ensures s in SchemaCategories <==> ParseCategory(s).Some?
  {
  }

  /**
   * The result of a call: `JSON.parse` (given as `parse`, `None` when it
   * throws) applied to the response text with its surrounding white space
   * removed. Nothing else is stripped and nothing is checked afterwards.
   */
  function ResponseResult(responseText: string, parse: string -> Option<BillAnalysis>): (r: Option<BillAnalysis>)
    ensures AllWhiteSpace(responseText) ==> r == parse("")
  {
    parse(Trim(responseText))
  }

  /** White space around the payload does not change the result. */
  lemma ResponsePaddingIgnored(w1: string, payload: string, w2: string, parse: string -> Option<BillAnalysis>)
    requires AllWhiteSpace(w1) && AllWhiteSpace(w2)
    requires payload == [] || (!IsWhiteSpace(payload[0]) && !IsWhiteSpace(payload[|payload| - 1]))
    ensures ResponseResult(w1 + payload + w2, parse) == parse(payload)
  {
    TrimPadded(w1, payload, w2);
  }

  /** A code-fenced response reaches `JSON.parse` with its fences still on. */
  lemma CodeFenceKept(w1: string, json: string, w2: string, parse: string -> Option<BillAnalysis>)
    requires AllWhiteSpace(w1) && AllWhiteSpace(w2)
    ensures ResponseResult(w1 + ("```json" + json + "```") + w2, parse) == parse("```json" + json + "```")
  {
    var fenced := "```json" + json + "```";
    assert fenced[0] == '`' && fenced[|fenced| - 1] == '`';
    ResponsePaddingIgnored(w1, fenced, w2, parse);
  }
}

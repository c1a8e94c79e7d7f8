/** Output options, the hand-off to the output handler (`smart_output`),
    error formatting, and the record preparation shared by the data tools
    (src/mcp_fred/servers/common.py; `_prepare_records` and `_estimate_tokens`
    are written out identically in servers/series.py and servers/maps.py). */
module Common {
  import opened Wrappers

  /** How a tool result is returned: output mode ("auto", "screen", "file"),
      file format ("csv", "json"), project and file name for file storage. */
  datatype OutputOptions = OutputOptions(
    output: string,
    format: string,
    project: Option<string>,
    filename: Option<string>)

  /** `OutputOptions()` with every field at its declared default. */
  function DefaultOutputOptions(): OutputOptions {
    OutputOptions("auto", "csv", None, None)
  }

  /** `extract_output_options`: an absent or empty mode or format falls back to
      its default; project and file name pass through untouched. */
  function ExtractOutputOptions(
    output: Option<string>, format: Option<string>,
    project: Option<string>, filename: Option<string>): (o: OutputOptions)
    ensures o.output != "" && o.format != ""
    ensures Truthy(output) ==> o.output == output.value
    ensures !Truthy(output) ==> o.output == DefaultOutputOptions().output
    ensures Truthy(format) ==> o.format == format.value
    ensures !Truthy(format) ==> o.format == DefaultOutputOptions().format
    ensures o.project == project && o.filename == filename
  {
    OutputOptions(OrElse(output, "auto"), OrElse(format, "csv"), project, filename)
  }

  /** With no arguments, extraction yields exactly the defaults. */
  lemma ExtractNothingIsDefault()
    ensures ExtractOutputOptions(None, None, None, None) == DefaultOutputOptions()
  {
  }

  /** Extracting from options that were already extracted changes nothing. */
  lemma ExtractIdempotent(o: OutputOptions)
    requires o.output != "" && o.format != ""
    ensures ExtractOutputOptions(Some(o.output), Some(o.format), o.project, o.filename) == o
  {
  }

  /** An item of an API response: a pydantic model (dumped by alias) or a plain value. */
  datatype Item = ModelItem(dumped: Json) | PlainItem(value: Json)

  /** What `_prepare_records` turns one item into. */
  function Dump(item: Item): Json {
    match item
    case ModelItem(d) => d
    case PlainItem(v) => v
  }

  /** A page returned by the data API: the reported total (if any) and the records. */
  datatype Page = Page(count: Option<int>, records: seq<Item>)

  /** The data handed to the output handler: an API response or a tool-built dict. */
  datatype Payload = PageData(page: Page) | Dict(fields: map<string, Json>)

  /** The arguments of one `ResultOutputHandler.handle` call. */
  datatype HandlerCall = HandlerCall(
    data: Payload,
    operation: string,
    output: string,
    format: string,
    project: Option<string>,
    filename: Option<string>,
    estimatedRows: Option<int>,
    estimatedTokens: Option<int>,
    subdir: Option<string>,
    jobId: Option<string>)

  /** `smart_output`: missing options mean `OutputOptions()`; the options are
      spread into the handler call. */
  function SmartOutput(
    data: Payload, operation: string, options: Option<OutputOptions>,
    estimatedRows: Option<int>, estimatedTokens: Option<int>,
    subdir: Option<string>, jobId: Option<string>): HandlerCall
  {
    var opts := if options.Some? then options.value else DefaultOutputOptions();
    HandlerCall(data, operation, opts.output, opts.format, opts.project, opts.filename,
                estimatedRows, estimatedTokens, subdir, jobId)
  }

  /** Passing no options is the same as passing `OutputOptions()`, and the
      handler then sees mode "auto", format "csv" and no project or file name. */
  lemma SmartOutputDefaults(
    data: Payload, operation: string, rows: Option<int>, tokens: Option<int>,
    subdir: Option<string>, jobId: Option<string>)
    ensures SmartOutput(data, operation, None, rows, tokens, subdir, jobId)
         == SmartOutput(data, operation, Some(DefaultOutputOptions()), rows, tokens, subdir, jobId)
    ensures var c := SmartOutput(data, operation, None, rows, tokens, subdir, jobId);
            c.output == "auto" && c.format == "csv" && c.project == None && c.filename == None
  {
  }

  /** An exception raised below a tool: a `FREDAPIError`, which carries its own
      `to_dict()` rendering, or any other exception with its `str()`. */
  datatype Raised = FredApiError(asDict: Json) | OtherException(text: string)

  /** A structured error a tool builds itself: `{"error": {code, message, details}}`. */
  datatype ErrorInfo = ErrorInfo(code: string, message: string, details: map<string, Json>)

  /** `format_api_error`: the error's own `to_dict()` when it has one, otherwise an
      `API_ERROR` record carrying the error's text and no details. */
  function FormatApiError(e: Raised): (r: Json)
    ensures e.FredApiError? ==> r == e.asDict
    ensures e.OtherException? ==>
      r == JObj(map["error" := JObj(map["code" := JStr("API_ERROR"), "message" := JStr(e.text)])])
  {
    match e
    case FredApiError(d) => d
    case OtherException(t) =>
      JObj(map["error" := JObj(map["code" := JStr("API_ERROR"), "message" := JStr(t)])])
  }

  /** What a tool returns to its caller. */
  datatype Response =
    | ToolError(error: ErrorInfo)         // an error record the tool built
    | Formatted(body: Json)               // `format_api_error(exc)` of a caught API error
    | Uncaught(raised: Raised)            // an exception the tool does not catch
    | Direct(fields: map<string, Json>)   // a dict returned as is
    | Delegated(call: HandlerCall)        // the result of `smart_output` / the output handler

  /** How a data tool answers an exception from an API call it wraps in
      `except FREDAPIError`: formatted when it is one, raised on otherwise. */
  function Caught(e: Raised): (r: Response)
    ensures e.FredApiError? ==> r == Formatted(e.asDict)
    ensures e.OtherException? ==> r == Uncaught(e)
  {
    if e.FredApiError? then Formatted(FormatApiError(e)) else Uncaught(e)
  }

  /** The records `_prepare_records` produces, as a value. */
  function Prepared(items: seq<Item>): seq<Json> {
    seq(|items|, i requires 0 <= i < |items| => Dump(items[i]))
  }

  /** `_prepare_records`: each item becomes its dump, in order, one for one. */
  method PrepareRecords(items: seq<Item>) returns (records: seq<Json>)
    ensures |records| == |items|
    ensures forall i :: 0 <= i < |items| ==> records[i] == Dump(items[i])
    ensures records == Prepared(items)
  {
    records := [];
    for i := 0 to |items|
      invariant |records| == i
      invariant forall k :: 0 <= k < i ==> records[k] == Dump(items[k])
    {
      records := records + [Dump(items[i])];
    }
  }

  /** The token figure `_estimate_tokens` reports, as a value. */
  function Tokens(items: seq<Item>, estimator: seq<Json> -> nat): nat {
    if items == [] then 0 else estimator(Prepared(items))
  }

  /** `_estimate_tokens`: zero for no items, without asking the estimator;
      otherwise the estimator's figure for the prepared records. */
  method EstimateTokens(items: seq<Item>, estimator: seq<Json> -> nat) returns (tokens: nat)
    ensures items == [] ==> tokens == 0
    ensures items != [] ==> tokens == estimator(Prepared(items))
    ensures tokens == Tokens(items, estimator)
  {
    var records := PrepareRecords(items);
    if records == [] {
      return 0;
    }
    tokens := estimator(records);
  }
}

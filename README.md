# n8n Tools nodes — a Dafny model

This project models the `execute` functions of three n8n community nodes
that forward each input item to a remote n8n Tools API and turn the replies
into output items:

- **PDF Generator** (`N8nToolsPdf`). It builds a JSON request from the
  options and their defaults, plus the HTML, template or URL of the selected
  operation. It posts the request to the operation's endpoint and attaches
  the returned PDF bytes to one output item.
- **Document Processor** (`N8nToolsDocument`). It takes the input file from
  a binary attachment, a download or base64 text. It builds a multipart form
  in a fixed order: operation, file, the operation's own field, then the
  advanced options. It posts the form to the processing endpoint. The reply
  becomes a converted file with a rewritten name and MIME type, a zip of
  split pages, or the reply's JSON fields.
- **Web Scraper** (`N8nToolsScraper`). It builds a JSON request from the
  selectors and the options with their defaults, plus one URL or the list of
  non-blank lines of a URL text. It posts the request. The reply becomes one
  item, or one item per page for a multi-page scrape.

All three share one loop over the items. A failure inside an item becomes an
error item `{error, success: false}` when "continue on fail" is set.
Otherwise the first failure ends the whole run with a stage-prefixed
message.

Modules:

- `Host` holds the values the nodes exchange with n8n:
  - the JSON values, items and binary attachments;
  - the HTTP calls;
  - one item's outcome, and that shared loop (`Collect`) with its properties.
- `Text` holds the string operations the nodes rely on:
  - `split('\n')`;
  - `trim()`;
  - `split('/').pop()`;
  - the extension rewrite `/\.[^/.]+$/`.
- `PdfNode`, `DocumentNode` and `ScraperNode` each contain:
  - a function `ItemStep` that specifies one item: its outcome and the calls it makes;
  - a method `ProcessItem` that builds the request step by step as the node does, proved equal to `ItemStep`;
  - a method `Execute` whose loop is proved to produce `Collect` of the items' steps.

The HTTP service is an oracle. Each item comes with the reply its call
receives: bytes and their JSON reading, or a rejection with its message.
Every request is recorded in a call log. This lets the contracts say which
request is made and that none is made. `JSON.parse` and base64 decoding are
passed in as functions.

## Model

| member | source | states |
|---|---|---|
| `Host.OrString` | nodes/N8nToolsPdf/N8nToolsPdf.node.ts:217-226 | JavaScript `or`-defaulting on an optional string: a non-empty value is kept; an unset or empty one gives the fallback |
| `Host.ErrorItem` | nodes/N8nToolsScraper/N8nToolsScraper.node.ts:282-289 | the continue-on-fail item has exactly the keys `error` (the message) and `success` (false), and no binary |
| `Host.Spread` | nodes/N8nToolsScraper/N8nToolsScraper.node.ts:273-279 | an object spread copies an object reply's fields; null, booleans and numbers contribute nothing |
| `Host.Tagged` | nodes/N8nToolsScraper/N8nToolsScraper.node.ts:264-268 | `{...base, success: true, operation}`: keys are the base keys plus the two overlay keys; the overlay wins; every other key keeps its value |
| `Host.Collect` | nodes/N8nToolsPdf/N8nToolsPdf.node.ts:205-307 | the reference definition of the per-item loop: each step's items appended to the output, a failure turned into an error item under continue-on-fail and otherwise ending the run with the stage-prefixed message; a run aborts only when continue-on-fail is off |
| `Host.CollectNext` | nodes/N8nToolsScraper/N8nToolsScraper.node.ts:202-293 | the loop state after one more item follows from the state before it: an aborted run stays aborted; a failure without continue-on-fail aborts with the stage prefix; otherwise the item's output is appended |
| `Host.AbortIsFinal` | nodes/N8nToolsScraper/N8nToolsScraper.node.ts:290-291 | once the run has thrown, later items change neither the result nor the calls |
| `Host.ContinueOnFailCompletes` | nodes/N8nToolsScraper/N8nToolsScraper.node.ts:281-290 | with continue-on-fail every run completes, with each item's output or error item in order, and the calls of every item |
| `Host.NoFailureCompletes` | nodes/N8nToolsPdf/N8nToolsPdf.node.ts:211-307 | when no item fails, the run completes the same way whatever the policy |
| `Host.FirstFailureAborts` | nodes/N8nToolsPdf/N8nToolsPdf.node.ts:292-304 | without continue-on-fail the first failing item aborts the run with `stage + message`; only the calls up to and including that item are made |
| `Host.OneItemPerStep` | nodes/N8nToolsPdf/N8nToolsPdf.node.ts:281-301 | when each item yields one output item, the output has exactly one item per input item, in input order |
| `Host.CallsComeFromSteps` | nodes/N8nToolsPdf/N8nToolsPdf.node.ts:211-272 | every call in the concatenated call log was made by some item |
| `Host.CollectCalls` | nodes/N8nToolsPdf/N8nToolsPdf.node.ts:211-305 | every call of a run, completed or aborted, was made by one of its items |
| `Host.CallsPrefix` | nodes/N8nToolsPdf/N8nToolsPdf.node.ts:211-305 | a run's calls are exactly those of a prefix of its items, and of all items when it completes |
| `Host.Steps` | nodes/N8nToolsPdf/N8nToolsPdf.node.ts:211 | one step per input item, in order, each from that item's parameters and its own reply |
| `Text.SplitLines` | nodes/N8nToolsScraper/N8nToolsScraper.node.ts:231 | `split('\n')` returns at least one piece, and no piece contains a newline |
| `Text.SplitThenJoin` | nodes/N8nToolsScraper/N8nToolsScraper.node.ts:231 | the pieces joined back with newlines give the original text |
| `Text.JoinThenSplit` | nodes/N8nToolsScraper/N8nToolsScraper.node.ts:231 | splitting the join of newline-free lines gives those lines back |
| `Text.Trim` | nodes/N8nToolsScraper/N8nToolsScraper.node.ts:231 | `trim()` is empty exactly when every character is ECMAScript white space |
| `Text.NonBlank` | nodes/N8nToolsScraper/N8nToolsScraper.node.ts:231 | the filter keeps no more lines than it is given, and no kept line is blank |
| `Text.NonBlankKeeps` | nodes/N8nToolsScraper/N8nToolsScraper.node.ts:231 | the filter drops no line that is not blank |
| `Text.NonBlankAppend` | nodes/N8nToolsScraper/N8nToolsScraper.node.ts:231 | filtering distributes over concatenation, so kept lines stay in input order |
| `Text.LastSegment` | nodes/N8nToolsDocument/N8nToolsDocument.node.ts:297 | `split('/').pop()` is a suffix of the URL with no slash, preceded by a slash whenever it is shorter than the URL |
| `Text.ReplaceExtension` | nodes/N8nToolsDocument/N8nToolsDocument.node.ts:360 | a final `.ext` (no dot or slash after the dot, at least one character) is replaced by `.` + target; a name without one is unchanged |
| `PdfNode.Endpoint` | nodes/N8nToolsPdf/N8nToolsPdf.node.ts:232-259 | an endpoint exists exactly for the three operations |
| `PdfNode.RequestFilename` | nodes/N8nToolsPdf/N8nToolsPdf.node.ts:217 | the PDF name is never empty, and is the `filename` option whenever that is non-empty |
| `PdfNode.RequestDefaults` | nodes/N8nToolsPdf/N8nToolsPdf.node.ts:216-228 | the body has exactly filename, format, orientation, the two flags and the margins: each string option is sent as given when non-empty and otherwise as its default (`A4`, `portrait`, `1cm` for each margin), the flags are true only when set to true |
| `PdfNode.OmittedOptionsGiveDefaults` | nodes/N8nToolsPdf/N8nToolsPdf.node.ts:216-228 | with no options: `document.pdf`, `A4`, `portrait`, no header or footer, `1cm` margins |
| `PdfNode.EmptyStringsFallBack` | nodes/N8nToolsPdf/N8nToolsPdf.node.ts:216-228 | an option set to the empty string gives the same body as an unset one |
| `PdfNode.BuildRequest` | nodes/N8nToolsPdf/N8nToolsPdf.node.ts:213-259 | fails exactly for an unknown operation ("Unknown operation: …") or template data the parser rejects ("Invalid JSON in template data: …"); otherwise the endpoint is the operation's, the keys are the common ones plus the operation's, the common values are the defaults, and the html, templateId and parsed data, or url, are carried over |
| `PdfNode.SuccessItem` | nodes/N8nToolsPdf/N8nToolsPdf.node.ts:274-291 | a reply becomes one item with keys success, filename (the request's), size (the reply's byte length) and operation, with the bytes attached as `data`, `application/pdf`, under the request's file name |
| `PdfNode.NoCallOnBuildError` | nodes/N8nToolsPdf/N8nToolsPdf.node.ts:241-258 | an unknown operation or bad template data fails the item with that message and makes no request |
| `PdfNode.ItemStep` | nodes/N8nToolsPdf/N8nToolsPdf.node.ts:212-293 | the reference definition of one item's `try` block: build the request, post it, shape the reply or fail with the thrown message; it makes at most one call, and none exactly when the request cannot be built |
| `PdfNode.ItemCallsWellFormed` | nodes/N8nToolsPdf/N8nToolsPdf.node.ts:262-293 | a request that builds is exactly the one call: a POST of its body as JSON to base URL + endpoint, with exactly the bearer and JSON content-type headers, reading the reply as bytes; a rejected call fails the item with the client's message |
| `PdfNode.RunCallsWellFormed` | nodes/N8nToolsPdf/N8nToolsPdf.node.ts:211-305 | every call of a whole run was made by some item, and is well formed for that item's operation |
| `PdfNode.ContinueOnFailOneItemEach` | nodes/N8nToolsPdf/N8nToolsPdf.node.ts:292-301 | with continue-on-fail the run returns exactly one item per input item, in order: the PDF item or the error item |
| `PdfNode.ProcessItem` | nodes/N8nToolsPdf/N8nToolsPdf.node.ts:212-291 | the step-by-step request building and call give exactly the specified step |
| `PdfNode.Execute` | nodes/N8nToolsPdf/N8nToolsPdf.node.ts:203-308 | the loop over the items gives exactly `Collect` of the items' steps: the output items, or the abort message, and the calls made |
| `DocumentNode.MimeType` | nodes/N8nToolsDocument/N8nToolsDocument.node.ts:13-23 | the table's type for the six known formats; `application/octet-stream` exactly for every other format |
| `DocumentNode.FileNameFromUrl` | nodes/N8nToolsDocument/N8nToolsDocument.node.ts:297 | the name of a downloaded file is never empty and has no slash; it is the URL's last segment, or `document` when that is empty |
| `DocumentNode.ResolveInput` | nodes/N8nToolsDocument/N8nToolsDocument.node.ts:279-308 | an unknown source fails with "Unknown input source: …"; a binary source fails exactly when the property is missing, with its message; a download fails exactly when rejected, with the rejection's message; base64 never fails. The content and name come from the attachment (its name or `document`), the download (the URL's file name) or the decoded text (`document`) |
| `DocumentNode.OperationFields` | nodes/N8nToolsDocument/N8nToolsDocument.node.ts:313-328 | at most one operation field, and one exactly for convertFormat, splitPages and ocrProcessing: `targetFormat` carrying the target format, `pageRange`, and `language` carrying the OCR language |
| `DocumentNode.PageRangeDefaultsToAll` | nodes/N8nToolsDocument/N8nToolsDocument.node.ts:319-322 | a page split sends `pageRange` as given, or `all` when it is not set |
| `DocumentNode.AdvancedFieldsConditions` | nodes/N8nToolsDocument/N8nToolsDocument.node.ts:330-342 | each field is present only under its condition, with its value, and present whenever that holds: the extraction flags when true, `preserveFormatting` whenever given, the password when non-empty |
| `DocumentNode.Form` | nodes/N8nToolsDocument/N8nToolsDocument.node.ts:275-342 | the reference definition of the multipart form in append order; it holds between two and seven fields |
| `DocumentNode.FormOrder` | nodes/N8nToolsDocument/N8nToolsDocument.node.ts:275-342 | the form starts with the `operation` text and the resolved file's bytes under its file name, followed by exactly the operation's field and the advanced fields; the operation's field comes third; other operations add no such field |
| `DocumentNode.ReplyAccept` | nodes/N8nToolsDocument/N8nToolsDocument.node.ts:353 | the reply is read as bytes exactly for convertFormat and splitPages |
| `DocumentNode.ShapeReply` | nodes/N8nToolsDocument/N8nToolsDocument.node.ts:357-410 | a conversion attaches the bytes under the rewritten name with the target's MIME type, with JSON exactly success, operation, originalFilename, convertedFilename and targetFormat; a split attaches them as `<name>_pages.zip`, `application/zip`, with JSON exactly success, operation, originalFilename and outputFilename; any other operation gives the reply's fields overlaid with success, operation and originalFilename, with no binary |
| `DocumentNode.ItemStep` | nodes/N8nToolsDocument/N8nToolsDocument.node.ts:269-415 | the reference definition of one item's `try` block: resolve the input, post the form, shape the reply or fail with the thrown message; the first call is a download exactly for the URL source |
| `DocumentNode.NoCallOnInputError` | nodes/N8nToolsDocument/N8nToolsDocument.node.ts:282-308 | a missing attachment or an unknown source fails the item with its message before any request |
| `DocumentNode.ItemCalls` | nodes/N8nToolsDocument/N8nToolsDocument.node.ts:293-355 | at most two calls: the download, only for the URL source, then one POST to the processing endpoint with the bearer token, reading bytes exactly for convertFormat and splitPages; the POST is last whenever the input resolves |
| `DocumentNode.PostsBuiltForm` | nodes/N8nToolsDocument/N8nToolsDocument.node.ts:293-415 | the posted form is the one built from the resolved input, after the download when there is one; an input that does not resolve, a rejected download included, fails the item with its message and makes no POST; a rejected processing call fails the item with the client's message, and an answered one yields exactly the shaped reply |
| `DocumentNode.EmitsOneItem` | nodes/N8nToolsDocument/N8nToolsDocument.node.ts:357-410 | a successful item yields exactly one output item |
| `DocumentNode.ConvertExamples` | nodes/N8nToolsDocument/N8nToolsDocument.node.ts:357-366 | `report.docx` converted to pdf becomes `report.pdf` with `application/pdf`; `document` keeps its name; an unknown format gets `application/octet-stream` |
| `DocumentNode.ContinueOnFailOneItemEach` | nodes/N8nToolsDocument/N8nToolsDocument.node.ts:411-420 | with continue-on-fail the run returns exactly one item per input item, in order |
| `DocumentNode.ReadInput` | nodes/N8nToolsDocument/N8nToolsDocument.node.ts:279-308 | the input-source switch yields the specified file or error, and downloads exactly for the URL source |
| `DocumentNode.AppendFields` | nodes/N8nToolsDocument/N8nToolsDocument.node.ts:275-342 | the appended form is exactly the specified form, in order |
| `DocumentNode.AppendAdvancedOptions` | nodes/N8nToolsDocument/N8nToolsDocument.node.ts:330-342 | the four conditional appends extend the form by exactly the advanced fields |
| `DocumentNode.ProcessItem` | nodes/N8nToolsDocument/N8nToolsDocument.node.ts:269-410 | processing one item gives exactly the specified step |
| `DocumentNode.Execute` | nodes/N8nToolsDocument/N8nToolsDocument.node.ts:260-426 | the loop over the items gives exactly `Collect` of the items' steps |
| `ScraperNode.Endpoint` | nodes/N8nToolsScraper/N8nToolsScraper.node.ts:222-243 | an endpoint exists exactly for the three operations |
| `ScraperNode.OptionsBody` | nodes/N8nToolsScraper/N8nToolsScraper.node.ts:210-217 | the six option keys are always present. The selector wait and user agent default to "". `waitTime` is never 0, and it is 5 exactly when unset, 0 or 5. JavaScript and redirects are off exactly when given false. Screenshots are on exactly when given true |
| `ScraperNode.OmittedOptionsGiveDefaults` | nodes/N8nToolsScraper/N8nToolsScraper.node.ts:208-217 | with no options: "", 5, "", JavaScript on, no screenshot, redirects followed |
| `ScraperNode.UrlList` | nodes/N8nToolsScraper/N8nToolsScraper.node.ts:231 | the URL list has at most as many entries as there are lines; every entry trims to a non-empty string and contains no newline |
| `ScraperNode.UrlArray` | nodes/N8nToolsScraper/N8nToolsScraper.node.ts:231 | the `urls` field is an array of the listed URLs as strings, in order |
| `ScraperNode.UrlListKeepsEveryUrl` | nodes/N8nToolsScraper/N8nToolsScraper.node.ts:231 | every non-blank line of the text is in the URL list |
| `ScraperNode.UrlListDropsBlankLines` | nodes/N8nToolsScraper/N8nToolsScraper.node.ts:231 | for any two URLs, `a\n\nb\n` gives exactly `[a, b]` |
| `ScraperNode.BuildRequest` | nodes/N8nToolsScraper/N8nToolsScraper.node.ts:204-243 | fails exactly for an unknown operation, with "Unknown operation: …". Otherwise the endpoint is the operation's and the body is selectors (or []), the options body, and either `urls` for a multi-page scrape or `url` |
| `ScraperNode.ShapeReply` | nodes/N8nToolsScraper/N8nToolsScraper.node.ts:257-280 | fails exactly for a null reply to a multi-page scrape. A multi-page reply whose `data` is an array gives one item per page, in order. Any other reply gives one item |
| `ScraperNode.PageItemFields` | nodes/N8nToolsScraper/N8nToolsScraper.node.ts:262-270 | a page item keeps every page field except success and operation, which it sets, and has no binary |
| `ScraperNode.EmptyPageArrayYieldsNothing` | nodes/N8nToolsScraper/N8nToolsScraper.node.ts:260-270 | a multi-page reply with an empty `data` array yields no item |
| `ScraperNode.ItemStep` | nodes/N8nToolsScraper/N8nToolsScraper.node.ts:203-285 | the reference definition of one item's `try` block: build the request, post it, shape the reply or fail with the thrown message; at most one call, and none exactly for an unknown operation |
| `ScraperNode.ItemCalls` | nodes/N8nToolsScraper/N8nToolsScraper.node.ts:241-285 | an unknown operation fails with no request; every other item makes exactly one call, a POST of the request it built as JSON to base URL + endpoint with the bearer and JSON content-type headers, reading the reply as JSON; a rejected call fails the item with the client's message; an answered one yields exactly the shaped reply's items, or fails with the null-data error |
| `ScraperNode.ContinueOnFailOutput` | nodes/N8nToolsScraper/N8nToolsScraper.node.ts:281-290 | with continue-on-fail the run completes with each item's pages or item, or its error item, in order |
| `ScraperNode.PushPages` | nodes/N8nToolsScraper/N8nToolsScraper.node.ts:262-270 | the `forEach` pushes exactly one item per page, in page order |
| `ScraperNode.ProcessItem` | nodes/N8nToolsScraper/N8nToolsScraper.node.ts:203-280 | processing one item gives exactly the specified step |
| `ScraperNode.Execute` | nodes/N8nToolsScraper/N8nToolsScraper.node.ts:194-296 | the loop over the items gives exactly `Collect` of the items' steps |

## Left out

- A run that throws returns nothing, including items already pushed before the failing one (the `catch` rethrows, so `returnData` is never returned).
- HTTP transport, `async` scheduling and axios behaviour are left out. Each call's reply or rejection is an input. Error messages are plain strings; the `instanceof Error` / `String(error)` distinction in the PDF node is not modelled.
- `JSON.parse` and base64 decoding are parameters. The model does not fix their results or their error messages.
- The host's parameter accessors, `getCredentials`, `helpers.getBinaryDataBuffer` and `prepareBinaryData` are left out. Their results are the fields of `Params`, `Credentials` and `Binary`; the attachment's buffer is its `data` field.
- The multipart headers from `getHeaders()` are not modelled. The boundary is generated at random, so only the `Authorization` header is stated.
- Object key order in request bodies and output items is not modelled: bodies and items are maps.
- `DocumentNode.MimeType`: inherited object properties such as `constructor` are treated as unknown formats, although JavaScript would look them up on the prototype.
- `Text.ReplaceExtension`: a target format holding `$` replacement patterns is treated literally.
- Numbers are unbounded integers, so floating-point values, `NaN` and the byte lengths of huge buffers are not modelled. `waitTime` is an integer.
- `Host.Spread` on arrays and strings gives index keys; the contract states only the object, null, boolean and number cases.
- `Host.Spread` on a string gives one key per character (a Unicode scalar value), while JavaScript gives one per UTF-16 code unit, so a character outside the Basic Multilingual Plane differs.
- `ScraperNode.ShapeReply`: the message of the error raised on a `null` multi-page reply is the wording of V8 since Node.js 16.9; other engines word it differently.
- `DocumentNode.PageRangeDefaultsToAll`: the node's field default for `pageRange` is the empty string (N8nToolsDocument.node.ts line 191), so an untouched field is sent as `""`; the `all` fallback applies only when the host returns no value at all.
- The node description schemas (display options, defaults shown in the editor), the credentials type, build scripts and test configuration are not part of this model.

/**
 * The PDF generator node: per item it builds a JSON request body from the
 * options (with their defaults) and the selected operation, posts it to
 * the endpoint of that operation and turns the PDF bytes of the reply into
 * an output item with the file attached.
 */
module PdfNode {
  import opened Host

  /** The `options` collection; a field the user did not set is `None`. */
  datatype PdfOptions = PdfOptions(
    filename: Option<string>,
    format: Option<string>,
    orientation: Option<string>,
    includeHeader: Option<bool>,
    includeFooter: Option<bool>,
    marginTop: Option<string>,
    marginBottom: Option<string>,
    marginLeft: Option<string>,
    marginRight: Option<string>)

  /** The parameters the host resolves for one item; `templateData` is `None` when unset. */
  datatype Params = Params(
    operation: string,
    options: PdfOptions,
    htmlContent: string,
    templateId: string,
    templateData: Option<string>,
    url: string)

  /** Where one request goes and what it carries. */
  datatype Request = Request(endpoint: string, body: map<string, Value>)

  const Stage := "PDF generation failed: "

  const Operations: set<string> := {"generateFromHtml", "generateFromTemplate", "generateFromUrl"}

  /** The keys every request body has, whatever the operation. */
  const CommonKeys: set<string> := {"filename", "format", "orientation", "includeHeader", "includeFooter", "margins"}

  const NoOptions := PdfOptions(None, None, None, None, None, None, None, None, None)

  /** The endpoint path of each operation; no other operation has one. */
  function Endpoint(operation: string): (e: Option<string>)
    ensures e.Some? <==> operation in Operations
  {
    match operation
    case "generateFromHtml" => Some("/api/v1/pdf/generate/html")
    case "generateFromTemplate" => Some("/api/v1/pdf/generate/template")
    case "generateFromUrl" => Some("/api/v1/pdf/generate/url")
    case _ => None
  }

  /** The body fields added by each operation. */
  function OperationKeys(operation: string): set<string>
  {
    match operation
    case "generateFromHtml" => {"html"}
    case "generateFromTemplate" => {"templateId", "data"}
    case "generateFromUrl" => {"url"}
    case _ => {}
  }

  /** The name the PDF gets: the `filename` option, or `document.pdf` when it is unset or empty. */
  function RequestFilename(o: PdfOptions): (name: string)
    ensures name != ""
    ensures o.filename.Some? && o.filename.value != "" ==> name == o.filename.value
  {
    OrString(o.filename, "document.pdf")
  }

  /** The body every request starts from: each option, or its default when it is falsy. */
  function RequestDefaults(o: PdfOptions): (body: map<string, Value>)
    ensures body.Keys == CommonKeys
    ensures body["filename"] == Str(RequestFilename(o))
    ensures body["format"] == Str(OrString(o.format, "A4"))
    ensures body["orientation"] == Str(OrString(o.orientation, "portrait"))
    ensures body["format"].s != "" && body["orientation"].s != ""
    ensures body["includeHeader"] == Bool(o.includeHeader == Some(true))
    ensures body["includeFooter"] == Bool(o.includeFooter == Some(true))
    ensures body["margins"] == Obj(map[
      "top" := Str(OrString(o.marginTop, "1cm")),
      "bottom" := Str(OrString(o.marginBottom, "1cm")),
      "left" := Str(OrString(o.marginLeft, "1cm")),
      "right" := Str(OrString(o.marginRight, "1cm"))])
  {
    map[
      "filename" := Str(RequestFilename(o)),
      "format" := Str(OrString(o.format, "A4")),
      "orientation" := Str(OrString(o.orientation, "portrait")),
      "includeHeader" := Bool(o.includeHeader == Some(true)),
      "includeFooter" := Bool(o.includeFooter == Some(true)),
      "margins" := Obj(map[
        "top" := Str(OrString(o.marginTop, "1cm")),
        "bottom" := Str(OrString(o.marginBottom, "1cm")),
        "left" := Str(OrString(o.marginLeft, "1cm")),
        "right" := Str(OrString(o.marginRight, "1cm"))])]
  }

  /** With no options at all the body carries the documented defaults. */
  lemma OmittedOptionsGiveDefaults()
    ensures RequestDefaults(NoOptions) == map[
      "filename" := Str("document.pdf"),
      "format" := Str("A4"),
      "orientation" := Str("portrait"),
      "includeHeader" := Bool(false),
      "includeFooter" := Bool(false),
      "margins" := Obj(map["top" := Str("1cm"), "bottom" := Str("1cm"), "left" := Str("1cm"), "right" := Str("1cm")])]
  {
  }

  /** An option set to the empty string is unset as far as `||` is concerned. */
  function Unblank(o: Option<string>): Option<string>
  {
    if o == Some("") then None else o
  }

  /** Empty-string options fall back to the defaults exactly as unset ones do. */
  lemma EmptyStringsFallBack(o: PdfOptions)
    ensures RequestDefaults(o) == RequestDefaults(o.(
      filename := Unblank(o.filename), format := Unblank(o.format), orientation := Unblank(o.orientation),
      marginTop := Unblank(o.marginTop), marginBottom := Unblank(o.marginBottom),
      marginLeft := Unblank(o.marginLeft), marginRight := Unblank(o.marginRight)))
  {
  }

  function TemplateText(p: Params): string
  {
    match p.templateData
    case Some(text) => text
    case None => "{}"
  }

  /**
   * The request of one item, or the error raised before any call: an
   * unknown operation, or template data the parser rejects.
   */
  function BuildRequest(p: Params, parse: string -> Parsed): (r: Result<Request>)
    ensures p.operation !in Operations ==> r == Err("Unknown operation: " + p.operation)
    ensures p.operation == "generateFromTemplate" && parse(TemplateText(p)).ParseError? ==>
      r == Err("Invalid JSON in template data: " + parse(TemplateText(p)).message)
    ensures r.Err? ==>
      p.operation !in Operations || (p.operation == "generateFromTemplate" && parse(TemplateText(p)).ParseError?)
    ensures r.Ok? ==> Endpoint(p.operation) == Some(r.value.endpoint)
    ensures r.Ok? ==> r.value.body.Keys == CommonKeys + OperationKeys(p.operation)
    ensures r.Ok? ==> forall k :: k in CommonKeys ==> r.value.body[k] == RequestDefaults(p.options)[k]
    ensures r.Ok? && p.operation == "generateFromHtml" ==> r.value.body["html"] == Str(p.htmlContent)
    ensures r.Ok? && p.operation == "generateFromTemplate" ==>
      r.value.body["templateId"] == Str(p.templateId) && ParsedOk(r.value.body["data"]) == parse(TemplateText(p))
    ensures r.Ok? && p.operation == "generateFromUrl" ==> r.value.body["url"] == Str(p.url)
  {
    var base := RequestDefaults(p.options);
    OperationKeysAreNew();
    match p.operation
    case "generateFromHtml" =>
      Ok(Request("/api/v1/pdf/generate/html", base["html" := Str(p.htmlContent)]))
    case "generateFromTemplate" =>
      (match parse(TemplateText(p))
       case ParseError(message) => Err("Invalid JSON in template data: " + message)
       case ParsedOk(data) =>
         Ok(Request("/api/v1/pdf/generate/template", base["templateId" := Str(p.templateId)]["data" := data])))
    case "generateFromUrl" =>
      Ok(Request("/api/v1/pdf/generate/url", base["url" := Str(p.url)]))
    case _ => Err("Unknown operation: " + p.operation)
  }

  /** No operation field overwrites one of the common fields. */
  lemma OperationKeysAreNew()
    ensures "html" !in CommonKeys && "templateId" !in CommonKeys && "data" !in CommonKeys && "url" !in CommonKeys
  {
  }

  /** The item emitted for a generated PDF. */
  function PdfItem(operation: string, filename: string, pdf: seq<byte>): Item
  {
    Item(
      map["success" := Bool(true), "filename" := Str(filename), "size" := Num(|pdf|), "operation" := Str(operation)],
      map["data" := Binary(pdf, Some(filename), "application/pdf")])
  }

  /** Processing one item: build the request, make the call, shape the reply. */
  function ItemStep(p: Params, cred: Credentials, parse: string -> Parsed, reply: Response): (s: Step)
    ensures |s.calls| <= 1
    ensures s.calls == [] <==> BuildRequest(p, parse).Err?
  {
    match BuildRequest(p, parse)
    case Err(message) => Step(Failed(message), [])
    case Ok(req) =>
      var call := Post(cred.apiUrl + req.endpoint, JsonHeaders(cred), JsonBody(Obj(req.body)), RawBytes);
      match reply
      case Rejected(message) => Step(Failed(message), [call])
      case Answered(pdf, _) => Step(Emitted([PdfItem(p.operation, RequestFilename(p.options), pdf)]), [call])
  }

  /**
   * The item of a successful call: a JSON summary whose `filename` is the
   * request's and whose `size` is the byte length of the reply, with the
   * reply attached under `data` as `application/pdf` under that same name.
   */
  lemma SuccessItem(p: Params, cred: Credentials, parse: string -> Parsed, pdf: seq<byte>, json: Value)
    requires BuildRequest(p, parse).Ok?
    ensures var s := ItemStep(p, cred, parse, Answered(pdf, json));
      && s.outcome.Emitted? && |s.outcome.items| == 1
      && var it := s.outcome.items[0];
      && it.json.Keys == {"success", "filename", "size", "operation"}
      && it.json["success"] == Bool(true)
      && it.json["filename"] == BuildRequest(p, parse).value.body["filename"]
      && it.json["size"] == Num(|pdf|)
      && it.json["operation"] == Str(p.operation)
      && it.binary.Keys == {"data"}
      && it.binary["data"] == Binary(pdf, Some(RequestFilename(p.options)), "application/pdf")
  {
    var req := BuildRequest(p, parse).value;
    assert "filename" in CommonKeys;
    assert req.body["filename"] == Str(RequestFilename(p.options));
    assert ItemStep(p, cred, parse, Answered(pdf, json)).outcome.items
      == [PdfItem(p.operation, RequestFilename(p.options), pdf)];
  }

  /** A request that cannot be built fails the item before any call is made. */
  lemma NoCallOnBuildError(p: Params, cred: Credentials, parse: string -> Parsed, reply: Response)
    requires BuildRequest(p, parse).Err?
    ensures ItemStep(p, cred, parse, reply) == Step(Failed(BuildRequest(p, parse).message), [])
  {
  }

  /** Every call goes to the API base URL plus the operation's endpoint, with bearer and JSON headers. */
  predicate WellFormedCall(c: Call, cred: Credentials, operation: string)
  {
    && c.Post?
    && Endpoint(operation).Some?
    && c.url == cred.apiUrl + Endpoint(operation).value
    && c.headers == JsonHeaders(cred)
    && c.body.JsonBody?
    && c.accept == RawBytes
  }

  /**
   * The request that builds is the one posted, as JSON with the bearer and
   * JSON headers, its reply read as bytes; a rejected call fails the item
   * with the client's message.
   */
  lemma ItemCallsWellFormed(p: Params, cred: Credentials, parse: string -> Parsed, reply: Response)
    ensures forall c :: c in ItemStep(p, cred, parse, reply).calls ==> WellFormedCall(c, cred, p.operation)
    ensures var r := BuildRequest(p, parse);
      r.Ok? ==> ItemStep(p, cred, parse, reply).calls
                  == [Post(cred.apiUrl + r.value.endpoint, JsonHeaders(cred), JsonBody(Obj(r.value.body)), RawBytes)]
    ensures BuildRequest(p, parse).Ok? && reply.Rejected? ==>
      ItemStep(p, cred, parse, reply).outcome == Failed(reply.message)
  {
  }

  /** How each item of a run is processed, given the credentials and the JSON parser. */
  function StepOf(cred: Credentials, parse: string -> Parsed): (Params, Response) -> Step
  {
    (p, reply) => ItemStep(p, cred, parse, reply)
  }

  /** Every call of a run is well formed for the item that made it. */
  lemma RunCallsWellFormed(params: seq<Params>, replies: seq<Response>, cred: Credentials, parse: string -> Parsed,
                           continueOnFail: bool, c: Call)
    requires |replies| == |params|
    requires c in Collect(Steps(params, replies, StepOf(cred, parse)), continueOnFail, Stage).calls
    ensures exists k ::
      && 0 <= k < |params|
      && c in ItemStep(params[k], cred, parse, replies[k]).calls
      && WellFormedCall(c, cred, params[k].operation)
  {
    var steps := Steps(params, replies, StepOf(cred, parse));
    CollectCalls(steps, continueOnFail, Stage, c);
    var k :| 0 <= k < |steps| && c in steps[k].calls;
    ItemCallsWellFormed(params[k], cred, parse, replies[k]);
  }

  /**
   * With continue-on-fail a run returns exactly one item per input item, in
   * order: the PDF item, or an error item carrying the failure message.
   */
  lemma ContinueOnFailOneItemEach(params: seq<Params>, replies: seq<Response>, cred: Credentials, parse: string -> Parsed)
    requires |replies| == |params|
    ensures var t := Collect(Steps(params, replies, StepOf(cred, parse)), true, Stage);
      && t.run.Completed?
      && |t.run.items| == |params|
      && forall k :: 0 <= k < |params| ==>
           var s := ItemStep(params[k], cred, parse, replies[k]);
           t.run.items[k] == if s.outcome.Failed? then ErrorItem(s.outcome.message) else s.outcome.items[0]
  {
    var steps := Steps(params, replies, StepOf(cred, parse));
    ContinueOnFailCompletes(steps, Stage);
    OneItemPerStep(steps);
  }

  /** The body of the `try` block for one item, updating the request as the node does. */
  method ProcessItem(p: Params, cred: Credentials, parse: string -> Parsed, reply: Response) returns (step: Step)
    ensures step == ItemStep(p, cred, parse, reply)
  {
    var requestData := RequestDefaults(p.options);
    var endpoint := "";
    if p.operation == "generateFromHtml" {
      requestData := requestData["html" := Str(p.htmlContent)];
      endpoint := "/api/v1/pdf/generate/html";
    } else if p.operation == "generateFromTemplate" {
      requestData := requestData["templateId" := Str(p.templateId)];
      var parsed := parse(TemplateText(p));
      if parsed.ParseError? {
        return Step(Failed("Invalid JSON in template data: " + parsed.message), []);
      }
      requestData := requestData["data" := parsed.value];
      endpoint := "/api/v1/pdf/generate/template";
    } else if p.operation == "generateFromUrl" {
      requestData := requestData["url" := Str(p.url)];
      endpoint := "/api/v1/pdf/generate/url";
    } else {
      return Step(Failed("Unknown operation: " + p.operation), []);
    }
    var call := Post(cred.apiUrl + endpoint, JsonHeaders(cred), JsonBody(Obj(requestData)), RawBytes);
    match reply {
      case Rejected(message) =>
        step := Step(Failed(message), [call]);
      case Answered(pdf, _) =>
        var filename := requestData["filename"].s;
        step := Step(Emitted([PdfItem(p.operation, filename, pdf)]), [call]);
    }
  }

  /**
   * The node's `execute`: items in order, output appended to `returnData`;
   * a failure becomes an error item under continue-on-fail and otherwise
   * ends the run with the stage-prefixed message.
   */
  method Execute(cred: Credentials, params: seq<Params>, replies: seq<Response>, parse: string -> Parsed,
                 continueOnFail: bool) returns (trace: Trace)
    requires |replies| == |params|
    ensures trace == Collect(Steps(params, replies, StepOf(cred, parse)), continueOnFail, Stage)
  {
    ghost var steps := Steps(params, replies, StepOf(cred, parse));
    var returnData: seq<Item> := [];
    var calls: seq<Call> := [];
    var i := 0;
    while i < |params|
      invariant 0 <= i <= |params|
      invariant Collect(steps[..i], continueOnFail, Stage) == Trace(Completed(returnData), calls)
    {
      var step := ProcessItem(params[i], cred, parse, replies[i]);
      assert step == steps[i];
      CollectNext(steps, i, continueOnFail, Stage);
      calls := calls + step.calls;
      match step.outcome {
        case Emitted(out) =>
          returnData := returnData + out;
        case Failed(message) =>
          if continueOnFail {
            returnData := returnData + [ErrorItem(message)];
          } else {
            trace := Trace(Aborted(Stage + message), calls);
            AbortIsFinal(steps, i + 1, continueOnFail, Stage);
            return;
          }
      }
      i := i + 1;
    }
    assert steps[..i] == steps;
    trace := Trace(Completed(returnData), calls);
  }
}

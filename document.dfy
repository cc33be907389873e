/**
 * The document processor node: per item it resolves the input file from
 * the selected source, builds a multipart form (operation, file,
 * operation-specific field, advanced options), posts it to the processing
 * endpoint and turns the reply into a converted file, a zip of split pages
 * or the reply's JSON.
 */
module DocumentNode {
  import opened Host
  import Text

  /** The advanced options collection; a field the user did not set is `None`. */
  datatype AdvancedOptions = AdvancedOptions(
    extractImages: Option<bool>,
    extractTables: Option<bool>,
    preserveFormatting: Option<bool>,
    password: Option<string>)

  /**
   * The parameters the host resolves for one item, with the item's own
   * binary attachments; `pageRange` is `None` when unset.
   */
  datatype Params = Params(
    operation: string,
    inputSource: string,
    advanced: AdvancedOptions,
    binaryPropertyName: string,
    fileUrl: string,
    base64Data: string,
    targetFormat: string,
    pageRange: Option<string>,
    ocrLanguage: string,
    binary: map<string, Binary>)

  /** The remote side's answers for one item: the file download, then the processing call. */
  datatype Exchange = Exchange(download: Response, process: Response)

  /** The file sent for processing. */
  datatype InputFile = InputFile(content: seq<byte>, fileName: string)

  const Stage := "Document processing failed: "

  /** The file name used when the input gives none. */
  const DefaultName := "document"

  const ProcessPath := "/api/v1/documents/process"

  const InputSources: set<string> := {"binaryData", "fileUrl", "base64"}

  /** The operations that add one field of their own to the form. */
  const FieldOperations: set<string> := {"convertFormat", "splitPages", "ocrProcessing"}

  const MimeTypes: map<string, string> := map[
    "pdf" := "application/pdf",
    "docx" := "application/vnd.openxmlformats-officedocument.wordprocessingml.document",
    "txt" := "text/plain",
    "html" := "text/html",
    "md" := "text/markdown",
    "rtf" := "application/rtf"]

  /** `getMimeType`: the listed type of a known format; the generic binary type exactly for every other one. */
  function MimeType(format: string): (mime: string)
    ensures format in MimeTypes ==> mime == MimeTypes[format]
    ensures mime == "application/octet-stream" <==> format !in MimeTypes
  {
    if format in MimeTypes then MimeTypes[format] else "application/octet-stream"
  }

  /** The file name of a downloaded file: the URL's last path segment, `document` when that is empty. */
  function FileNameFromUrl(url: string): (name: string)
    ensures name != "" && '/' !in name
    ensures name == Text.LastSegment(url) || name == DefaultName
    ensures Text.LastSegment(url) != "" ==> name == Text.LastSegment(url)
  {
    var segment := Text.LastSegment(url);
    if segment != "" then segment else DefaultNameHasNoSlash(); DefaultName
  }

  lemma DefaultNameHasNoSlash()
    ensures '/' !in DefaultName
  {
  }

  /** The calls made while resolving the input: a download exactly for the `fileUrl` source. */
  function DownloadCalls(p: Params): seq<Call>
  {
    if p.inputSource == "fileUrl" then [Get(p.fileUrl, RawBytes)] else []
  }

  /**
   * The file to process and its name, or the error raised before the
   * processing call.
   */
  function ResolveInput(p: Params, download: Response, decode: string -> seq<byte>): (r: Result<InputFile>)
    ensures p.inputSource !in InputSources ==> r == Err("Unknown input source: " + p.inputSource)
    ensures p.inputSource == "binaryData" ==> (r.Err? <==> p.binaryPropertyName !in p.binary)
    ensures p.inputSource == "binaryData" && p.binaryPropertyName !in p.binary ==>
      r == Err("No binary data found for property \"" + p.binaryPropertyName + "\"")
    ensures p.inputSource == "fileUrl" ==> (r.Err? <==> download.Rejected?)
    ensures p.inputSource == "fileUrl" && download.Rejected? ==> r == Err(download.message)
    ensures p.inputSource == "base64" ==> r.Ok?
    ensures r.Ok? ==> r.value.fileName != ""
    ensures r.Ok? && p.inputSource == "binaryData" ==>
      var attachment := p.binary[p.binaryPropertyName];
      r.value.content == attachment.data
      && (attachment.fileName.Some? && attachment.fileName.value != "" ==> r.value.fileName == attachment.fileName.value)
      && (attachment.fileName.None? || attachment.fileName.value == "" ==> r.value.fileName == "document")
    ensures r.Ok? && p.inputSource == "fileUrl" ==>
      r.value.content == download.raw && r.value.fileName == FileNameFromUrl(p.fileUrl)
    ensures r.Ok? && p.inputSource == "base64" ==>
      r.value.content == decode(p.base64Data) && r.value.fileName == "document"
  {
    match p.inputSource
    case "binaryData" =>
      if p.binaryPropertyName !in p.binary then
        Err("No binary data found for property \"" + p.binaryPropertyName + "\"")
      else
        var attachment := p.binary[p.binaryPropertyName];
        Ok(InputFile(attachment.data, OrString(attachment.fileName, "document")))
    case "fileUrl" =>
      (match download
       case Rejected(message) => Err(message)
       case Answered(raw, _) => Ok(InputFile(raw, FileNameFromUrl(p.fileUrl))))
    case "base64" => Ok(InputFile(decode(p.base64Data), "document"))
    case _ => Err("Unknown input source: " + p.inputSource)
  }

  function PageRange(p: Params): string
  {
    match p.pageRange
    case Some(range) => range
    case None => "all"
  }

  /** The field an operation adds after the file; every other operation adds none. */
  function OperationFields(p: Params): (fields: seq<FormField>)
    ensures |fields| <= 1
    ensures fields == [] <==> p.operation !in FieldOperations
    ensures p.operation == "convertFormat" ==> fields == [TextField("targetFormat", p.targetFormat)]
    ensures p.operation == "splitPages" ==> |fields| == 1 && fields[0].name == "pageRange"
    ensures p.operation == "ocrProcessing" ==> fields == [TextField("language", p.ocrLanguage)]
  {
    match p.operation
    case "convertFormat" => [TextField("targetFormat", p.targetFormat)]
    case "splitPages" => [TextField("pageRange", PageRange(p))]
    case "ocrProcessing" => [TextField("language", p.ocrLanguage)]
    case _ => []
  }

  /** A page split with no page range given asks for all pages; a given range is sent as it is. */
  lemma PageRangeDefaultsToAll(p: Params)
    requires p.operation == "splitPages"
    ensures p.pageRange.None? ==> OperationFields(p) == [TextField("pageRange", "all")]
    ensures p.pageRange.Some? ==> OperationFields(p) == [TextField("pageRange", p.pageRange.value)]
  {
  }

  function BoolText(b: bool): string
  {
    if b then "true" else "false"
  }

  function Names(fields: seq<FormField>): (names: seq<string>)
    ensures |names| == |fields|
    ensures forall i :: 0 <= i < |fields| ==> names[i] == fields[i].name
  {
    seq(|fields|, i requires 0 <= i < |fields| => fields[i].name)
  }

  /** One advanced-option field is present only under its condition, with its value. */
  predicate AdvancedFieldAllowed(f: FormField, a: AdvancedOptions)
  {
    || (f == TextField("extractImages", "true") && a.extractImages == Some(true))
    || (f == TextField("extractTables", "true") && a.extractTables == Some(true))
    || (a.preserveFormatting.Some? && f == TextField("preserveFormatting", BoolText(a.preserveFormatting.value)))
    || (a.password.Some? && a.password.value != "" && f == TextField("password", a.password.value))
  }

  /** The advanced-option fields in the order the node appends them. */
  function AdvancedFields(a: AdvancedOptions): seq<FormField>
  {
    var images := if a.extractImages == Some(true) then [TextField("extractImages", "true")] else [];
    var tables := if a.extractTables == Some(true) then [TextField("extractTables", "true")] else [];
    var preserve := if a.preserveFormatting.Some? then [TextField("preserveFormatting", BoolText(a.preserveFormatting.value))] else [];
    var password := if a.password.Some? && a.password.value != "" then [TextField("password", a.password.value)] else [];
    images + tables + preserve + password
  }

  /**
   * The advanced-option fields: the two extraction flags only when set,
   * `preserveFormatting` whenever it is given, the password only when it is
   * not empty.
   */
  lemma AdvancedFieldsConditions(a: AdvancedOptions)
    ensures var fields := AdvancedFields(a);
      && (forall f :: f in fields ==> AdvancedFieldAllowed(f, a))
      && (a.extractImages == Some(true) ==> TextField("extractImages", "true") in fields)
      && (a.extractTables == Some(true) ==> TextField("extractTables", "true") in fields)
      && (a.preserveFormatting.Some? ==> TextField("preserveFormatting", BoolText(a.preserveFormatting.value)) in fields)
      && (a.password.Some? && a.password.value != "" ==> TextField("password", a.password.value) in fields)
      && |fields| <= 4
  {
  }

  /** The multipart form in the order the node appends it. */
  function Form(p: Params, file: InputFile): (fields: seq<FormField>)
    ensures 2 <= |fields| <= 7
  {
    AdvancedFieldsConditions(p.advanced);
    [TextField("operation", p.operation), FileField("file", file.content, file.fileName)]
      + OperationFields(p) + AdvancedFields(p.advanced)
  }

  /**
   * The operation-specific field, when there is one, comes third, right
   * after the file and before every advanced option; no other operation
   * puts a `targetFormat`, `pageRange` or `language` field in the form.
   */
  lemma FormOrder(p: Params, file: InputFile)
    ensures Form(p, file)[..2] == [TextField("operation", p.operation), FileField("file", file.content, file.fileName)]
    ensures Form(p, file)[2..] == OperationFields(p) + AdvancedFields(p.advanced)
    ensures var names := Names(Form(p, file));
      && names[..2] == ["operation", "file"]
      && (p.operation == "convertFormat" ==> names[2] == "targetFormat")
      && (p.operation == "splitPages" ==> names[2] == "pageRange")
      && (p.operation == "ocrProcessing" ==> names[2] == "language")
      && (p.operation !in FieldOperations ==>
            forall i :: 2 <= i < |names| ==> names[i] !in {"targetFormat", "pageRange", "language"})
  {
    var fields := Form(p, file);
    var names := Names(fields);
    var ops := OperationFields(p);
    var adv := AdvancedFields(p.advanced);
    assert fields == [TextField("operation", p.operation), FileField("file", file.content, file.fileName)] + ops + adv;
    assert fields[..2] == [TextField("operation", p.operation), FileField("file", file.content, file.fileName)];
    assert fields[2..] == ops + adv;
    assert names[0] == "operation" && names[1] == "file";
    assert names[..2] == ["operation", "file"];
    if p.operation in FieldOperations {
      assert fields[2] == ops[0];
    } else {
      assert ops == [];
      AdvancedFieldsConditions(p.advanced);
      forall i | 2 <= i < |names|
        ensures names[i] !in {"targetFormat", "pageRange", "language"}
      {
        assert fields[i] == adv[i - 2];
        assert AdvancedFieldAllowed(adv[i - 2], p.advanced);
      }
    }
  }

  /** How the reply body is read: as bytes for a conversion or a split, as JSON otherwise. */
  function ReplyAccept(operation: string): (accept: Accept)
    ensures accept == RawBytes <==> operation == "convertFormat" || operation == "splitPages"
  {
    if operation == "convertFormat" || operation == "splitPages" then RawBytes else ParsedJson
  }

  /** The item for a converted file. */
  function ConvertedItem(p: Params, fileName: string, raw: seq<byte>): Item
  {
    var converted := Text.ReplaceExtension(fileName, p.targetFormat);
    Item(
      map[
        "success" := Bool(true),
        "operation" := Str(p.operation),
        "originalFilename" := Str(fileName),
        "convertedFilename" := Str(converted),
        "targetFormat" := Str(p.targetFormat)],
      map["data" := Binary(raw, Some(converted), MimeType(p.targetFormat))])
  }

  /** The item for the zip of split pages. */
  function SplitItem(p: Params, fileName: string, raw: seq<byte>): Item
  {
    Item(
      map[
        "success" := Bool(true),
        "operation" := Str(p.operation),
        "originalFilename" := Str(fileName),
        "outputFilename" := Str(fileName + "_pages.zip")],
      map["data" := Binary(raw, Some(fileName + "_pages.zip"), "application/zip")])
  }

  /** The item for a JSON reply: the reply's fields overlaid with the outcome. */
  function JsonItem(p: Params, fileName: string, json: Value): Item
  {
    Item(Tagged(Spread(json), p.operation)["originalFilename" := Str(fileName)], map[])
  }

  /** The output item of a successful processing call, chosen by operation. */
  function ShapeReply(p: Params, fileName: string, raw: seq<byte>, json: Value): (it: Item)
    ensures p.operation == "convertFormat" ==>
      && it.binary.Keys == {"data"}
      && it.binary["data"].data == raw
      && it.binary["data"].fileName == Some(Text.ReplaceExtension(fileName, p.targetFormat))
      && it.binary["data"].mimeType == MimeType(p.targetFormat)
      && it.json == map[
           "success" := Bool(true),
           "operation" := Str(p.operation),
           "originalFilename" := Str(fileName),
           "convertedFilename" := Str(Text.ReplaceExtension(fileName, p.targetFormat)),
           "targetFormat" := Str(p.targetFormat)]
    ensures p.operation == "splitPages" ==>
      && it.binary.Keys == {"data"}
      && it.binary["data"] == Binary(raw, Some(fileName + "_pages.zip"), "application/zip")
      && it.json == map[
           "success" := Bool(true),
           "operation" := Str(p.operation),
           "originalFilename" := Str(fileName),
           "outputFilename" := Str(fileName + "_pages.zip")]
    ensures ReplyAccept(p.operation) == ParsedJson ==>
      && it.binary == map[]
      && it.json.Keys == Spread(json).Keys + {"success", "operation", "originalFilename"}
      && it.json["success"] == Bool(true)
      && it.json["operation"] == Str(p.operation)
      && it.json["originalFilename"] == Str(fileName)
      && forall k :: k in Spread(json) && k !in {"success", "operation", "originalFilename"} ==>
           it.json[k] == Spread(json)[k]
  {
    if p.operation == "convertFormat" then ConvertedItem(p, fileName, raw)
    else if p.operation == "splitPages" then SplitItem(p, fileName, raw)
    else JsonItem(p, fileName, json)
  }

  function AuthHeader(cred: Credentials): map<string, string>
  {
    map["Authorization" := BearerToken(cred)]
  }

  /** The processing request: the form posted with the bearer token. */
  function ProcessCall(p: Params, cred: Credentials, file: InputFile): Call
  {
    Post(cred.apiUrl + ProcessPath, AuthHeader(cred), Multipart(Form(p, file)), ReplyAccept(p.operation))
  }

  /** Processing one item: resolve the input, post the form, shape the reply. */
  function ItemStep(p: Params, cred: Credentials, decode: string -> seq<byte>, ex: Exchange): (s: Step)
    ensures s.calls != [] && s.calls[0].Get? <==> p.inputSource == "fileUrl"
  {
    var fetch := DownloadCalls(p);
    match ResolveInput(p, ex.download, decode)
    case Err(message) => Step(Failed(message), fetch)
    case Ok(file) => Processed(p, file, fetch + [ProcessCall(p, cred, file)], ex.process)
  }

  /** The step of an item whose processing call was made: the reply shaped, or its rejection. */
  function Processed(p: Params, file: InputFile, calls: seq<Call>, reply: Response): (s: Step)
    ensures s.calls == calls
    ensures s.outcome.Emitted? ==> |s.outcome.items| == 1
  {
    match reply
    case Rejected(message) => Step(Failed(message), calls)
    case Answered(raw, json) => Step(Emitted([ShapeReply(p, file.fileName, raw, json)]), calls)
  }

  /** A missing attachment or an unknown input source fails the item before any call is made. */
  lemma NoCallOnInputError(p: Params, cred: Credentials, decode: string -> seq<byte>, ex: Exchange)
    requires p.inputSource !in InputSources || (p.inputSource == "binaryData" && p.binaryPropertyName !in p.binary)
    ensures ItemStep(p, cred, decode, ex).calls == []
    ensures p.inputSource !in InputSources ==>
      ItemStep(p, cred, decode, ex).outcome == Failed("Unknown input source: " + p.inputSource)
    ensures p.inputSource == "binaryData" ==>
      ItemStep(p, cred, decode, ex).outcome == Failed("No binary data found for property \"" + p.binaryPropertyName + "\"")
  {
  }

  // The three lemmas below are the parts of `ItemCalls`, proved apart so
  // that each proof obligation stays small.

  lemma CallCount(p: Params, cred: Credentials, decode: string -> seq<byte>, ex: Exchange)
    ensures var calls := ItemStep(p, cred, decode, ex).calls;
      && |calls| <= 2
      && (ResolveInput(p, ex.download, decode).Ok? ==> calls[|calls| - 1].Post?)
  {
  }

  lemma DownloadOnlyFromUrl(p: Params, cred: Credentials, decode: string -> seq<byte>, ex: Exchange)
    ensures forall c :: c in ItemStep(p, cred, decode, ex).calls && c.Get? ==>
      c == Get(p.fileUrl, RawBytes) && p.inputSource == "fileUrl"
  {
    var fetch := DownloadCalls(p);
    var calls := ItemStep(p, cred, decode, ex).calls;
    match ResolveInput(p, ex.download, decode) {
      case Err(_) =>
        assert calls == fetch;
      case Ok(file) =>
        assert calls == fetch + [ProcessCall(p, cred, file)];
    }
  }

  lemma PostsToProcessPath(p: Params, cred: Credentials, decode: string -> seq<byte>, ex: Exchange)
    ensures forall c :: c in ItemStep(p, cred, decode, ex).calls && c.Post? ==>
      && c.url == cred.apiUrl + "/api/v1/documents/process"
      && c.headers["Authorization"] == "Bearer " + cred.apiKey
      && c.accept == ReplyAccept(p.operation)
  {
  }

  /**
   * Every item makes at most a download and then one processing call, with
   * the bearer token, whose reply is read as bytes exactly for a conversion
   * or a split; an unknown operation is posted like any other.
   */
  lemma ItemCalls(p: Params, cred: Credentials, decode: string -> seq<byte>, ex: Exchange)
    ensures var calls := ItemStep(p, cred, decode, ex).calls;
      && |calls| <= 2
      && (forall c :: c in calls && c.Get? ==> c == Get(p.fileUrl, RawBytes) && p.inputSource == "fileUrl")
      && (forall c :: c in calls && c.Post? ==>
            && c.url == cred.apiUrl + "/api/v1/documents/process"
            && c.headers["Authorization"] == "Bearer " + cred.apiKey
            && (c.accept == RawBytes <==> p.operation == "convertFormat" || p.operation == "splitPages"))
      && (ResolveInput(p, ex.download, decode).Ok? ==> calls[|calls| - 1].Post?)
  {
    CallCount(p, cred, decode, ex);
    DownloadOnlyFromUrl(p, cred, decode, ex);
    PostsToProcessPath(p, cred, decode, ex);
  }

  /**
   * The form built from the resolved input is what is posted, after the
   * download when there is one; when the input does not resolve, including
   * a rejected download, no processing call is made and the item fails with
   * that message; a rejected processing call fails the item with the
   * client's message, and an answered one yields the shaped reply.
   */
  lemma PostsBuiltForm(p: Params, cred: Credentials, decode: string -> seq<byte>, ex: Exchange)
    ensures var r := ResolveInput(p, ex.download, decode);
      r.Err? ==> ItemStep(p, cred, decode, ex) == Step(Failed(r.message), DownloadCalls(p))
    ensures var r := ResolveInput(p, ex.download, decode);
      r.Ok? ==>
        var post := Post(cred.apiUrl + ProcessPath, AuthHeader(cred), Multipart(Form(p, r.value)), ReplyAccept(p.operation));
        ItemStep(p, cred, decode, ex).calls == DownloadCalls(p) + [post]
    ensures var r := ResolveInput(p, ex.download, decode);
      r.Ok? && ex.process.Rejected? ==> ItemStep(p, cred, decode, ex).outcome == Failed(ex.process.message)
    ensures var r := ResolveInput(p, ex.download, decode);
      r.Ok? && ex.process.Answered? ==>
        ItemStep(p, cred, decode, ex).outcome
          == Emitted([ShapeReply(p, r.value.fileName, ex.process.raw, ex.process.json)])
    ensures p.inputSource == "fileUrl" && ex.download.Rejected? ==>
      ItemStep(p, cred, decode, ex) == Step(Failed(ex.download.message), [Get(p.fileUrl, RawBytes)])
  {
  }

  /** A successful item is exactly one output item. */
  lemma EmitsOneItem(p: Params, cred: Credentials, decode: string -> seq<byte>, ex: Exchange)
    ensures var s := ItemStep(p, cred, decode, ex);
      s.outcome.Emitted? ==> |s.outcome.items| == 1
  {
  }

  /** `report.docx` converted to `pdf` is attached as `report.pdf` with the PDF type; `document` keeps its name. */
  lemma ConvertExamples()
    ensures Text.ReplaceExtension("report.docx", "pdf") == "report.pdf"
    ensures MimeType("pdf") == "application/pdf"
    ensures Text.ReplaceExtension("document", "pdf") == "document"
    ensures MimeType("odt") == "application/octet-stream"
  {
    assert Text.ExtensionAt("report.docx", 6);
    assert forall p :: !Text.ExtensionAt("document", p) by {
      forall p | 0 <= p < |"document"| ensures "document"[p] != '.' {}
    }
  }

  /** How each item of a run is processed, given the credentials and the base64 decoder. */
  function StepOf(cred: Credentials, decode: string -> seq<byte>): (Params, Exchange) -> Step
  {
    (p, ex) => ItemStep(p, cred, decode, ex)
  }

  /**
   * With continue-on-fail a run returns exactly one item per input item, in
   * order: the processed item, or an error item carrying the failure message.
   */
  lemma ContinueOnFailOneItemEach(params: seq<Params>, exchanges: seq<Exchange>, cred: Credentials, decode: string -> seq<byte>)
    requires |exchanges| == |params|
    ensures var t := Collect(Steps(params, exchanges, StepOf(cred, decode)), true, Stage);
      && t.run.Completed?
      && |t.run.items| == |params|
      && forall k :: 0 <= k < |params| ==>
           var s := ItemStep(params[k], cred, decode, exchanges[k]);
           t.run.items[k] == if s.outcome.Failed? then ErrorItem(s.outcome.message) else s.outcome.items[0]
  {
    var steps := Steps(params, exchanges, StepOf(cred, decode));
    ContinueOnFailCompletes(steps, Stage);
    forall k | 0 <= k < |steps| && steps[k].outcome.Emitted?
      ensures |steps[k].outcome.items| == 1
    {
      EmitsOneItem(params[k], cred, decode, exchanges[k]);
    }
    OneItemPerStep(steps);
  }

  /** The input-source switch: reads the attachment, downloads the URL or decodes the text. */
  method ReadInput(p: Params, decode: string -> seq<byte>, download: Response) returns (r: Result<InputFile>, calls: seq<Call>)
    ensures r == ResolveInput(p, download, decode) && calls == DownloadCalls(p)
  {
    calls := [];
    var fileBuffer: seq<byte>;
    var filename := "document";
    if p.inputSource == "binaryData" {
      if p.binaryPropertyName !in p.binary {
        return Err("No binary data found for property \"" + p.binaryPropertyName + "\""), calls;
      }
      var attachment := p.binary[p.binaryPropertyName];
      fileBuffer := attachment.data;
      filename := OrString(attachment.fileName, "document");
    } else if p.inputSource == "fileUrl" {
      calls := calls + [Get(p.fileUrl, RawBytes)];
      match download {
        case Rejected(message) =>
          return Err(message), calls;
        case Answered(raw, _) =>
          fileBuffer := raw;
      }
      var segment := Text.LastSegment(p.fileUrl);
      filename := if segment != "" then segment else "document";
    } else if p.inputSource == "base64" {
      fileBuffer := decode(p.base64Data);
      filename := "document";
    } else {
      return Err("Unknown input source: " + p.inputSource), calls;
    }
    r := Ok(InputFile(fileBuffer, filename));
  }

  /** The form, appended field by field as the node does. */
  method AppendFields(p: Params, file: InputFile) returns (formData: seq<FormField>)
    ensures formData == Form(p, file)
  {
    formData := [TextField("operation", p.operation)];
    formData := formData + [FileField("file", file.content, file.fileName)];
    ghost var head := formData;
    assert head == [TextField("operation", p.operation), FileField("file", file.content, file.fileName)];
    if p.operation == "convertFormat" {
      formData := formData + [TextField("targetFormat", p.targetFormat)];
    } else if p.operation == "splitPages" {
      formData := formData + [TextField("pageRange", PageRange(p))];
    } else if p.operation == "ocrProcessing" {
      formData := formData + [TextField("language", p.ocrLanguage)];
    }
    assert formData == head + OperationFields(p);
    formData := AppendAdvancedOptions(formData, p.advanced);
  }

  /** The advanced-option block: each option appended only under its condition. */
  method AppendAdvancedOptions(form: seq<FormField>, a: AdvancedOptions) returns (formData: seq<FormField>)
    ensures formData == form + AdvancedFields(a)
  {
    formData := form;
    ghost var added := [];
    if a.extractImages == Some(true) {
      formData := formData + [TextField("extractImages", "true")];
      added := added + [TextField("extractImages", "true")];
    }
    assert formData == form + added;
    if a.extractTables == Some(true) {
      formData := formData + [TextField("extractTables", "true")];
      added := added + [TextField("extractTables", "true")];
    }
    assert formData == form + added;
    if a.preserveFormatting.Some? {
      formData := formData + [TextField("preserveFormatting", BoolText(a.preserveFormatting.value))];
      added := added + [TextField("preserveFormatting", BoolText(a.preserveFormatting.value))];
    }
    assert formData == form + added;
    if a.password.Some? && a.password.value != "" {
      formData := formData + [TextField("password", a.password.value)];
      added := added + [TextField("password", a.password.value)];
    }
    assert formData == form + added;
    assert added == AdvancedFields(a);
  }

  /** The body of the `try` block for one item. */
  method ProcessItem(p: Params, cred: Credentials, decode: string -> seq<byte>, ex: Exchange) returns (step: Step)
    ensures step == ItemStep(p, cred, decode, ex)
  {
    var input, calls := ReadInput(p, decode, ex.download);
    if input.Err? {
      return Step(Failed(input.message), calls);
    }
    var file := input.value;
    var formData := AppendFields(p, file);
    var accept := if p.operation == "convertFormat" || p.operation == "splitPages" then RawBytes else ParsedJson;
    calls := calls + [Post(cred.apiUrl + ProcessPath, AuthHeader(cred), Multipart(formData), accept)];
    match ex.process {
      case Rejected(message) =>
        step := Step(Failed(message), calls);
      case Answered(raw, json) =>
        var item;
        if p.operation == "convertFormat" {
          item := ConvertedItem(p, file.fileName, raw);
        } else if p.operation == "splitPages" {
          item := SplitItem(p, file.fileName, raw);
        } else {
          item := JsonItem(p, file.fileName, json);
        }
        step := Step(Emitted([item]), calls);
    }
  }

  /**
   * The node's `execute`: items in order, output appended to `returnData`;
   * a failure becomes an error item under continue-on-fail and otherwise
   * ends the run with the stage-prefixed message.
   */
  method Execute(cred: Credentials, params: seq<Params>, exchanges: seq<Exchange>, decode: string -> seq<byte>,
                 continueOnFail: bool) returns (trace: Trace)
    requires |exchanges| == |params|
    ensures trace == Collect(Steps(params, exchanges, StepOf(cred, decode)), continueOnFail, Stage)
  {
    ghost var steps := Steps(params, exchanges, StepOf(cred, decode));
    var returnData: seq<Item> := [];
    var calls: seq<Call> := [];
    var i := 0;
    while i < |params|
      invariant 0 <= i <= |params|
      invariant Collect(steps[..i], continueOnFail, Stage) == Trace(Completed(returnData), calls)
    {
      var step := ProcessItem(params[i], cred, decode, exchanges[i]);
      assert step == steps[i];
      CollectNext(steps, i, continueOnFail, Stage);
      calls := calls + step.calls;
      match step.outcome {
        case Emitted(out) =>
          returnData := returnData + out;
        case Failed(message) =>
          if continueOnFail {
            returnData := returnData + [ErrorItem(message)];
          } else {
            trace := Trace(Aborted(Stage + message), calls);
            AbortIsFinal(steps, i + 1, continueOnFail, Stage);
            return;
          }
      }
      i := i + 1;
    }
    assert steps[..i] == steps;
    trace := Trace(Completed(returnData), calls);
  }
}

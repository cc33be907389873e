/**
 * The web scraper node: per item it builds a JSON request body from the
 * selectors and the options (with their defaults), adds the page URL or the
 * list of URLs, posts it to the endpoint of the operation and turns the
 * JSON reply into one item, or into one item per page for a multi-page
 * scrape.
 */
module ScraperNode {
  import opened Host
  import Text

  /** The `options` collection; a field the user did not set is `None`. */
  datatype ScrapeOptions = ScrapeOptions(
    waitForSelector: Option<string>,
    waitTime: Option<int>,
    userAgent: Option<string>,
    enableJavaScript: Option<bool>,
    screenshot: Option<bool>,
    followRedirects: Option<bool>)

  /**
   * The parameters the host resolves for one item; `selectors` is the
   * `selector` list of the selectors collection, `None` when it has none.
   */
  datatype Params = Params(
    operation: string,
    url: string,
    urls: string,
    selectors: Option<seq<Value>>,
    options: ScrapeOptions)

  /** Where one request goes and what it carries. */
  datatype Request = Request(endpoint: string, body: map<string, Value>)

  const Stage := "Web scraping failed: "

  const Operations: set<string> := {"scrapePage", "scrapeMultiple", "monitorPage"}

  const NoOptions := ScrapeOptions(None, None, None, None, None, None)

  /** The error JavaScript raises when the node reads `data` off a `null` reply. */
  const NullDataError := "Cannot read properties of null (reading 'data')"

  /** The endpoint path of each operation; no other operation has one. */
  function Endpoint(operation: string): (e: Option<string>)
    ensures e.Some? <==> operation in Operations
  {
    match operation
    case "scrapePage" => Some("/api/v1/scraper/scrape")
    case "scrapeMultiple" => Some("/api/v1/scraper/scrape/multiple")
    case "monitorPage" => Some("/api/v1/scraper/monitor")
    case _ => None
  }

  /**
   * The `options` object of the body. `waitTime` falls back to 5 whenever it
   * is falsy, so a 0 becomes 5; the two flags that default to true are off
   * only when given exactly `false`.
   */
  function OptionsBody(o: ScrapeOptions): (m: map<string, Value>)
    ensures m.Keys == {"waitForSelector", "waitTime", "userAgent", "enableJavaScript", "screenshot", "followRedirects"}
    ensures m["waitForSelector"] == Str(if o.waitForSelector.Some? then o.waitForSelector.value else "")
    ensures m["userAgent"] == Str(if o.userAgent.Some? then o.userAgent.value else "")
    ensures m["waitTime"].Num? && m["waitTime"].n != 0
    ensures m["waitTime"] == Num(5) <==> o.waitTime.None? || o.waitTime.value in {0, 5}
    ensures o.waitTime.Some? && o.waitTime.value != 0 ==> m["waitTime"] == Num(o.waitTime.value)
    ensures m["enableJavaScript"] == Bool(false) <==> o.enableJavaScript == Some(false)
    ensures m["followRedirects"] == Bool(false) <==> o.followRedirects == Some(false)
    ensures m["screenshot"] == Bool(true) <==> o.screenshot == Some(true)
    ensures m["enableJavaScript"].Bool? && m["followRedirects"].Bool? && m["screenshot"].Bool?
  {
    map[
      "waitForSelector" := Str(OrString(o.waitForSelector, "")),
      "waitTime" := Num(if o.waitTime.Some? && o.waitTime.value != 0 then o.waitTime.value else 5),
      "userAgent" := Str(OrString(o.userAgent, "")),
      "enableJavaScript" := Bool(o.enableJavaScript != Some(false)),
      "screenshot" := Bool(o.screenshot == Some(true)),
      "followRedirects" := Bool(o.followRedirects != Some(false))]
  }

  /** With no options at all the body carries the documented defaults. */
  lemma OmittedOptionsGiveDefaults()
    ensures OptionsBody(NoOptions) == map[
      "waitForSelector" := Str(""),
      "waitTime" := Num(5),
      "userAgent" := Str(""),
      "enableJavaScript" := Bool(true),
      "screenshot" := Bool(false),
      "followRedirects" := Bool(true)]
  {
  }

  /** `selectors.selector || []`: the list when the collection has one, else the empty list. */
  function SelectorList(p: Params): seq<Value>
  {
    match p.selectors
    case Some(list) => list
    case None => []
  }

  /**
   * `urls.split('\n').filter(url => url.trim())`: the lines of the text that
   * are not blank, untrimmed, in order, never more than there are lines.
   */
  function UrlList(text: string): (urls: seq<string>)
    ensures |urls| <= |Text.SplitLines(text)|
    ensures forall i :: 0 <= i < |urls| ==> Text.Trim(urls[i]) != "" && '\n' !in urls[i]
  {
    var lines := Text.SplitLines(text);
    var kept := Text.NonBlank(lines);
    forall i | 0 <= i < |kept|
      ensures '\n' !in kept[i]
    {
      NonBlankFromLines(lines, kept[i]);
    }
    kept
  }

  lemma {:induction false} NonBlankFromLines(lines: seq<string>, x: string)
    requires x in Text.NonBlank(lines)
    ensures x in lines
    decreases |lines|
  {
    var init := lines[..|lines| - 1];
    if x in Text.NonBlank(init) {
      NonBlankFromLines(init, x);
      assert init[..] <= lines;
    }
  }

  /** The `urls` field of a multi-page request: the URL list as a JSON array of strings. */
  function UrlArray(text: string): (v: Value)
    ensures v.Arr? && |v.elems| == |UrlList(text)|
    ensures forall i :: 0 <= i < |v.elems| ==> v.elems[i] == Str(UrlList(text)[i])
  {
    var urls := UrlList(text);
    Arr(seq(|urls|, i requires 0 <= i < |urls| => Str(urls[i])))
  }

  /** Every non-blank line of the text is in the list. */
  lemma UrlListKeepsEveryUrl(text: string, i: nat)
    requires i < |Text.SplitLines(text)| && !Text.Blank(Text.SplitLines(text)[i])
    ensures Text.SplitLines(text)[i] in UrlList(text)
  {
    Text.NonBlankKeeps(Text.SplitLines(text), i);
  }

  /** A blank line between two URLs and a final newline are dropped. */
  lemma UrlListDropsBlankLines(a: string, b: string)
    requires !Text.Blank(a) && !Text.Blank(b)
    requires '\n' !in a && '\n' !in b
    ensures UrlList(a + "\n\n" + b + "\n") == [a, b]
  {
    SplitFourLines(a, b);
    FilterFourLines(a, b);
  }

  lemma FilterFourLines(a: string, b: string)
    requires !Text.Blank(a) && !Text.Blank(b)
    ensures Text.NonBlank([a, "", b, ""]) == [a, b]
  {
    assert Text.NonBlank([a]) == [a] by {
      assert [] + [a] == [a];
      Text.NonBlankSnoc([], a);
    }
    assert Text.NonBlank([a, ""]) == [a] by {
      assert [a] + [""] == [a, ""];
      Text.NonBlankSnoc([a], "");
    }
    assert Text.NonBlank([a, "", b]) == [a, b] by {
      assert [a, ""] + [b] == [a, "", b];
      Text.NonBlankSnoc([a, ""], b);
    }
    assert [a, "", b] + [""] == [a, "", b, ""];
    Text.NonBlankSnoc([a, "", b], "");
  }

  lemma SplitFourLines(a: string, b: string)
    requires '\n' !in a && '\n' !in b
    ensures Text.SplitLines(a + "\n\n" + b + "\n") == [a, "", b, ""]
  {
    var lines := [a, "", b, ""];
    Text.JoinThenSplit(lines);
    assert lines[..3] == [a, "", b];
    assert lines[..3][..2] == [a, ""];
    assert lines[..3][..2][..1] == [a];
    assert Text.JoinLines([a]) == a;
    assert Text.JoinLines([a, ""]) == a + "\n" + "";
    assert Text.JoinLines([a, "", b]) == a + "\n" + "" + "\n" + b;
    assert Text.JoinLines(lines) == a + "\n" + "\n" + b + "\n";
    assert a + "\n" + "\n" + b + "\n" == a + "\n\n" + b + "\n";
  }

  /**
   * The request of one item, or the error raised before any call for an
   * unknown operation: the common `selectors` and `options`, plus `url` or,
   * for a multi-page scrape, `urls`.
   */
  function BuildRequest(p: Params): (r: Result<Request>)
    ensures r.Err? <==> p.operation !in Operations
    ensures r.Err? ==> r.message == "Unknown operation: " + p.operation
    ensures r.Ok? ==> Endpoint(p.operation) == Some(r.value.endpoint)
    ensures r.Ok? ==> (
      && {"selectors", "options"} <= r.value.body.Keys
      && r.value.body["selectors"] == Arr(SelectorList(p))
      && r.value.body["options"] == Obj(OptionsBody(p.options)))
    ensures r.Ok? && p.operation == "scrapeMultiple" ==>
      && r.value.body.Keys == {"selectors", "options", "urls"}
      && r.value.body["urls"] == UrlArray(p.urls)
    ensures r.Ok? && p.operation != "scrapeMultiple" ==>
      r.value.body.Keys == {"selectors", "options", "url"} && r.value.body["url"] == Str(p.url)
  {
    var base := map["selectors" := Arr(SelectorList(p)), "options" := Obj(OptionsBody(p.options))];
    match p.operation
    case "scrapePage" => Ok(Request("/api/v1/scraper/scrape", base["url" := Str(p.url)]))
    case "scrapeMultiple" =>
      Ok(Request("/api/v1/scraper/scrape/multiple", base["urls" := UrlArray(p.urls)]))
    case "monitorPage" => Ok(Request("/api/v1/scraper/monitor", base["url" := Str(p.url)]))
    case _ => Err("Unknown operation: " + p.operation)
  }

  /** The item for one page or one whole reply: its fields overlaid with the outcome. */
  function PageItem(page: Value, operation: string): Item
  {
    Item(Tagged(Spread(page), operation), map[])
  }

  /** The pages of a multi-page reply, when its `data` field is an array. */
  predicate HasPageArray(json: Value)
  {
    json.Obj? && "data" in json.fields && json.fields["data"].Arr?
  }

  /**
   * The items of a reply: one per page, in order, for a multi-page scrape
   * whose `data` is an array; otherwise one item for the whole reply. A
   * `null` reply to a multi-page scrape fails when its `data` is read.
   */
  function ShapeReply(operation: string, json: Value): (r: Result<seq<Item>>)
    ensures r.Err? <==> operation == "scrapeMultiple" && json.Null?
    ensures r.Err? ==> r.message == NullDataError
    ensures r.Ok? && operation == "scrapeMultiple" && HasPageArray(json) ==>
      var pages := json.fields["data"].elems;
      |r.value| == |pages| && forall j :: 0 <= j < |pages| ==> r.value[j] == PageItem(pages[j], operation)
    ensures r.Ok? && !(operation == "scrapeMultiple" && HasPageArray(json)) ==>
      r.value == [PageItem(json, operation)]
  {
    if operation == "scrapeMultiple" && json.Null? then Err(NullDataError)
    else if operation == "scrapeMultiple" && HasPageArray(json) then
      var pages := json.fields["data"].elems;
      Ok(seq(|pages|, j requires 0 <= j < |pages| => PageItem(pages[j], operation)))
    else Ok([PageItem(json, operation)])
  }

  /** A page item keeps every field of its page except the two the overlay sets. */
  lemma PageItemFields(page: Value, operation: string)
    requires page.Obj?
    ensures var it := PageItem(page, operation);
      && it.binary == map[]
      && it.json.Keys == page.fields.Keys + {"success", "operation"}
      && it.json["success"] == Bool(true) && it.json["operation"] == Str(operation)
      && forall k :: k in page.fields && k != "success" && k != "operation" ==> it.json[k] == page.fields[k]
  {
  }

  /** A multi-page reply with an empty `data` array yields no item at all. */
  lemma EmptyPageArrayYieldsNothing(json: Value)
    requires json.Obj? && "data" in json.fields && json.fields["data"] == Arr([])
    ensures ShapeReply("scrapeMultiple", json) == Ok([])
  {
  }

  /** Processing one item: build the request, make the call, shape the reply. */
  function ItemStep(p: Params, cred: Credentials, reply: Response): (s: Step)
    ensures |s.calls| <= 1
    ensures s.calls == [] <==> p.operation !in Operations
  {
    match BuildRequest(p)
    case Err(message) => Step(Failed(message), [])
    case Ok(req) =>
      var call := Post(cred.apiUrl + req.endpoint, JsonHeaders(cred), JsonBody(Obj(req.body)), ParsedJson);
      match reply
      case Rejected(message) => Step(Failed(message), [call])
      case Answered(_, json) =>
        match ShapeReply(p.operation, json)
        case Err(message) => Step(Failed(message), [call])
        case Ok(items) => Step(Emitted(items), [call])
  }

  /**
   * An unknown operation fails before any call; every other item makes
   * exactly one call, posting the request it built as JSON to the API base
   * URL plus its endpoint, with the bearer token and the JSON content type,
   * and reads the reply as JSON; a rejected call fails the item with the
   * client's message, and an answered one yields the reply's shaped items,
   * or fails with the null-data error.
   */
  lemma ItemCalls(p: Params, cred: Credentials, reply: Response)
    ensures var s := ItemStep(p, cred, reply);
      && (p.operation !in Operations ==> s == Step(Failed("Unknown operation: " + p.operation), []))
      && (p.operation in Operations ==>
            && |s.calls| == 1
            && s.calls[0].Post?
            && s.calls[0].url == cred.apiUrl + Endpoint(p.operation).value
            && s.calls[0].headers == JsonHeaders(cred)
            && s.calls == [Post(cred.apiUrl + BuildRequest(p).value.endpoint, JsonHeaders(cred),
                                JsonBody(Obj(BuildRequest(p).value.body)), ParsedJson)]
            && (reply.Rejected? ==> s.outcome == Failed(reply.message))
            && (reply.Answered? && ShapeReply(p.operation, reply.json).Ok? ==>
                  s.outcome == Emitted(ShapeReply(p.operation, reply.json).value))
            && (reply.Answered? && ShapeReply(p.operation, reply.json).Err? ==> s.outcome == Failed(NullDataError)))
  {
  }

  /** How each item of a run is processed, given the credentials. */
  function StepOf(cred: Credentials): (Params, Response) -> Step
  {
    (p, reply) => ItemStep(p, cred, reply)
  }

  /**
   * With continue-on-fail the run returns, item by item and in order, each
   * item's pages or its single reply item, or one error item for a failure.
   */
  lemma ContinueOnFailOutput(params: seq<Params>, replies: seq<Response>, cred: Credentials)
    requires |replies| == |params|
    ensures Collect(Steps(params, replies, StepOf(cred)), true, Stage).run == Completed(Flatten(Steps(params, replies, StepOf(cred))))
  {
    ContinueOnFailCompletes(Steps(params, replies, StepOf(cred)), Stage);
  }

  /** The `forEach` over the pages: one pushed item per page, in order. */
  method PushPages(pages: seq<Value>, operation: string) returns (out: seq<Item>)
    ensures |out| == |pages|
    ensures forall j :: 0 <= j < |pages| ==> out[j] == PageItem(pages[j], operation)
  {
    out := [];
    var j := 0;
    while j < |pages|
      invariant 0 <= j <= |pages|
      invariant |out| == j
      invariant forall m :: 0 <= m < j ==> out[m] == PageItem(pages[m], operation)
    {
      out := out + [PageItem(pages[j], operation)];
      j := j + 1;
    }
  }

  /** The body of the `try` block for one item, updating the request as the node does. */
  method ProcessItem(p: Params, cred: Credentials, reply: Response) returns (step: Step)
    ensures step == ItemStep(p, cred, reply)
  {
    var requestData := map["selectors" := Arr(SelectorList(p)), "options" := Obj(OptionsBody(p.options))];
    var endpoint := "";
    if p.operation == "scrapePage" {
      requestData := requestData["url" := Str(p.url)];
      endpoint := "/api/v1/scraper/scrape";
    } else if p.operation == "scrapeMultiple" {
      requestData := requestData["urls" := UrlArray(p.urls)];
      endpoint := "/api/v1/scraper/scrape/multiple";
    } else if p.operation == "monitorPage" {
      requestData := requestData["url" := Str(p.url)];
      endpoint := "/api/v1/scraper/monitor";
    } else {
      return Step(Failed("Unknown operation: " + p.operation), []);
    }
    assert BuildRequest(p) == Ok(Request(endpoint, requestData));
    var call := Post(cred.apiUrl + endpoint, JsonHeaders(cred), JsonBody(Obj(requestData)), ParsedJson);
    match reply {
      case Rejected(message) =>
        step := Step(Failed(message), [call]);
      case Answered(_, result) =>
        if p.operation == "scrapeMultiple" && result.Null? {
          return Step(Failed(NullDataError), [call]);
        }
        if p.operation == "scrapeMultiple" && HasPageArray(result) {
          var pages := result.fields["data"].elems;
          var out := PushPages(pages, p.operation);
          assert ShapeReply(p.operation, result).value == out;
          step := Step(Emitted(out), [call]);
        } else {
          assert ShapeReply(p.operation, result) == Ok([PageItem(result, p.operation)]);
          step := Step(Emitted([PageItem(result, p.operation)]), [call]);
        }
    }
  }

  /**
   * The node's `execute`: items in order, output appended to `returnData`;
   * a failure becomes an error item under continue-on-fail and otherwise
   * ends the run with the stage-prefixed message.
   */
  method Execute(cred: Credentials, params: seq<Params>, replies: seq<Response>, continueOnFail: bool)
    returns (trace: Trace)
    requires |replies| == |params|
    ensures trace == Collect(Steps(params, replies, StepOf(cred)), continueOnFail, Stage)
  {
    ghost var steps := Steps(params, replies, StepOf(cred));
    var returnData: seq<Item> := [];
    var calls: seq<Call> := [];
    var i := 0;
    while i < |params|
      invariant 0 <= i <= |params|
      invariant Collect(steps[..i], continueOnFail, Stage) == Trace(Completed(returnData), calls)
    {
      var step := ProcessItem(params[i], cred, replies[i]);
      assert step == steps[i];
      CollectNext(steps, i, continueOnFail, Stage);
      calls := calls + step.calls;
      match step.outcome {
        case Emitted(out) =>
          returnData := returnData + out;
        case Failed(message) =>
          if continueOnFail {
            returnData := returnData + [ErrorItem(message)];
          } else {
            trace := Trace(Aborted(Stage + message), calls);
            AbortIsFinal(steps, i + 1, continueOnFail, Stage);
            return;
          }
      }
      i := i + 1;
    }
    assert steps[..i] == steps;
    trace := Trace(Completed(returnData), calls);
  }
}

/**
 * What the workflow host hands to a node and what it gets back: JSON values,
 * items with their binary attachments, the HTTP calls a node makes, the
 * remote API's answer to one call, and the per-item loop with its
 * continue-on-fail policy that all three nodes share.
 */
module Host {

  type byte = x: int | 0 <= x < 256

  datatype Option<+T> = None | Some(value: T)

  datatype Result<+T> = Ok(value: T) | Err(message: string)

  /** A JSON value. Numbers are integers in this model. */
  datatype Value =
    | Null
    | Bool(b: bool)
    | Num(n: int)
    | Str(s: string)
    | Arr(elems: seq<Value>)
    | Obj(fields: map<string, Value>)

  /** A binary attachment as prepared by the host: bytes, file name and MIME type. */
  datatype Binary = Binary(data: seq<byte>, fileName: Option<string>, mimeType: string)

  /** One workflow item: its JSON fields and its named binary attachments. */
  datatype Item = Item(json: map<string, Value>, binary: map<string, Binary>)

  /** The API credentials, resolved once per run. */
  datatype Credentials = Credentials(apiUrl: string, apiKey: string)

  /** How the HTTP client is asked to read a reply body. */
  datatype Accept = RawBytes | ParsedJson

  datatype FormField =
    | TextField(name: string, text: string)
    | FileField(name: string, content: seq<byte>, fileName: string)

  datatype Body = JsonBody(json: Value) | Multipart(fields: seq<FormField>)

  /** One outbound HTTP call made by a node. */
  datatype Call =
    | Get(url: string, accept: Accept)
    | Post(url: string, headers: map<string, string>, body: Body, accept: Accept)

  /**
   * The remote side's answer to one call: either the body, readable both as
   * bytes and as parsed JSON (the node reads the view its `Accept` asks
   * for), or a rejection carrying the client's error message.
   */
  datatype Response = Answered(raw: seq<byte>, json: Value) | Rejected(message: string)

  /** The outcome of a JSON parser on a piece of text. */
  datatype Parsed = ParsedOk(value: Value) | ParseError(message: string)

  /** What processing one input item produced: output items or a failure message. */
  datatype Outcome = Emitted(items: seq<Item>) | Failed(message: string)

  /** One input item's outcome together with the HTTP calls made while processing it. */
  datatype Step = Step(outcome: Outcome, calls: seq<Call>)

  /** A whole run: the returned items, or the message of the error that aborted it. */
  datatype Run = Completed(items: seq<Item>) | Aborted(message: string)

  /** A run together with every HTTP call made during it, in order. */
  datatype Trace = Trace(run: Run, calls: seq<Call>)

  function BearerToken(c: Credentials): string
  {
    "Bearer " + c.apiKey
  }

  /** The headers of a JSON request: the bearer token and the JSON content type. */
  function JsonHeaders(c: Credentials): map<string, string>
  {
    map["Authorization" := BearerToken(c), "Content-Type" := "application/json"]
  }

  /** `value || fallback` on an optional string: the empty string is falsy and falls back too. */
  function OrString(value: Option<string>, fallback: string): (r: string)
    ensures value.Some? && value.value != "" ==> r == value.value
    ensures value.None? || value.value == "" ==> r == fallback
  {
    if value.Some? && value.value != "" then value.value else fallback
  }

  /** The item pushed for a failure under continue-on-fail. */
  function ErrorItem(message: string): (it: Item)
    ensures it.json.Keys == {"error", "success"} && it.binary == map[]
    ensures it.json["error"] == Str(message) && it.json["success"] == Bool(false)
  {
    Item(map["error" := Str(message), "success" := Bool(false)], map[])
  }

  function Digit(d: nat): char
    requires d < 10
  {
    "0123456789"[d]
  }

  /** The decimal spelling of a natural number, as JavaScript writes an array index. */
  function DecimalString(n: nat): (s: string)
    ensures |s| >= 1
    decreases n
  {
    if n < 10 then [Digit(n)] else DecimalString(n / 10) + [Digit(n % 10)]
  }

  /** The own enumerable properties of an array or string: index keys. */
  function Indexed(vs: seq<Value>): (m: map<string, Value>)
    decreases |vs|
  {
    if vs == [] then map[]
    else Indexed(vs[..|vs| - 1])[DecimalString(|vs| - 1) := vs[|vs| - 1]]
  }

  /** The properties that an object spread `{...v}` copies out of a JSON value. */
  function Spread(v: Value): (m: map<string, Value>)
    ensures v.Obj? ==> m == v.fields
    ensures v.Null? || v.Bool? || v.Num? ==> m == map[]
  {
    match v
    case Obj(fields) => fields
    case Arr(elems) => Indexed(elems)
    case Str(s) => Indexed(seq(|s|, i requires 0 <= i < |s| => Str([s[i]])))
    case _ => map[]
  }

  /**
   * `{...base, success: true, operation}`: the two overlay keys win, every
   * other key of `base` is kept unchanged.
   */
  function Tagged(base: map<string, Value>, operation: string): (m: map<string, Value>)
    ensures m.Keys == base.Keys + {"success", "operation"}
    ensures m["success"] == Bool(true) && m["operation"] == Str(operation)
    ensures forall k :: k in base && k != "success" && k != "operation" ==> m[k] == base[k]
  {
    base["success" := Bool(true)]["operation" := Str(operation)]
  }

  // ---------------------------------------------------------------------
  // The per-item loop shared by the three nodes
  // ---------------------------------------------------------------------

  /** The steps of a run: one per input item, each from that item and its own reply. */
  function Steps<P, R>(params: seq<P>, replies: seq<R>, item: (P, R) -> Step): (steps: seq<Step>)
    requires |replies| == |params|
    ensures |steps| == |params|
    ensures forall k :: 0 <= k < |params| ==> steps[k] == item(params[k], replies[k])
  {
    seq(|params|, k requires 0 <= k < |params| => item(params[k], replies[k]))
  }

  /** The items one step contributes when the run goes on past it. */
  function Emission(s: Step): seq<Item>
  {
    match s.outcome
    case Emitted(items) => items
    case Failed(message) => [ErrorItem(message)]
  }

  /** Every step's emission, in order. */
  function Flatten(steps: seq<Step>): seq<Item>
    decreases |steps|
  {
    if steps == [] then []
    else Flatten(steps[..|steps| - 1]) + Emission(steps[|steps| - 1])
  }

  /** Every step's calls, in order. */
  function AllCalls(steps: seq<Step>): seq<Call>
    decreases |steps|
  {
    if steps == [] then []
    else AllCalls(steps[..|steps| - 1]) + steps[|steps| - 1].calls
  }

  /**
   * The loop over the input items: a step's items are appended to the
   * output; a failure becomes an error item under continue-on-fail and
   * otherwise aborts the run with the stage prefix, skipping every later
   * item.
   */
  function Collect(steps: seq<Step>, continueOnFail: bool, stage: string): (t: Trace)
    ensures t.run.Aborted? ==> !continueOnFail
    decreases |steps|
  {
    if steps == [] then Trace(Completed([]), [])
    else
      var prev := Collect(steps[..|steps| - 1], continueOnFail, stage);
      var last := steps[|steps| - 1];
      if prev.run.Aborted? then prev
      else if last.outcome.Failed? && !continueOnFail then
        Trace(Aborted(stage + last.outcome.message), prev.calls + last.calls)
      else
        Trace(Completed(prev.run.items + Emission(last)), prev.calls + last.calls)
  }

  /** How the loop's state after `i + 1` items follows from its state after `i` items. */
  lemma CollectNext(steps: seq<Step>, i: nat, continueOnFail: bool, stage: string)
    requires i < |steps|
    ensures var prev := Collect(steps[..i], continueOnFail, stage);
      Collect(steps[..i + 1], continueOnFail, stage) ==
        if prev.run.Aborted? then prev
        else if steps[i].outcome.Failed? && !continueOnFail then
          Trace(Aborted(stage + steps[i].outcome.message), prev.calls + steps[i].calls)
        else
          Trace(Completed(prev.run.items + Emission(steps[i])), prev.calls + steps[i].calls)
  {
    assert steps[..i + 1][..i] == steps[..i];
  }

  /** Once the run has aborted, the remaining items change nothing. */
  lemma {:induction false} AbortIsFinal(steps: seq<Step>, i: nat, continueOnFail: bool, stage: string)
    requires i <= |steps|
    requires Collect(steps[..i], continueOnFail, stage).run.Aborted?
    ensures Collect(steps, continueOnFail, stage) == Collect(steps[..i], continueOnFail, stage)
    decreases |steps|
  {
    if i < |steps| {
      var init := steps[..|steps| - 1];
      assert init[..i] == steps[..i];
      AbortIsFinal(init, i, continueOnFail, stage);
    } else {
      assert steps[..i] == steps;
    }
  }

  /** With continue-on-fail the run always completes with every step's emission, in order. */
  lemma {:induction false} ContinueOnFailCompletes(steps: seq<Step>, stage: string)
    ensures Collect(steps, true, stage) == Trace(Completed(Flatten(steps)), AllCalls(steps))
    decreases |steps|
  {
    if steps != [] {
      ContinueOnFailCompletes(steps[..|steps| - 1], stage);
    }
  }

  /** When no item fails, the policy makes no difference. */
  lemma {:induction false} NoFailureCompletes(steps: seq<Step>, continueOnFail: bool, stage: string)
    requires forall k :: 0 <= k < |steps| ==> steps[k].outcome.Emitted?
    ensures Collect(steps, continueOnFail, stage) == Trace(Completed(Flatten(steps)), AllCalls(steps))
    decreases |steps|
  {
    if steps != [] {
      NoFailureCompletes(steps[..|steps| - 1], continueOnFail, stage);
    }
  }

  /**
   * Without continue-on-fail the first failing item aborts the run with the
   * stage-prefixed message; no call is made for any later item.
   */
  lemma FirstFailureAborts(steps: seq<Step>, k: nat, stage: string)
    requires k < |steps| && steps[k].outcome.Failed?
    requires forall j :: 0 <= j < k ==> steps[j].outcome.Emitted?
    ensures Collect(steps, false, stage)
      == Trace(Aborted(stage + steps[k].outcome.message), AllCalls(steps[..k + 1]))
  {
    var pre := steps[..k + 1];
    assert pre[..k] == steps[..k];
    NoFailureCompletes(steps[..k], false, stage);
    assert Collect(pre, false, stage)
      == Trace(Aborted(stage + steps[k].outcome.message), AllCalls(pre));
    AbortIsFinal(steps, k + 1, false, stage);
  }

  /** When every successful step emits exactly one item, the emission has one item per step, in order. */
  lemma {:induction false} OneItemPerStep(steps: seq<Step>)
    requires forall k :: 0 <= k < |steps| && steps[k].outcome.Emitted? ==> |steps[k].outcome.items| == 1
    ensures |Flatten(steps)| == |steps|
    ensures forall k :: 0 <= k < |steps| ==> Flatten(steps)[k] == Emission(steps[k])[0]
    decreases |steps|
  {
    if steps != [] {
      var init := steps[..|steps| - 1];
      OneItemPerStep(init);
      forall k | 0 <= k < |steps|
        ensures Flatten(steps)[k] == Emission(steps[k])[0]
      {
        if k < |init| {
          assert steps[k] == init[k];
        }
      }
    }
  }

  /** Every call of a run was made while processing one of its items. */
  lemma {:induction false} CallsComeFromSteps(steps: seq<Step>, c: Call)
    requires c in AllCalls(steps)
    ensures exists k :: 0 <= k < |steps| && c in steps[k].calls
    decreases |steps|
  {
    var init := steps[..|steps| - 1];
    if c in AllCalls(init) {
      CallsComeFromSteps(init, c);
      var k :| 0 <= k < |init| && c in init[k].calls;
      assert steps[k] == init[k];
    } else {
      assert c in steps[|steps| - 1].calls;
    }
  }

  /** The calls of a run are those of its items up to where it stopped. */
  lemma CollectCalls(steps: seq<Step>, continueOnFail: bool, stage: string, c: Call)
    requires c in Collect(steps, continueOnFail, stage).calls
    ensures exists k :: 0 <= k < |steps| && c in steps[k].calls
  {
    var n := CallsPrefix(steps, continueOnFail, stage);
    CallsComeFromSteps(steps[..n], c);
    var k :| 0 <= k < n && c in steps[..n][k].calls;
  }

  /** The calls of a run are the calls of a prefix of its items, all of them when it completes. */
  lemma {:induction false} CallsPrefix(steps: seq<Step>, continueOnFail: bool, stage: string) returns (n: nat)
    ensures n <= |steps| && Collect(steps, continueOnFail, stage).calls == AllCalls(steps[..n])
    ensures Collect(steps, continueOnFail, stage).run.Completed? ==> n == |steps|
    decreases |steps|
  {
    if steps == [] {
      n := 0;
    } else {
      var init := steps[..|steps| - 1];
      var m := CallsPrefix(init, continueOnFail, stage);
      assert init[..m] == steps[..m];
      if Collect(init, continueOnFail, stage).run.Aborted? {
        n := m;
      } else {
        n := |steps|;
        assert init[..m] == init;
        assert steps[..n] == steps;
      }
    }
  }
}

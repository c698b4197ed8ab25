/**
 * What the panic robot's middleware does once a panic has been recovered
 * (panic_robot.go): build the diagnostic text, wrap it in one envelope per
 * enabled channel, and answer the request with a fixed 500 response.
 *
 * The clock, the request, the body read, the panic value and the stack
 * trace the runtime would print are parameters.
 */
module PanicRobotMiddleware {
  import opened Wrappers
  import opened Splice
  import opened Json
  import opened PanicRobotConfig

  /** The size of the stack capture buffer `buf [4096]byte`. */
  const StackBufSize: nat := 4096

  /**
   * `string(buf[:n])` after `runtime.Stack(buf[:], false)`: the runtime writes
   * as much of the trace as the buffer holds, and `n` is how much that was.
   */
  function StackSnippet(trace: string): (s: string)
    ensures s <= trace
    ensures |s| <= StackBufSize
    ensures |trace| <= StackBufSize ==> s == trace
    ensures |trace| > StackBufSize ==> |s| == StackBufSize
  {
    var n := if |trace| <= StackBufSize then |trace| else StackBufSize;
    trace[..n]
  }

  /** The parts of the inbound request the report uses. */
  datatype Request = Request(verb: string, path: string, rawQuery: string)

  /**
   * A recovered panic value, seen two ways: `text` is its `%v` formatting and
   * `value` is what the JSON encoder makes of it.
   */
  datatype Fault = Fault(text: string, value: Json)

  /** The per-panic diagnostic record; it lives only while one panic is handled. */
  datatype FaultReport = FaultReport(
    env: string,
    host: string,
    time: string,
    verb: string,
    path: string,
    query: string,
    body: string,
    panic: string,
    stack: string)

  /**
   * Gather the report. `now` is the formatted clock reading, `bodyRaw` whatever
   * reading the request body yielded, `trace` the full stack trace.
   */
  function Report(pr: PanicRobot, now: string, req: Request, bodyRaw: string, fault: Fault, trace: string): (r: FaultReport)
    ensures r.stack <= trace && |r.stack| <= StackBufSize
    ensures |trace| <= StackBufSize ==> r.stack == trace
  {
    FaultReport(pr.env, pr.hostName, now, req.verb, req.path, req.rawQuery, bodyRaw, fault.text, StackSnippet(trace))
  }

  /** The text blob: labelled lines built with spliceStr, then joined with the stack. */
  function Content(r: FaultReport): (c: string)
    ensures "Env: " <= c
    ensures |r.stack| <= |c| && c[|c| - |r.stack|..] == r.stack
  {
    var env := Concat(["Env: ", r.env, "\n"]);
    var host := Concat(["Host: ", r.host, "\n"]);
    var datetime := Concat(["Time: ", r.time, "\n"]);
    var request := Concat(["Request: ", r.verb, " ", r.path, "\n"]);
    var params := Concat(["Params: ", r.query, "\n"]);
    var msg := Concat(["Panic: ", r.panic, "\n"]);
    var body := Concat(["Body: ", r.body, "\n"]);
    ConcatThree("Env: ", r.env, "\n");
    ConcatEight(env, host, datetime, request, params, body, msg, r.stack);
    var lines := env + host + datetime + request + params + body + msg;
    assert env <= lines;
    Concat([env, host, datetime, request, params, body, msg, r.stack])
  }

  lemma ConcatThree(a: string, b: string, c: string)
    ensures Concat([a, b, c]) == a + b + c
  {
    ConcatCons(a, [b, c]);
    ConcatCons(b, [c]);
    ConcatSingleton(c);
    assert [a, b, c] == [a] + [b, c];
    assert [b, c] == [b] + [c];
  }

  lemma ConcatFive(a: string, b: string, c: string, d: string, e: string)
    ensures Concat([a, b, c, d, e]) == a + b + c + d + e
  {
    ConcatAppend([a, b], [c, d, e]);
    ConcatThree(c, d, e);
    ConcatCons(a, [b]);
    ConcatSingleton(b);
    assert [a, b, c, d, e] == [a, b] + [c, d, e];
    assert [a, b] == [a] + [b];
  }

  lemma ConcatEight(a: string, b: string, c: string, d: string, e: string, f: string, g: string, h: string)
    ensures Concat([a, b, c, d, e, f, g, h]) == a + b + c + d + e + f + g + h
  {
    ConcatAppend([a, b, c, d, e], [f, g, h]);
    ConcatFive(a, b, c, d, e);
    ConcatThree(f, g, h);
    assert [a, b, c, d, e, f, g, h] == [a, b, c, d, e] + [f, g, h];
  }

  /**
   * The blob is, in this order: the Env, Host, Time, Request, Params, Body and
   * Panic lines, each newline-terminated, and then the stack snippet.
   */
  lemma ContentLayout(r: FaultReport)
    ensures Content(r) ==
      ("Env: " + r.env + "\n") +
      ("Host: " + r.host + "\n") +
      ("Time: " + r.time + "\n") +
      ("Request: " + r.verb + " " + r.path + "\n") +
      ("Params: " + r.query + "\n") +
      ("Body: " + r.body + "\n") +
      ("Panic: " + r.panic + "\n") +
      r.stack
  {
    ConcatThree("Env: ", r.env, "\n");
    ConcatThree("Host: ", r.host, "\n");
    ConcatThree("Time: ", r.time, "\n");
    ConcatFive("Request: ", r.verb, " ", r.path, "\n");
    ConcatThree("Params: ", r.query, "\n");
    ConcatThree("Panic: ", r.panic, "\n");
    ConcatThree("Body: ", r.body, "\n");
    ConcatEight(
      "Env: " + r.env + "\n", "Host: " + r.host + "\n", "Time: " + r.time + "\n",
      "Request: " + r.verb + " " + r.path + "\n", "Params: " + r.query + "\n",
      "Body: " + r.body + "\n", "Panic: " + r.panic + "\n", r.stack);
  }

  /**
   * The labels and newlines add 55 characters; everything else is the
   * report's own text, the stack snippet being at most 4096 of it.
   */
  lemma ContentLength(pr: PanicRobot, now: string, req: Request, bodyRaw: string, fault: Fault, trace: string)
    ensures var r := Report(pr, now, req, bodyRaw, fault, trace);
      |Content(r)| == 55 + |r.env| + |r.host| + |r.time| + |r.verb| + |r.path| + |r.query| + |r.body| + |r.panic| + |r.stack|
    ensures |Content(Report(pr, now, req, bodyRaw, fault, trace))| <=
      55 + |pr.env| + |pr.hostName| + |now| + |req.verb| + |req.path| + |req.rawQuery| + |bodyRaw| + |fault.text| + StackBufSize
  {
    ContentLayout(Report(pr, now, req, bodyRaw, fault, trace));
  }

  /** The text a Wechat-shaped envelope carries, if `j` has exactly that shape. */
  function WechatText(j: Json): Option<string>
  {
    if j.Obj? && j.fields.Keys == {"msgtype", "text"} && j.fields["msgtype"] == Str("text")
      && j.fields["text"].Obj? && j.fields["text"].fields.Keys == {"content"}
      && j.fields["text"].fields["content"].Str?
    then Some(j.fields["text"].fields["content"].s)
    else None
  }

  /** The text a Feishu-shaped envelope carries, if `j` has exactly that shape. */
  function FeishuText(j: Json): Option<string>
  {
    if j.Obj? && j.fields.Keys == {"msg_type", "content"} && j.fields["msg_type"] == Str("text")
      && j.fields["content"].Obj? && j.fields["content"].fields.Keys == {"text"}
      && j.fields["content"].fields["text"].Str?
    then Some(j.fields["content"].fields["text"].s)
    else None
  }

  /** `{msgtype: "text", text: {content: content}}`: the blob comes back out unchanged. */
  function WechatEnvelope(content: string): (j: Json)
    ensures WechatText(j) == Some(content)
    ensures FeishuText(j) == None
  {
    Obj(map["msgtype" := Str("text"), "text" := Obj(map["content" := Str(content)])])
  }

  /** `{msg_type: "text", content: {text: content}}`: the blob comes back out unchanged. */
  function FeishuEnvelope(content: string): (j: Json)
    ensures FeishuText(j) == Some(content)
    ensures WechatText(j) == None
  {
    Obj(map["msg_type" := Str("text"), "content" := Obj(map["text" := Str(content)])])
  }

  /** One POST the middleware would issue: destination and body. */
  datatype Push = Push(url: string, body: Json)

  /** wechatPush: a push to the Wechat URL, only when that channel is enabled. */
  function WechatPush(pr: PanicRobot, content: string): (p: Option<Push>)
    ensures p.Some? <==> pr.wechat.enable
    ensures p.Some? ==> p.value.url == pr.wechat.pushUrl && WechatText(p.value.body) == Some(content)
  {
    if pr.wechat.enable then Some(Push(pr.wechat.pushUrl, WechatEnvelope(content))) else None
  }

  /** feishuPush: a push to the Feishu URL, only when that channel is enabled. */
  function FeishuPush(pr: PanicRobot, content: string): (p: Option<Push>)
    ensures p.Some? <==> pr.feishu.enable
    ensures p.Some? ==> p.value.url == pr.feishu.pushUrl && FeishuText(p.value.body) == Some(content)
  {
    if pr.feishu.enable then Some(Push(pr.feishu.pushUrl, FeishuEnvelope(content))) else None
  }

  const StatusInternalServerError := 500

  /** The trace a fault response carries, if `j` has exactly that response's shape. */
  function TraceOf(j: Json): Option<Json>
  {
    if j.Obj? && j.fields.Keys == {"code", "msg", "data", "trace"}
      && j.fields["code"] == Int(500) && j.fields["msg"] == Str("Server Error") && j.fields["data"] == Null
    then Some(j.fields["trace"])
    else None
  }

  /** `{code: 500, msg: "Server Error", data: nil, trace: err}`. */
  function FaultResponse(trace: Json): (j: Json)
    ensures TraceOf(j) == Some(trace)
  {
    Obj(map["code" := Int(500), "msg" := Str("Server Error"), "data" := Null, "trace" := trace])
  }

  /** What handling one recovered panic produces. */
  datatype Outcome = Outcome(pushes: multiset<Push>, status: int, response: Json)

  function Issued(p: Option<Push>): multiset<Push>
  {
    if p.Some? then multiset{p.value} else multiset{}
  }

  /**
   * The recover branch of Middleware: assemble the blob, start both channel
   * pushes (each a no-op unless its channel is enabled), and write the 500
   * response. The pushes run concurrently and unordered, hence a multiset.
   */
  function Recover(pr: PanicRobot, now: string, req: Request, bodyRaw: string, fault: Fault, trace: string): (o: Outcome)
    ensures o.status == 500 && TraceOf(o.response) == Some(fault.value)
    ensures |o.pushes| == (if pr.wechat.enable then 1 else 0) + (if pr.feishu.enable then 1 else 0)
  {
    var content := Content(Report(pr, now, req, bodyRaw, fault, trace));
    Outcome(
      Issued(WechatPush(pr, content)) + Issued(FeishuPush(pr, content)),
      StatusInternalServerError,
      FaultResponse(fault.value))
  }

  /**
   * Handling a panic always answers 500 with the panic value as trace, issues
   * one push per enabled channel and none for a disabled one, and every push
   * carries the same unchanged blob; for a validly built robot every push has
   * a non-empty destination.
   */
  lemma RecoverNotifies(pr: PanicRobot, now: string, req: Request, bodyRaw: string, fault: Fault, trace: string)
    ensures var o := Recover(pr, now, req, bodyRaw, fault, trace);
      o.status == 500 && TraceOf(o.response) == Some(fault.value)
    ensures var o := Recover(pr, now, req, bodyRaw, fault, trace);
      |o.pushes| == (if pr.wechat.enable then 1 else 0) + (if pr.feishu.enable then 1 else 0)
    ensures var o := Recover(pr, now, req, bodyRaw, fault, trace);
      var content := Content(Report(pr, now, req, bodyRaw, fault, trace));
      forall p :: p in o.pushes ==>
        (WechatText(p.body) == Some(content) && p.url == pr.wechat.pushUrl && pr.wechat.enable) ||
        (FeishuText(p.body) == Some(content) && p.url == pr.feishu.pushUrl && pr.feishu.enable)
    ensures var o := Recover(pr, now, req, bodyRaw, fault, trace);
      var content := Content(Report(pr, now, req, bodyRaw, fault, trace));
      (pr.wechat.enable <==> Push(pr.wechat.pushUrl, WechatEnvelope(content)) in o.pushes) &&
      (pr.feishu.enable <==> Push(pr.feishu.pushUrl, FeishuEnvelope(content)) in o.pushes)
    ensures pr.Valid() ==> forall p :: p in Recover(pr, now, req, bodyRaw, fault, trace).pushes ==> p.url != ""
  {
  }

  /**
   * The response to the caller does not depend on the channel configuration,
   * so nothing about the notifications can change what the caller receives.
   */
  lemma ResponseIgnoresChannels(pr1: PanicRobot, pr2: PanicRobot, now: string, req: Request, bodyRaw: string, fault: Fault, trace: string)
    ensures Recover(pr1, now, req, bodyRaw, fault, trace).status == Recover(pr2, now, req, bodyRaw, fault, trace).status
    ensures Recover(pr1, now, req, bodyRaw, fault, trace).response == Recover(pr2, now, req, bodyRaw, fault, trace).response
  {
  }
}

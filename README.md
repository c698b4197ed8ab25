# Panic robot: a Dafny model

This project models the deterministic core of the panic-notification
middleware `PanicRobot` (Go package `monitor`). On a recovered panic the
middleware builds a diagnostic text, sends it to up to two chat webhooks
(Wechat and Feishu), and answers the request with a fixed 500 response.

- `splice.dfy`, module `Splice`: `spliceStr` from util.go. `SpliceStr` is the
  builder loop. It is proved against `Concat`, the in-order concatenation
  with no separator. Lemmas give its length and the offset of every fragment.
- `panic_robot_config.dfy`, module `PanicRobotConfig`: building a robot.
  - The Go option setters (`PanicRobotEnable`, `PanicRobotEnv`, ...) become
    the constructors of the datatype `PanicRobotOption`.
  - The private record `panicRobotOption` becomes the class `OptionRecord`,
    whose `Apply` method runs one option in place.
  - `NewPanicRobot` allocates a record, applies the options in a loop, and
    then runs the checks in the source's order: disabled, Wechat URL missing,
    Feishu URL missing, hostname failure.
  - It is proved equal to `Validate(Accumulate(opts), host)`. The lemmas
    prove last-write-wins per field, the error precedence, and that a built
    robot is `Valid()`: every enabled channel has a non-empty URL.
  - The error texts are the source's own, in `ConfigError.Message`.
- `panic_robot_middleware.dfy`, module `PanicRobotMiddleware`: the recover
  branch of `Middleware`.
  - It builds the report and its text blob.
  - It bounds the stack snippet to the 4096-byte capture buffer.
  - It builds the Wechat and Feishu envelopes, each paired with a function
    that reads the blob back out.
  - Each channel's push is issued only when that channel is enabled.
  - The response is always `{code:500, msg:"Server Error", data:nil, trace:err}`.
- `json.dfy` (the JSON values handed to the encoder) and `wrappers.dfy`
  (`Option`, `Result`) are support modules.

Inputs that the Go code takes from the runtime or the operating system are
parameters of the model:
- `os.Hostname()` is a `Result<string, string>`.
- The formatted clock reading is a string.
- The bytes `io.ReadAll` returned from the request body are a string.
- The panic value is given twice: as its `%v` text and as its JSON value.
- The full stack trace is a string; `runtime.Stack` keeps the prefix of it
  that fits the buffer.

The configuration errors carry the code's exact messages, and a hostname
failure returns the lookup's own error unchanged.

## Model

| member | source | states |
|---|---|---|
| `Splice.SpliceStr` | util.go:6-13 | the builder loop returns exactly the in-order concatenation of the fragments, and its length is the sum of the fragment lengths (loop invariant: after i steps the builder holds fragments 0..i) |
| `Splice.ConcatAppend` | util.go:9-12 | concatenating a split fragment list equals concatenating each part and joining the two results |
| `Splice.ConcatCons` | util.go:9-12 | a leading fragment appears unchanged at the front of the result |
| `Splice.ConcatSingleton` | util.go:9-12 | splicing one fragment returns that fragment |
| `Splice.ConcatEmpty` | util.go:7-12 | splicing no fragments returns the empty string |
| `Splice.ConcatLength` | util.go:9-11 | the result's length is the sum of the fragment lengths: no separator is added |
| `Splice.FragmentAt` | util.go:9-11 | fragment k occupies the result exactly from the end of fragments 0..k-1 for its own length |
| `PanicRobotConfig.Applied` | panic_robot.go:42-76 | each option writes its own field with its own value and leaves the other five fields unchanged |
| `PanicRobotConfig.OptionRecord.constructor` | panic_robot.go:79 | a fresh option record holds the zero values (disabled, empty env, both channels off with empty URLs) |
| `PanicRobotConfig.OptionRecord.Apply` | panic_robot.go:81-83 | running one option's closure updates the record in place exactly as `Applied` says |
| `PanicRobotConfig.LastWriteWins` | panic_robot.go:79-83 | after all options run in order, each field holds the value of the last option that wrote it |
| `PanicRobotConfig.UnwrittenKeepsZero` | panic_robot.go:79-83 | a field that no option writes keeps its zero value |
| `PanicRobotConfig.Validate` | panic_robot.go:85-113 | success iff enabled, each enabled channel has a non-empty URL, and the hostname lookup succeeded. The first failing check decides the error: disabled, then Wechat, then Feishu, then hostname. On success the robot copies env, hostname and both channels and is `Valid()` |
| `PanicRobotConfig.NewPanicRobot` | panic_robot.go:78-114 | applying the options to a fresh record in a loop and running the early-return checks gives exactly `Validate` of the accumulated options |
| `PanicRobotConfig.DisabledWhateverElse` | panic_robot.go:85-87 | if the last enable option is false, construction fails with the disabled error whatever the other options and the hostname lookup are |
| `PanicRobotConfig.EnableIsOptIn` | panic_robot.go:79-87 | with no enable option at all, construction fails with the disabled error |
| `PanicRobotConfig.UrlsGivenSucceeds` | panic_robot.go:89-113 | enabled, with both last URL options non-empty: construction succeeds iff the hostname lookup does, and the robot carries those URLs |
| `PanicRobotConfig.ConfigError.Message` | panic_robot.go:85-100 | the text of each construction error: "PanicRobot Disable", "Wechat push url Can not be Null " and "Feishu push url Can not be Null " (trailing space included), and the hostname lookup's own error text unchanged |
| `PanicRobotMiddleware.Report` | panic_robot.go:120-132 | the report's stack is a prefix of the full trace, at most 4096 long, and the whole trace when it fits; the other fields are copied from the robot (env, hostname), the request (method, path, raw query), the body read and the panic's `%v` text |
| `PanicRobotMiddleware.Content` | panic_robot.go:120-134 | the blob built from spliceStr calls starts with the Env label and ends with the stack snippet; the full layout is proved by `ContentLayout` and the length by `ContentLength` |
| `PanicRobotMiddleware.Recover` | panic_robot.go:119-145 | handling one recovered panic answers status 500 with the panic value as trace and issues one push per enabled channel; what each push carries is proved by `RecoverNotifies` |
| `PanicRobotMiddleware.StackSnippet` | panic_robot.go:130-132 | the stack snippet is a prefix of the trace, at most 4096 long. It is the whole trace when that fits and exactly 4096 long otherwise |
| `PanicRobotMiddleware.ContentLayout` | panic_robot.go:120-134 | the blob is the Env, Host, Time, Request (method, space, path), Params, Body and Panic lines, each newline-terminated and in that order, followed by the stack snippet |
| `PanicRobotMiddleware.ContentLength` | panic_robot.go:120-134 | the blob's length is 55 label characters plus the lengths of the report fields, so it is bounded with the stack counted at most 4096 |
| `PanicRobotMiddleware.WechatEnvelope` | panic_robot.go:154-159 | the Wechat envelope has the `{msgtype:"text", text:{content}}` shape, the blob reads back out unchanged, and it is not Feishu-shaped |
| `PanicRobotMiddleware.FeishuEnvelope` | panic_robot.go:167-172 | the Feishu envelope has the `{msg_type:"text", content:{text}}` shape, the blob reads back out unchanged, and it is not Wechat-shaped |
| `PanicRobotMiddleware.WechatPush` | panic_robot.go:152-163 | a push is issued iff Wechat is enabled. It goes to the Wechat URL and carries the blob in the Wechat envelope |
| `PanicRobotMiddleware.FeishuPush` | panic_robot.go:165-176 | a push is issued iff Feishu is enabled. It goes to the Feishu URL and carries the blob in the Feishu envelope |
| `PanicRobotMiddleware.FaultResponse` | panic_robot.go:139-144 | the response has exactly the keys code=500, msg="Server Error", data=nil and trace, and the trace reads back as the panic value |
| `PanicRobotMiddleware.RecoverNotifies` | panic_robot.go:119-145 | handling a panic gives status 500 with the panic value as trace, and one push per enabled channel and none for a disabled one. Every push carries the same blob to its own channel's URL. For a valid robot no push has an empty URL |
| `PanicRobotMiddleware.ResponseIgnoresChannels` | panic_robot.go:136-144 | the status and response do not depend on the channel configuration |

## Left out

- The gin wiring: `Middleware` returning a handler, `defer`/`recover` and `c.Next()`. This is framework control flow. Only the branch taken once a non-nil panic value has been recovered is modelled. The no-panic path and Go's treatment of `panic(nil)` are not modelled.
- The `go` statements that start the two pushes. Concurrency is not modelled: the pushes are an unordered multiset of what would be posted.
- `push`: `json.Marshal`, `http.Post` and `log.Println` are foreign I/O. In the code, a marshal error is logged and the POST is still attempted with whatever bytes were produced. This is not modelled.
- JSON serialisation itself: key order, escaping, and the bytes produced for `trace`. The panic value is taken as a JSON value of any kind (null, boolean, number, string, array or object); objects are maps of JSON values.
- A nil element among the options passed to `NewPanicRobot`: calling it panics in Go. Options are modelled only as the six setters' closures, so `NewPanicRobot` has no panic path.
- Changes a caller makes to the exported fields of a returned `*PanicRobot`: the robot is modelled as a value, so `Valid()` is proved at construction only. The middleware reads the fields at panic time and does not require `Valid()`; `RecoverNotifies` holds for any robot, and only its non-empty-URL clause is conditional on `Valid()`.
- The link between a panic value's `%v` text and its JSON form. These are two independent parameters.
- `os.Hostname`, `time.Now().Format("2006-01-02 15:04:05")`, `io.ReadAll` of the request body and `runtime.Stack` are parameters. The error that `io.ReadAll` discards is not modelled, and the body read is taken as a string.
- Strings are sequences of characters with one character per byte. UTF-8 encoding is not modelled, so the 4096-byte bound applies to characters.
- `strings.Builder` is modelled as a local string that the loop extends. Its growth strategy is not modelled.

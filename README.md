# reqlogger in Dafny

A model of a Go HTTP logging middleware, with its properties proved.

The middleware has two parts:

- `ResponseWriterCapturer` decorates an `http.ResponseWriter`. It records the
  last status code passed to `WriteHeader`, which defaults to 200. It also
  counts the bytes passed to `Write`. Every call is forwarded to the wrapped
  writer. `Wrap` rebinds the capturer to another writer and resets both
  counters, so a pooled capturer can be reused.
- `RequestLogger` wraps an `http.Handler`. For each request it takes a
  capturer from its pool, wraps the real writer and runs the handler once with
  the capturer. It then emits one info-level event. The event holds the
  duration, the captured status and byte count, and a `headers` group. The
  group lists, in capture-list order, every captured request header whose
  value is non-empty. The event message is `"<method> <path>"`. Last, the
  capturer goes back to the pool. `AddHeader` and `SetHeaders` edit the
  capture list.

Files:

- `http.dfy` (module `Http`): the net/http side. `ResponseWriter` is a writer
  that logs every `Write`/`WriteHeader` call it receives, in one ordered
  `log`. What its `Write` returns comes from a `reply` function of the log and
  the buffer, so it can model any writer, including partial writes and
  errors. `Request` carries the method, the path and a header lookup
  (`string -> string`, where `""` means absent). `Handler` is given by the
  calls it makes for a request.
- `rescapture.dfy` (module `ResCapture`): the capturer as a class with the
  fields `writer`, `statusCode` and `bytesWritten`. A ghost `calls` records
  the calls received since the last `Wrap`. `Valid()` says four things:
  there is a wrapped writer, so the pool's zero capturer is not valid until
  `Wrap` runs; `bytesWritten` is the total length of the written buffers (`BytesOf`);
  `statusCode` is the last code set, or 200 (`LastStatus`); and those calls
  are the newest entries of the wrapped writer's log.
- `reqlogger.dfy` (module `ReqLogger`): the logger as a class with the
  capture list, a sequential pool and the emitted events. `HeaderGroup` is the
  specification of the `headers` group. `CollectHeaders` is the loop that
  builds it. `ServeHTTP` ties the emitted event to the handler's calls and the
  request.
- `scenarios.dfy` (module `Scenarios`): the repository's tests, written as
  client methods whose contracts are what the tests assert, and one scenario
  of two requests sharing a pooled capturer.

Where the documentation and the code disagree, the model follows the code:

- The default capture list is `["x-request-id", "x-api-key", "user-agent"]`,
  in that order (reqlogger.go:33). The doc comment of `NewRequestLogger`
  (reqlogger.go:21-22) lists the same names in another order (user-agent,
  x-request-id, x-api-key). The tests compare the names regardless of order.
- The tests and the example program call `New(...)` (reqlogger_test.go:17,
  example/main.go:43), but the package only defines `NewRequestLogger`
  (reqlogger.go:24). The model has the constructor as written:
  `RequestLogger.NewRequestLogger`.

## Model

| member | source | states |
|---|---|---|
| ResCapture.ResponseWriterCapturer.constructor | rescapture.go:15-20 | a new capturer wraps `w`, with status 200, 0 bytes and no calls recorded, and satisfies the invariant |
| ResCapture.ResponseWriterCapturer.Zero | reqlogger.go:29-31 | the pool's zero-value capturer has no writer and both counters at 0 |
| ResCapture.ResponseWriterCapturer.StatusCode | rescapture.go:22-25 | a side-effect-free read; under the invariant it is the last code set since the last Wrap, or 200 |
| ResCapture.ResponseWriterCapturer.BytesWritten | rescapture.go:27-30 | a side-effect-free read; under the invariant it is the total length of the buffers written since the last Wrap |
| ResCapture.ResponseWriterCapturer.Wrap | rescapture.go:32-39 | whatever the prior state, the capturer wraps `w`, with status 200 and 0 bytes; the new state does not depend on the old one, so Wrap is idempotent |
| ResCapture.ResponseWriterCapturer.Write | rescapture.go:41-45 | the byte count grows by exactly the buffer's length, whatever the writer accepts; the status is unchanged; the writer's log grows by exactly this Write; the writer's answer is returned unchanged; the invariant is kept |
| ResCapture.ResponseWriterCapturer.WriteHeader | rescapture.go:47-51 | the status becomes `code` and the byte count is unchanged; every call reaches the writer's log, repeats included; the invariant is kept |
| ResCapture.BytesOfAppend | rescapture.go:41-51 | one more call adds the buffer's length to the byte count on Write and nothing on WriteHeader |
| ResCapture.LastStatusAppend | rescapture.go:41-51 | one more call sets the status to its code on WriteHeader and leaves it on Write |
| ResCapture.BytesOfConcat | rescapture.go:43 | the byte count of two call sequences in a row is the sum of their byte counts |
| ResCapture.LastStatusIsLastHeaderCall | rescapture.go:47-51 | with no WriteHeader call the status is 200; otherwise it is the code of the WriteHeader call that no later WriteHeader call follows |
| ReqLogger.HeaderGroup | reqlogger.go:65-71 | the `headers` group has at most one field per captured name |
| ReqLogger.HeaderGroupAppend | reqlogger.go:66-71 | adding a name to the end of the capture list adds its field to the end of the group when its value is non-empty, and nothing otherwise; earlier fields stay as they were |
| ReqLogger.HeaderGroupSound | reqlogger.go:66-71 | every field of the group is a captured name paired with its value on the request, and that value is non-empty |
| ReqLogger.HeaderGroupComplete | reqlogger.go:66-71 | every captured name whose value on the request is non-empty has its field in the group |
| ReqLogger.HeaderGroupMultiplicity | reqlogger.go:66-71 | a name occurs in the group as often as in the capture list if its value is non-empty, and never otherwise; a duplicated capture name gives a duplicated field |
| ReqLogger.HeaderGroupFull | reqlogger.go:65-71 | the group has as many fields as the capture list has names exactly when every captured header is present |
| ReqLogger.Message | reqlogger.go:74 | the message is the method, then one space, then the path, and nothing else |
| ReqLogger.MessageRoundTrip | reqlogger.go:74 | the message is the method, one space and the path, so both can be read back from it when the method has no space |
| ReqLogger.CollectHeaders | reqlogger.go:65-72 | the loop over the capture list builds exactly the `headers` group |
| ReqLogger.InvokeHandler | reqlogger.go:56 | the handler runs once on the capturer; its calls are recorded by the capturer and reach the real writer in order and unchanged; the invariant is kept |
| ReqLogger.RequestLogger.NewRequestLogger | reqlogger.go:24-35 | a new logger wraps `handler`, with the capture list `["x-request-id", "x-api-key", "user-agent"]`, an empty pool and no events |
| ReqLogger.RequestLogger.AddHeader | reqlogger.go:37-40 | the capture list becomes the old list plus `name` at the end; duplicates are accepted |
| ReqLogger.RequestLogger.SetHeaders | reqlogger.go:42-45 | the capture list becomes exactly `names`; the old entries are gone |
| ReqLogger.RequestLogger.GetCapturer | reqlogger.go:50 | takes the last pooled capturer, or, when the pool is empty, allocates a zero one: no writer, status 0 and 0 bytes |
| ReqLogger.RequestLogger.PutCapturer | reqlogger.go:77 | the capturer is put back into the pool |
| ReqLogger.RequestLogger.ServeHTTP | reqlogger.go:47-78 | the handler's calls reach `w` in order, exactly once; exactly one event is emitted, at info level, with the given duration, the last status set (or 200), the total bytes written, the `headers` group of the capture list and `"<method> <path>"`; the counters depend only on this request's calls, not on what the pooled capturer held; the capture list is unchanged, the pool gets its capturer back, now wrapping `w`, and every other pooled capturer stays as it was |
| Scenarios.NewCapturerScenario | rescapture_test.go:11-20 | a new capturer wraps its writer, with status 200 and 0 bytes |
| Scenarios.WrapScenario | rescapture_test.go:22-37 | Wrap turns a capturer holding status 400 and 200 bytes into one wrapping the new writer, with status 200 and 0 bytes |
| Scenarios.CapturesStatusCodeScenario | rescapture_test.go:39-44 | after WriteHeader(404), StatusCode reports 404 |
| Scenarios.CapturesBytesWrittenScenario | rescapture_test.go:46-55 | four writes of "testing" count 28 bytes |
| Scenarios.DefaultReqHeadersScenario | reqlogger_test.go:16-20 | a new logger captures user-agent, x-api-key and x-request-id |
| Scenarios.AddHeaderScenario | reqlogger_test.go:22-27 | after AddHeader("x-foo") the three defaults and x-foo are captured |
| Scenarios.SetHeadersScenario | reqlogger_test.go:29-34 | after SetHeaders(["x-foo"]) the capture list is exactly ["x-foo"] |
| Scenarios.LogsRequestScenario | reqlogger_test.go:36-71 | a GET of /test whose handler writes "test response" and sets no status is logged at info level as "GET /test", with status 200, 13 bytes and exactly the four captured headers with their values |
| Scenarios.PooledCapturerScenario | reqlogger.go:48-51 | the second request reuses the one pooled capturer of a first one that set 404 and wrote 7 bytes (the same object, now wrapping the second writer), and the second event shows only its own status 200 and 13 bytes |

## Left out

- The writer's `Header()` method, which the capturer passes through by struct embedding, is not modelled. The writer here has only `Write` and `WriteHeader`.
- Header lookup is a given function. The case-insensitive matching of `r.Header.Get` is not modelled.
- `sync.Pool` is modelled as a sequential free list that returns its most recently added capturer. Concurrent use, and the runtime dropping pooled objects, are not modelled.
- The clock is not modelled. The duration measured around the handler is a parameter of `ServeHTTP`, so the test's check that it is non-zero is not modelled.
- zerolog is replaced by an `Event` record appended to the logger's `events`. The `logger` argument of `NewRequestLogger` and the JSON encoding are not modelled. The logger's level filtering is not modelled either: every call emits its event, whereas a zerolog logger set above info level writes nothing.
- A panic in the handler is not modelled. It would propagate, and no event would be emitted.
- A handler is given by the list of calls it makes for a request. A handler whose later calls depend on what earlier writes returned is not modelled. Nor is a handler with state of its own, such as a counter or the clock, which can make different calls for the same request on different runs.
- ResCapture.ResponseWriterCapturer.Write: requires a wrapped writer, because the Go code panics on a nil writer. A nil writer arises with a pooled capturer before `Wrap`, and also from `NewResponseWriterCapturer(nil)` (rescapture.go:15) or `Wrap(nil)` (rescapture.go:35), which Go accepts.
- ResCapture.ResponseWriterCapturer.constructor: takes a non-null writer, so `NewResponseWriterCapturer(nil)` is not modelled. No caller in the repository passes nil.
- ResCapture.ResponseWriterCapturer.Wrap: takes a non-null writer, so `Wrap(nil)` is not modelled. No caller in the repository passes nil.
- ResCapture.ResponseWriterCapturer.WriteHeader: requires a wrapped writer, for the same reason as Write.
- ResCapture.ResponseWriterCapturer.Write: the counter is unbounded. Go's `int` wraps at 2^63 on 64-bit platforms and at 2^31 (2 GiB) on 32-bit ones, where one large response can make the logged `bytes` negative. That overflow is not modelled.
- ReqLogger.RequestLogger.SetHeaders: the list is a value. The Go slice is shared with the caller, so later changes the caller makes to it would show up. That sharing is not modelled, nor is the sharing of a backing array by `append` in AddHeader.
- The example program (environment variables, logger setup, `ListenAndServe`) is process wiring and is not part of this model.

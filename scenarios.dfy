/** The repository's test cases as client code: each method builds the
    objects a test builds, makes the same calls, and states in its contract
    what the test asserts. A last scenario runs two requests through one
    pooled capturer. All are proved from the contracts of the capturer and
    the logger alone. */
module Scenarios {
  import opened Http
  import opened ResCapture
  import opened ReqLogger

  /** A writer that accepts every buffer in full. */
  function AcceptAll(log: seq<Call>, buf: seq<byte>): (int, Option<string>)
  {
    (|buf|, None)
  }

  /** The bytes of "testing". */
  const Testing: seq<byte> := [116, 101, 115, 116, 105, 110, 103]

  /** The bytes of "test response". */
  const TestResponse: seq<byte> := [116, 101, 115, 116, 32, 114, 101, 115, 112, 111, 110, 115, 101]

  /** A new capturer wraps the writer it is given, with status 200 and no bytes. */
  method NewCapturerScenario() returns (wraps: bool, status: int, bytes: int)
    ensures wraps && status == 200 && bytes == 0
  {
    var w := new ResponseWriter(AcceptAll);
    var rwc := new ResponseWriterCapturer(w);
    wraps := rwc.writer == w;
    status, bytes := rwc.StatusCode(), rwc.BytesWritten();
  }

  /** Wrap discards a capturer's earlier writer, status 400 and 200 bytes. */
  method WrapScenario() returns (wraps: bool, status: int, bytes: int)
    ensures wraps && status == 200 && bytes == 0
  {
    var w := new ResponseWriter(AcceptAll);
    var w2 := new ResponseWriter(AcceptAll);
    var rwc := new ResponseWriterCapturer(w);
    rwc.statusCode, rwc.bytesWritten := 400, 200;
    rwc.Wrap(w2);
    wraps := rwc.writer == w2;
    status, bytes := rwc.StatusCode(), rwc.BytesWritten();
  }

  /** WriteHeader(404) is what StatusCode reports afterwards. */
  method CapturesStatusCodeScenario() returns (status: int)
    ensures status == 404
  {
    var w := new ResponseWriter(AcceptAll);
    var rwc := new ResponseWriterCapturer(w);
    rwc.WriteHeader(404);
    status := rwc.StatusCode();
  }

  /** Four writes of "testing" count 4 * 7 bytes. */
  method CapturesBytesWrittenScenario() returns (bytes: int)
    ensures bytes == 4 * |Testing|
  {
    var w := new ResponseWriter(AcceptAll);
    var rwc := new ResponseWriterCapturer(w);
    for i := 0 to 4
      invariant rwc.writer == w && rwc.Valid()
      invariant rwc.BytesWritten() == i * |Testing|
    {
      var n, err := rwc.Write(Testing);
    }
    bytes := rwc.BytesWritten();
  }

  /** A new logger captures the three default headers. */
  method DefaultReqHeadersScenario(h: Handler) returns (names: seq<string>)
    ensures multiset(names) == multiset{"user-agent", "x-api-key", "x-request-id"}
  {
    var rl := new RequestLogger.NewRequestLogger(h);
    names := rl.reqHeaders;
  }

  /** AddHeader keeps the defaults and adds the new name. */
  method AddHeaderScenario(h: Handler) returns (names: seq<string>)
    ensures multiset(names) == multiset{"user-agent", "x-api-key", "x-request-id", "x-foo"}
  {
    var rl := new RequestLogger.NewRequestLogger(h);
    rl.AddHeader("x-foo");
    names := rl.reqHeaders;
  }

  /** SetHeaders drops the defaults. */
  method SetHeadersScenario(h: Handler) returns (names: seq<string>)
    ensures names == ["x-foo"]
  {
    var rl := new RequestLogger.NewRequestLogger(h);
    rl.SetHeaders(["x-foo"]);
    names := rl.reqHeaders;
  }

  function TestHeaders(name: string): string
  {
    if name == "user-agent" then "test-user-agent"
    else if name == "x-api-key" then "test-api-key"
    else if name == "x-request-id" then "test-request-id"
    else if name == "x-foo" then "bar"
    else ""
  }

  /** A GET of /test whose handler writes "test response" and never sets a
      status is logged at info level as "GET /test" with status 200, 13
      bytes and the four captured headers. */
  method LogsRequestScenario(elapsed: int) returns (evt: Event)
    ensures evt.level == "info" && evt.message == "GET /test"
    ensures evt.status == 200 && evt.bytes == 13
    ensures |evt.headers| == 4
    ensures HeaderField("user-agent", "test-user-agent") in evt.headers
    ensures HeaderField("x-api-key", "test-api-key") in evt.headers
    ensures HeaderField("x-request-id", "test-request-id") in evt.headers
    ensures HeaderField("x-foo", "bar") in evt.headers
  {
    var h := Handler(WriteTestResponse);
    var r := Request("GET", "/test", TestHeaders);
    var rl := new RequestLogger.NewRequestLogger(h);
    rl.AddHeader("x-foo");
    var w := new ResponseWriter(AcceptAll);
    rl.ServeHTTP(w, r, elapsed);
    evt := rl.events[0];

    assert evt.headers == HeaderGroup(DefaultHeaders + ["x-foo"], TestHeaders);
    TestHeaderGroup();
    TestResponseCounters();
    assert Message(r) == "GET /test";
  }

  /** The handler of the logging test: it writes "test response" and sets no status. */
  function WriteTestResponse(r: Request): seq<Call>
  {
    [Call.Write(TestResponse)]
  }

  lemma TestResponseCounters()
    ensures LastStatus([Call.Write(TestResponse)]) == 200
    ensures BytesOf([Call.Write(TestResponse)]) == 13
  {
    BytesOfAppend([], Call.Write(TestResponse));
    assert [] + [Call.Write(TestResponse)] == [Call.Write(TestResponse)];
  }

  /** The test request carries every header of the default list plus x-foo. */
  lemma TestHeaderGroup()
    ensures |HeaderGroup(DefaultHeaders + ["x-foo"], TestHeaders)| == 4
    ensures HeaderField("user-agent", "test-user-agent") in HeaderGroup(DefaultHeaders + ["x-foo"], TestHeaders)
    ensures HeaderField("x-api-key", "test-api-key") in HeaderGroup(DefaultHeaders + ["x-foo"], TestHeaders)
    ensures HeaderField("x-request-id", "test-request-id") in HeaderGroup(DefaultHeaders + ["x-foo"], TestHeaders)
    ensures HeaderField("x-foo", "bar") in HeaderGroup(DefaultHeaders + ["x-foo"], TestHeaders)
  {
    var names := DefaultHeaders + ["x-foo"];
    assert names == ["x-request-id", "x-api-key", "user-agent", "x-foo"];
    assert names[0] == "x-request-id" && names[1] == "x-api-key";
    assert names[2] == "user-agent" && names[3] == "x-foo";
    assert TestHeaders(names[0]) == "test-request-id";
    assert TestHeaders(names[1]) == "test-api-key";
    assert TestHeaders(names[2]) == "test-user-agent";
    assert TestHeaders(names[3]) == "bar";
    HeaderGroupFull(names, TestHeaders);
    HeaderGroupComplete(names, TestHeaders);
  }

  /** Two requests in a row share one pooled capturer; the second request's
      event shows only its own writes, not the first request's 404 and bytes. */
  method PooledCapturerScenario(elapsed: int) returns (first: Event, second: Event, reused: bool)
    ensures reused
    ensures first.status == 404 && first.bytes == 7
    ensures second.status == 200 && second.bytes == 13
  {
    var h := Handler((r: Request) => if r.path == "/missing" then [Call.WriteHeader(404), Call.Write(Testing)]
                          else [Call.Write(TestResponse)]);
    var rl := new RequestLogger.NewRequestLogger(h);
    var w1 := new ResponseWriter(AcceptAll);
    rl.ServeHTTP(w1, Request("GET", "/missing", TestHeaders), elapsed);
    var pooled := rl.pool;
    var w2 := new ResponseWriter(AcceptAll);
    rl.ServeHTTP(w2, Request("GET", "/test", TestHeaders), elapsed);
    reused := rl.pool == pooled && |pooled| == 1 && pooled[0].writer == w2;
    first, second := rl.events[0], rl.events[1];

    var missing := [Call.WriteHeader(404), Call.Write(Testing)];
    LastStatusAppend([Call.WriteHeader(404)], Call.Write(Testing));
    BytesOfAppend([Call.WriteHeader(404)], Call.Write(Testing));
    assert [Call.WriteHeader(404)] + [Call.Write(Testing)] == missing;
    assert BytesOf([Call.Write(TestResponse)]) == 13;
  }
}

/** The request-logging middleware: it wraps a handler, hands it a
    response-writer capturer in place of the real writer, and emits one
    structured event per request with the status, the byte count, the
    configured request headers and "<method> <path>" as its message. */
module ReqLogger {
  import opened Http
  import opened ResCapture

  /** One string field of the event's `headers` group. */
  datatype HeaderField = HeaderField(name: string, value: string)

  /** The structured event logged for one request. The group is a sequence,
      not a map: adding the same name twice to a group yields two fields. */
  datatype Event = Event(level: string, duration: int, status: int, bytes: int,
                         headers: seq<HeaderField>, message: string)

  const LevelInfo: string := "info"

  /** The capture list a new logger starts with. */
  const DefaultHeaders: seq<string> := ["x-request-id", "x-api-key", "user-agent"]

  /** The `headers` group for capture list `names`: in list order, one field
      per name whose value on the request is non-empty. */
  function HeaderGroup(names: seq<string>, lookup: string -> string): (group: seq<HeaderField>)
    ensures |group| <= |names|
  {
    if names == [] then []
    else
      (if lookup(names[0]) != "" then [HeaderField(names[0], lookup(names[0]))] else [])
      + HeaderGroup(names[1..], lookup)
  }

  function Names(group: seq<HeaderField>): seq<string>
  {
    if group == [] then [] else [group[0].name] + Names(group[1..])
  }

  /** Adding a name to the end of the capture list adds at most one field to
      the end of the group, and leaves the fields before it alone. */
  lemma {:induction false} HeaderGroupAppend(names: seq<string>, n: string, lookup: string -> string)
    ensures HeaderGroup(names + [n], lookup) ==
            HeaderGroup(names, lookup) + (if lookup(n) != "" then [HeaderField(n, lookup(n))] else [])
  {
    if names != [] {
      assert (names + [n])[1..] == names[1..] + [n];
      HeaderGroupAppend(names[1..], n, lookup);
    }
  }

  /** Every field of the group is a captured name with its non-empty value. */
  lemma {:induction false} HeaderGroupSound(names: seq<string>, lookup: string -> string)
    ensures forall f :: f in HeaderGroup(names, lookup) ==>
              f.name in names && f.value == lookup(f.name) && f.value != ""
  {
    if names != [] {
      HeaderGroupSound(names[1..], lookup);
    }
  }

  /** Every captured name whose value is non-empty is in the group. */
  lemma {:induction false} HeaderGroupComplete(names: seq<string>, lookup: string -> string)
    ensures forall n :: n in names && lookup(n) != "" ==> HeaderField(n, lookup(n)) in HeaderGroup(names, lookup)
  {
    if names != [] {
      HeaderGroupComplete(names[1..], lookup);
      assert forall n :: n in names ==> n == names[0] || n in names[1..];
    }
  }

  /** A name occurs in the group as often as in the capture list when its
      value is non-empty, and never otherwise: duplicates are kept. */
  lemma {:induction false} HeaderGroupMultiplicity(names: seq<string>, lookup: string -> string)
    ensures forall n :: multiset(Names(HeaderGroup(names, lookup)))[n] ==
                        if lookup(n) != "" then multiset(names)[n] else 0
  {
    if names != [] {
      HeaderGroupMultiplicity(names[1..], lookup);
      assert names == [names[0]] + names[1..];
      var rest := HeaderGroup(names[1..], lookup);
      if lookup(names[0]) != "" {
        var f := HeaderField(names[0], lookup(names[0]));
        assert HeaderGroup(names, lookup) == [f] + rest;
        assert Names([f] + rest) == [f.name] + Names(rest) by {
          assert ([f] + rest)[1..] == rest;
        }
      } else {
        assert HeaderGroup(names, lookup) == rest;
      }
    }
  }

  /** The group has one field per captured name exactly when every captured
      header is present. */
  lemma {:induction false} HeaderGroupFull(names: seq<string>, lookup: string -> string)
    ensures |HeaderGroup(names, lookup)| == |names| <==> forall n :: n in names ==> lookup(n) != ""
  {
    if names != [] {
      HeaderGroupFull(names[1..], lookup);
      assert forall n :: n in names ==> n == names[0] || n in names[1..];
    }
  }

  /** The event message: the method and the URL path, joined by one space. */
  function Message(r: Request): (m: string)
    ensures |m| == |r.httpMethod| + 1 + |r.path|
    ensures m[..|r.httpMethod|] == r.httpMethod && m[|r.httpMethod|] == ' '
    ensures m[|r.httpMethod| + 1..] == r.path
  {
    r.httpMethod + " " + r.path
  }

  /** Splits a message at its first space. */
  function SplitMessage(m: string): (string, string)
  {
    if m == [] then ("", "")
    else if m[0] == ' ' then ("", m[1..])
    else
      var (verb, path) := SplitMessage(m[1..]);
      ([m[0]] + verb, path)
  }

  /** An HTTP method has no space in it, so the method and the path can be
      read back from the message. */
  lemma {:induction false} MessageRoundTrip(r: Request)
    requires ' ' !in r.httpMethod
    ensures SplitMessage(Message(r)) == (r.httpMethod, r.path)
    decreases |r.httpMethod|
  {
    var verb := r.httpMethod;
    if verb != [] {
      var r' := r.(httpMethod := verb[1..]);
      MessageRoundTrip(r');
      assert Message(r)[1..] == Message(r');
      assert Message(r)[0] == verb[0];
      assert [verb[0]] + verb[1..] == verb;
    } else {
      assert Message(r) == [' '] + r.path;
    }
  }

  /** Builds the `headers` group by walking the capture list. */
  method CollectHeaders(names: seq<string>, lookup: string -> string) returns (group: seq<HeaderField>)
    ensures group == HeaderGroup(names, lookup)
  {
    group := [];
    for i := 0 to |names|
      invariant group == HeaderGroup(names[..i], lookup)
    {
      HeaderGroupAppend(names[..i], names[i], lookup);
      assert names[..i + 1] == names[..i] + [names[i]];
      var value := lookup(names[i]);
      if |value| > 0 {
        group := group + [HeaderField(names[i], value)];
      }
    }
    assert names[..|names|] == names;
  }

  /** Runs the wrapped handler once on the capturer: each call it makes goes
      through the capturer to the real writer. */
  method InvokeHandler(h: Handler, r: Request, rwc: ResponseWriterCapturer)
    requires rwc.Valid()
    modifies rwc, rwc.writer
    ensures rwc.writer == old(rwc.writer) && rwc.Valid()
    ensures rwc.calls == old(rwc.calls) + h.respond(r)
    ensures rwc.writer.log == old(rwc.writer.log) + h.respond(r)
  {
    var script := h.respond(r);
    for i := 0 to |script|
      invariant rwc.writer == old(rwc.writer) && rwc.Valid()
      invariant rwc.calls == old(rwc.calls) + script[..i]
      invariant rwc.writer.log == old(rwc.writer.log) + script[..i]
    {
      assert script[..i + 1] == script[..i] + [script[i]];
      match script[i]
      case Write(buf) =>
        var n, err := rwc.Write(buf);
      case WriteHeader(code) =>
        rwc.WriteHeader(code);
    }
    assert script[..|script|] == script;
  }

  /** Middleware that logs every request it passes to `handler`. */
  class RequestLogger {
    const handler: Handler
    /** The events emitted to the logger, oldest first. */
    var events: seq<Event>
    /** The capturers waiting in the pool for reuse. */
    var pool: seq<ResponseWriterCapturer>
    /** The names of the request headers to include in each event. */
    var reqHeaders: seq<string>

    constructor NewRequestLogger(handler: Handler)
      ensures this.handler == handler && reqHeaders == DefaultHeaders
      ensures pool == [] && events == []
    {
      this.handler := handler;
      events := [];
      pool := [];
      reqHeaders := DefaultHeaders;
    }

    /** Appends `name` to the capture list; a name already there is accepted. */
    method AddHeader(name: string)
      modifies this`reqHeaders
      ensures reqHeaders == old(reqHeaders) + [name]
    {
      reqHeaders := reqHeaders + [name];
    }

    /** Replaces the capture list. */
    method SetHeaders(names: seq<string>)
      modifies this`reqHeaders
      ensures reqHeaders == names
    {
      reqHeaders := names;
    }

    /** Takes a capturer from the pool, or allocates a zero one when the pool
        is empty. */
    method GetCapturer() returns (rwc: ResponseWriterCapturer)
      modifies this`pool
      ensures old(pool) == [] ==> pool == [] && fresh(rwc) && rwc.writer == null
      ensures old(pool) == [] ==> rwc.statusCode == 0 && rwc.bytesWritten == 0
      ensures old(pool) != [] ==> rwc == old(pool)[|old(pool)| - 1] && pool == old(pool)[..|old(pool)| - 1]
    {
      if pool == [] {
        rwc := new ResponseWriterCapturer.Zero();
      } else {
        rwc := pool[|pool| - 1];
        pool := pool[..|pool| - 1];
      }
    }

    /** Puts a capturer back into the pool. */
    method PutCapturer(rwc: ResponseWriterCapturer)
      modifies this`pool
      ensures pool == old(pool) + [rwc]
    {
      pool := pool + [rwc];
    }

    /** Serves one request: the handler's calls reach `w` unchanged and in
        order, and exactly one event is emitted, whose counters depend only
        on this request's calls and not on what the pooled capturer held.
        `elapsed` is the duration the clock measured around the handler.
        Only the capturer taken from the pool is changed, and it goes back
        into the pool wrapping `w`; the others stay as they were. */
    method ServeHTTP(w: ResponseWriter, r: Request, elapsed: int)
      modifies this, w, pool
      ensures reqHeaders == old(reqHeaders)
      ensures w.log == old(w.log) + handler.respond(r)
      ensures events == old(events) + [Event(LevelInfo, elapsed,
                                             LastStatus(handler.respond(r)), BytesOf(handler.respond(r)),
                                             HeaderGroup(reqHeaders, r.header), Message(r))]
      ensures old(pool) != [] ==> pool == old(pool)
      ensures old(pool) == [] ==> |pool| == 1 && fresh(pool[0])
      ensures |pool| > 0 && pool[|pool| - 1].writer == w
      ensures forall i :: 0 <= i < |old(pool)| && old(pool)[i] != old(pool)[|old(pool)| - 1] ==>
                unchanged(old(pool)[i])
    {
      var rwc := GetCapturer();
      rwc.Wrap(w);

      InvokeHandler(handler, r, rwc);

      var headers := CollectHeaders(reqHeaders, r.header);
      var evt := Event(LevelInfo, elapsed, rwc.StatusCode(), rwc.BytesWritten(), headers, Message(r));
      events := events + [evt];

      PutCapturer(rwc);
    }
  }
}

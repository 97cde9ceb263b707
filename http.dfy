/** The parts of net/http the middleware talks to: a response writer that
    records every call it receives, the request fields the logger reads, and
    a handler described by the calls it makes on the writer it is given. */
module Http {

  newtype byte = x: int | 0 <= x < 256

  datatype Option<+T> = None | Some(value: T)

  /** `http.StatusOK`, the status a response writer assumes until told otherwise. */
  const StatusOK: int := 200

  /** One call a handler makes on a response writer. */
  datatype Call = Write(buf: seq<byte>) | WriteHeader(code: int)

  /** A request as the logger sees it: the HTTP method, the URL path and the
      header lookup `r.Header.Get`, where "" means the header is absent. */
  datatype Request = Request(httpMethod: string, path: string, header: string -> string)

  /** An `http.Handler`, given by the calls it makes on the response writer
      for each request. */
  datatype Handler = Handler(respond: Request -> seq<Call>)

  /** An `http.ResponseWriter` that logs every Write and WriteHeader it
      receives, in order. What its Write reports back (bytes accepted, error)
      is whatever `reply` says for the log so far and the buffer, so partial
      writes and failures are both possible. */
  class ResponseWriter {
    var log: seq<Call>
    const reply: (seq<Call>, seq<byte>) -> (int, Option<string>)

    constructor (reply: (seq<Call>, seq<byte>) -> (int, Option<string>))
      ensures log == [] && this.reply == reply
    {
      log := [];
      this.reply := reply;
    }

    method Write(buf: seq<byte>) returns (n: int, err: Option<string>)
      modifies this
      ensures log == old(log) + [Call.Write(buf)]
      ensures (n, err) == reply(old(log), buf)
    {
      n, err := reply(log, buf).0, reply(log, buf).1;
      log := log + [Call.Write(buf)];
    }

    method WriteHeader(code: int)
      modifies this
      ensures log == old(log) + [Call.WriteHeader(code)]
    {
      log := log + [Call.WriteHeader(code)];
    }
  }
}

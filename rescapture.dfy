/** The response-writer capturer: a decorator over an `http.ResponseWriter`
    that remembers the last status code set and counts the bytes written,
    forwarding every call to the writer it wraps. */
module ResCapture {
  import opened Http

  /** The buffers passed to Write, in order. */
  function Buffers(calls: seq<Call>): (bufs: seq<seq<byte>>)
    ensures |bufs| <= |calls|
  {
    if calls == [] then []
    else (if calls[0].Write? then [calls[0].buf] else []) + Buffers(calls[1..])
  }

  /** The codes passed to WriteHeader, in order. */
  function Codes(calls: seq<Call>): (codes: seq<int>)
    ensures |codes| <= |calls|
  {
    if calls == [] then []
    else (if calls[0].WriteHeader? then [calls[0].code] else []) + Codes(calls[1..])
  }

  function SumLengths(bufs: seq<seq<byte>>): nat
  {
    if bufs == [] then 0 else |bufs[0]| + SumLengths(bufs[1..])
  }

  /** What the byte counter must read after `calls`: the total length of the
      buffers written. */
  function BytesOf(calls: seq<Call>): nat
  {
    SumLengths(Buffers(calls))
  }

  /** What the status must read after `calls`: the last code set, or 200 if
      WriteHeader was never called. */
  function LastStatus(calls: seq<Call>): int
  {
    var codes := Codes(calls);
    if codes == [] then StatusOK else codes[|codes| - 1]
  }

  lemma {:induction false} BuffersAppend(calls: seq<Call>, c: Call)
    ensures Buffers(calls + [c]) == Buffers(calls) + (if c.Write? then [c.buf] else [])
  {
    if calls != [] {
      assert (calls + [c])[1..] == calls[1..] + [c];
      BuffersAppend(calls[1..], c);
    }
  }

  lemma {:induction false} CodesAppend(calls: seq<Call>, c: Call)
    ensures Codes(calls + [c]) == Codes(calls) + (if c.WriteHeader? then [c.code] else [])
  {
    if calls != [] {
      assert (calls + [c])[1..] == calls[1..] + [c];
      CodesAppend(calls[1..], c);
    }
  }

  lemma {:induction false} SumLengthsAppend(bufs: seq<seq<byte>>, b: seq<byte>)
    ensures SumLengths(bufs + [b]) == SumLengths(bufs) + |b|
  {
    if bufs != [] {
      assert (bufs + [b])[1..] == bufs[1..] + [b];
      SumLengthsAppend(bufs[1..], b);
    }
  }

  /** One more call moves the byte counter by the length of a written buffer
      and leaves it alone on WriteHeader. */
  lemma BytesOfAppend(calls: seq<Call>, c: Call)
    ensures BytesOf(calls + [c]) == BytesOf(calls) + (if c.Write? then |c.buf| else 0)
  {
    BuffersAppend(calls, c);
    if c.Write? {
      SumLengthsAppend(Buffers(calls), c.buf);
    } else {
      assert Buffers(calls + [c]) == Buffers(calls);
    }
  }

  /** One more call replaces the status on WriteHeader and leaves it alone
      on Write. */
  lemma LastStatusAppend(calls: seq<Call>, c: Call)
    ensures LastStatus(calls + [c]) == if c.WriteHeader? then c.code else LastStatus(calls)
  {
    CodesAppend(calls, c);
  }

  /** The byte count of a concatenation is the sum of the byte counts. */
  lemma {:induction false} BytesOfConcat(a: seq<Call>, b: seq<Call>)
    ensures BytesOf(a + b) == BytesOf(a) + BytesOf(b)
  {
    if b == [] {
      assert a + b == a;
    } else {
      var init, last := b[..|b| - 1], b[|b| - 1];
      assert b == init + [last];
      assert a + b == (a + init) + [last];
      BytesOfConcat(a, init);
      BytesOfAppend(a + init, last);
      BytesOfAppend(init, last);
    }
  }

  /** The status after `calls` read declaratively: 200 when no WriteHeader
      call was made, and otherwise the code of the WriteHeader call that no
      later WriteHeader call follows. */
  lemma {:induction false} LastStatusIsLastHeaderCall(calls: seq<Call>)
    ensures (forall i :: 0 <= i < |calls| ==> !calls[i].WriteHeader?) ==> LastStatus(calls) == StatusOK
    ensures forall i :: 0 <= i < |calls| && calls[i].WriteHeader? &&
                        (forall j :: i < j < |calls| ==> !calls[j].WriteHeader?)
                        ==> LastStatus(calls) == calls[i].code
  {
    if calls != [] {
      var init, last := calls[..|calls| - 1], calls[|calls| - 1];
      assert calls == init + [last];
      LastStatusIsLastHeaderCall(init);
      LastStatusAppend(init, last);
      forall i | 0 <= i < |calls| && calls[i].WriteHeader? &&
                 (forall j :: i < j < |calls| ==> !calls[j].WriteHeader?)
        ensures LastStatus(calls) == calls[i].code
      {
        if i < |calls| - 1 {
          assert init[i] == calls[i];
          assert forall j :: i < j < |init| ==> init[j] == calls[j];
        }
      }
    }
  }

  /** Wraps an `http.ResponseWriter` and captures the status code and the
      number of bytes written through it. */
  class ResponseWriterCapturer {
    var writer: ResponseWriter?
    var statusCode: int
    var bytesWritten: int
    /** The calls received since the last Wrap (or construction). */
    ghost var calls: seq<Call>

    /** The counters describe exactly the calls since the last Wrap, and
        those calls are the most recent entries of the wrapped writer's log. */
    ghost predicate Valid()
      reads this, writer
    {
      && writer != null
      && statusCode == LastStatus(calls)
      && bytesWritten == BytesOf(calls)
      && |calls| <= |writer.log|
      && writer.log[|writer.log| - |calls|..] == calls
    }

    /** NewResponseWriterCapturer: wraps `w` with the counters at their defaults. */
    constructor (w: ResponseWriter)
      ensures writer == w && statusCode == StatusOK && bytesWritten == 0
      ensures calls == [] && Valid()
    {
      writer := w;
      statusCode := StatusOK;
      bytesWritten := 0;
      calls := [];
    }

    /** The zero value `&ResponseWriterCapturer{}` that the request logger's
        pool allocates: no writer, both counters 0. */
    constructor Zero()
      ensures writer == null && statusCode == 0 && bytesWritten == 0 && calls == []
    {
      writer := null;
      statusCode := 0;
      bytesWritten := 0;
      calls := [];
    }

    function StatusCode(): (code: int)
      reads this, writer
      ensures Valid() ==> code == LastStatus(calls)
    {
      statusCode
    }

    function BytesWritten(): (n: int)
      reads this, writer
      ensures Valid() ==> n == BytesOf(calls)
    {
      bytesWritten
    }

    /** Rebinds the capturer to `w` and resets both counters, whatever they
        held before. */
    method Wrap(w: ResponseWriter)
      modifies this
      ensures writer == w && statusCode == StatusOK && bytesWritten == 0
      ensures calls == [] && Valid()
    {
      writer := w;
      statusCode := StatusOK;
      bytesWritten := 0;
      calls := [];
    }

    /** Counts `|buf|` bytes, whatever the wrapped writer accepts, and
        forwards the buffer, returning the writer's answer unchanged. */
    method Write(buf: seq<byte>) returns (n: int, err: Option<string>)
      requires writer != null
      modifies this, writer
      ensures writer == old(writer)
      ensures bytesWritten == old(bytesWritten) + |buf| && statusCode == old(statusCode)
      ensures writer.log == old(writer.log) + [Call.Write(buf)]
      ensures (n, err) == writer.reply(old(writer.log), buf)
      ensures calls == old(calls) + [Call.Write(buf)]
      ensures old(Valid()) ==> Valid()
    {
      BytesOfAppend(calls, Call.Write(buf));
      LastStatusAppend(calls, Call.Write(buf));
      bytesWritten := bytesWritten + |buf|;
      calls := calls + [Call.Write(buf)];
      n, err := writer.Write(buf);
    }

    /** Records `code` as the status and forwards it; repeated calls are all
        forwarded and the last one wins. */
    method WriteHeader(code: int)
      requires writer != null
      modifies this, writer
      ensures writer == old(writer)
      ensures statusCode == code && bytesWritten == old(bytesWritten)
      ensures writer.log == old(writer.log) + [Call.WriteHeader(code)]
      ensures calls == old(calls) + [Call.WriteHeader(code)]
      ensures old(Valid()) ==> Valid()
    {
      BytesOfAppend(calls, Call.WriteHeader(code));
      LastStatusAppend(calls, Call.WriteHeader(code));
      statusCode := code;
      calls := calls + [Call.WriteHeader(code)];
      writer.WriteHeader(code);
    }
  }
}

/**
 * The access-log middleware (logs.go): a Logger that owns the log file and,
 * for every request, writes a START line, runs the wrapped handler through a
 * status-code recorder, and writes an END line with the code it captured.
 *
 * The log file is the sequence of entries written to it. Times are opaque: a
 * Stamp holds, for one log line, the date prefix log.LstdFlags writes, the
 * RFC 1123 timestamp and the elapsed duration as text. The handler is the
 * sequence of calls it makes on its response writer.
 */
module AccessLog {
  import opened Http
  import opened LogLine
  import Recorder

  /** What the clock and the logger contribute to one line. */
  datatype Stamp = Stamp(prefix: string, timestamp: string, elapsed: string)

  /** The stamps of a request's START and END lines. */
  datatype Clock = Clock(start: Stamp, end: Stamp)

  /** The entry logRequestDetails appends for these values. */
  function Line(format: string, req: Request, statusCode: int, stage: Stage, stamp: Stamp): string {
    Entry(stamp.prefix, Message(format, stamp.timestamp, stage, req, statusCode, stamp.elapsed))
  }

  /** The two entries one request adds to the log: START with code 0, END with the captured code. */
  function RequestLines(format: string, req: Request, handler: seq<Call>, clock: Clock): seq<string> {
    [Line(format, req, 0, Start, clock.start),
     Line(format, req, Recorder.Captured(handler, 0), End, clock.end)]
  }

  /** Everything one request does, in order: the START line, the handler's calls, the END line. */
  function RequestEffects(format: string, req: Request, handler: seq<Call>, clock: Clock): seq<Effect> {
    var lines := RequestLines(format, req, handler, clock);
    [Logged(lines[0])] + Sends(handler) + [Logged(lines[1])]
  }

  /**
   * Per request the log gains exactly two lines, START then END; the wrapped
   * writer `w` receives exactly the handler's calls, unchanged and in order;
   * START comes before the handler's first call and END after its last.
   */
  lemma RequestOrder(format: string, req: Request, handler: seq<Call>, clock: Clock)
    ensures LogLines(RequestEffects(format, req, handler, clock)) == RequestLines(format, req, handler, clock)
    ensures Responses(RequestEffects(format, req, handler, clock)) == handler
    ensures var es := RequestEffects(format, req, handler, clock);
            |es| == |handler| + 2 && es[0].Logged? && es[|es| - 1].Logged? &&
            forall i :: 0 < i < |es| - 1 ==> es[i].Sent?
  {
    var lines := RequestLines(format, req, handler, clock);
    var head, tail := [Logged(lines[0])], [Logged(lines[1])];
    SendsProjections(handler);
    LogLinesAppend(head + Sends(handler), tail);
    LogLinesAppend(head, Sends(handler));
    ResponsesAppend(head + Sends(handler), tail);
    ResponsesAppend(head, Sends(handler));
  }

  /**
   * The END line reports the code of the handler's last WriteHeader call, or
   * 0 when it never called WriteHeader.
   */
  lemma EndReportsLastWriteHeader(format: string, req: Request, handler: seq<Call>, clock: Clock)
    ensures (forall i :: 0 <= i < |handler| ==> !handler[i].WriteHeader?) ==>
              RequestLines(format, req, handler, clock)[1] == Line(format, req, 0, End, clock.end)
    ensures forall i :: 0 <= i < |handler| && handler[i].WriteHeader? && (forall j :: i < j < |handler| ==> !handler[j].WriteHeader?)
              ==> RequestLines(format, req, handler, clock)[1] == Line(format, req, handler[i].code, End, clock.end)
  {
    Recorder.CapturedIsLastWriteHeader(handler, 0);
  }

  /** A handler that sets 404 and then writes a body is logged with 404, not the default. */
  lemma NotFoundThenBody(format: string, req: Request, body: seq<byte>, clock: Clock)
    ensures RequestLines(format, req, [Call.WriteHeader(404), Call.Write(body)], clock)[1]
         == Line(format, req, 404, End, clock.end)
  {
    var handler := [Call.WriteHeader(404), Call.Write(body)];
    Recorder.CapturedIsLastWriteHeader(handler, 0);
    assert handler[0].WriteHeader? && !handler[1].WriteHeader?;
  }

  /**
   * next.ServeHTTP(rec, r): the wrapped handler, which makes its calls on the
   * recorder one after another.
   */
  method ServeHandler(rec: Recorder.StatusCodeResponseWriter, handler: seq<Call>)
    modifies rec, rec.delegate, rec.delegate.timeline
    ensures rec.statusCode == Recorder.Captured(handler, old(rec.statusCode))
    ensures rec.delegate.calls == old(rec.delegate.calls) + handler
    ensures rec.delegate.timeline.effects == old(rec.delegate.timeline.effects) + Sends(handler)
  {
    var i := 0;
    while i < |handler|
      invariant 0 <= i <= |handler|
      invariant rec.statusCode == Recorder.Captured(handler[..i], old(rec.statusCode))
      invariant rec.delegate.calls == old(rec.delegate.calls) + handler[..i]
      invariant rec.delegate.timeline.effects == old(rec.delegate.timeline.effects) + Sends(handler[..i])
    {
      match handler[i] {
        case WriteHeader(code) => rec.WriteHeader(code);
        case Write(data) => rec.Write(data);
      }
      Recorder.CapturedAppend(handler[..i], handler[i], old(rec.statusCode));
      assert handler[..i + 1] == handler[..i] + [handler[i]];
      i := i + 1;
    }
    assert handler[..|handler|] == handler;
  }

  class Logger {
    /** The format chosen at construction; only "json" selects the JSON layout. */
    const format: string
    /** The server's record of side effects, shared with the response writers. */
    const timeline: Timeline
    /** The log file's entries, oldest first. */
    var entries: seq<string>

    /** A logger over a log file opened for appending, which already holds `existing`. */
    constructor (format: string, existing: seq<string>, timeline: Timeline)
      ensures this.format == format && this.timeline == timeline && entries == existing
    {
      this.format := format;
      this.timeline := timeline;
      entries := existing;
    }

    /** Formats one message and appends it, as one entry, to the log; nothing else changes. */
    method LogRequestDetails(req: Request, statusCode: int, stage: Stage, stamp: Stamp)
      modifies this, timeline
      ensures entries == old(entries) + [Line(format, req, statusCode, stage, stamp)]
      ensures timeline.effects == old(timeline.effects) + [Logged(Line(format, req, statusCode, stage, stamp))]
    {
      var message := Message(format, stamp.timestamp, stage, req, statusCode, stamp.elapsed);
      var entry := Entry(stamp.prefix, message);
      entries := entries + [entry];
      timeline.effects := timeline.effects + [Logged(entry)];
    }

    /**
     * The handler LogRequest returns, serving one request `req` on the writer
     * `w`: START line, the wrapped handler through a fresh recorder, END line.
     */
    method LogRequest(w: ResponseSink, req: Request, handler: seq<Call>, clock: Clock)
      requires w.timeline == timeline
      modifies this, w, timeline
      ensures entries == old(entries) + RequestLines(format, req, handler, clock)
      ensures w.calls == old(w.calls) + handler
      ensures timeline.effects == old(timeline.effects) + RequestEffects(format, req, handler, clock)
    {
      var rec := new Recorder.StatusCodeResponseWriter(w);
      ghost var lines := RequestLines(format, req, handler, clock);
      ghost var effects0, calls0, entries0 := timeline.effects, w.calls, entries;
      LogRequestDetails(req, rec.statusCode, Start, clock.start);
      assert timeline.effects == effects0 + [Logged(lines[0])];
      ServeHandler(rec, handler);
      assert timeline.effects == effects0 + [Logged(lines[0])] + Sends(handler);
      assert rec.statusCode == Recorder.Captured(handler, 0);
      LogRequestDetails(req, rec.statusCode, End, clock.end);
      assert timeline.effects == effects0 + [Logged(lines[0])] + Sends(handler) + [Logged(lines[1])];
      assert entries == entries0 + [lines[0]] + [lines[1]];
    }
  }
}

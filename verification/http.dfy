/**
 * What the middleware sees of net/http: the calls a handler makes on its
 * response writer, the real writer those calls end up at (the delegate), and
 * a timeline that orders what the real writer receives against what is logged.
 * Header maps, the request body and the writer's own checks are not modelled.
 */
module Http {

  newtype byte = x: int | 0 <= x < 256

  /** One call on a http.ResponseWriter: WriteHeader(code) or Write(body bytes). */
  datatype Call = WriteHeader(code: int) | Write(data: seq<byte>)

  /** An observable side effect of serving a request: a log line, or a call that reached the real writer. */
  datatype Effect = Logged(entry: string) | Sent(call: Call)

  /** Every side effect of the server, in the order it happened. */
  class Timeline {
    ghost var effects: seq<Effect>

    constructor ()
      ensures effects == []
    {
      effects := [];
    }
  }

  /** The calls, each as the effect of its reaching the real writer. */
  function Sends(calls: seq<Call>): seq<Effect>
  {
    seq(|calls|, i requires 0 <= i < |calls| => Sent(calls[i]))
  }

  /** The calls that reached the real writer, in order. */
  function Responses(es: seq<Effect>): seq<Call>
    decreases |es|
  {
    if es == [] then []
    else (if es[0].Sent? then [es[0].call] else []) + Responses(es[1..])
  }

  /** The log lines written, in order. */
  function LogLines(es: seq<Effect>): seq<string>
    decreases |es|
  {
    if es == [] then []
    else (if es[0].Logged? then [es[0].entry] else []) + LogLines(es[1..])
  }

  lemma {:induction false} ResponsesAppend(a: seq<Effect>, b: seq<Effect>)
    ensures Responses(a + b) == Responses(a) + Responses(b)
    decreases |a|
  {
    if a != [] {
      assert (a + b)[1..] == a[1..] + b;
      ResponsesAppend(a[1..], b);
    } else {
      assert a + b == b;
    }
  }

  lemma {:induction false} LogLinesAppend(a: seq<Effect>, b: seq<Effect>)
    ensures LogLines(a + b) == LogLines(a) + LogLines(b)
    decreases |a|
  {
    if a != [] {
      assert (a + b)[1..] == a[1..] + b;
      LogLinesAppend(a[1..], b);
    } else {
      assert a + b == b;
    }
  }

  /** Forwarded calls reach the real writer exactly as made, and write no log line. */
  lemma {:induction false} SendsProjections(calls: seq<Call>)
    ensures Responses(Sends(calls)) == calls
    ensures LogLines(Sends(calls)) == []
    decreases |calls|
  {
    if calls != [] {
      SendsProjections(calls[1..]);
      assert Sends(calls)[1..] == Sends(calls[1..]);
    }
  }

  /**
   * The real response writer behind the middleware. It records the calls it
   * receives; what net/http then does with them (the implicit 200 of a first
   * Write, the panic on a code outside 100..999) is not modelled.
   */
  class ResponseSink {
    var calls: seq<Call>
    const timeline: Timeline

    constructor (timeline: Timeline)
      ensures calls == [] && this.timeline == timeline
    {
      calls := [];
      this.timeline := timeline;
    }

    method WriteHeader(code: int)
      modifies this, timeline
      ensures calls == old(calls) + [Call.WriteHeader(code)]
      ensures timeline.effects == old(timeline.effects) + [Sent(Call.WriteHeader(code))]
    {
      calls := calls + [Call.WriteHeader(code)];
      timeline.effects := timeline.effects + [Sent(Call.WriteHeader(code))];
    }

    method Write(data: seq<byte>)
      modifies this, timeline
      ensures calls == old(calls) + [Call.Write(data)]
      ensures timeline.effects == old(timeline.effects) + [Sent(Call.Write(data))]
    {
      calls := calls + [Call.Write(data)];
      timeline.effects := timeline.effects + [Sent(Call.Write(data))];
    }
  }
}

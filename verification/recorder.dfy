/**
 * statusCodeResponseWriter (logs.go:75-85): a response writer that wraps the
 * real one, remembers the last status code a handler set, and forwards every
 * call unchanged. Captured is the value it holds after a sequence of calls.
 */
module Recorder {
  import opened Http

  /** The captured code after one more call: WriteHeader overwrites it, Write leaves it alone. */
  function Capture(code: int, c: Call): int {
    if c.WriteHeader? then c.code else code
  }

  /** The captured code after `calls`, starting from `init`. */
  function Captured(calls: seq<Call>, init: int): (code: int)
    ensures code == init || Call.WriteHeader(code) in calls
    decreases |calls|
  {
    if calls == [] then init else Captured(calls[1..], Capture(init, calls[0]))
  }

  lemma {:induction false} CapturedAppend(calls: seq<Call>, c: Call, init: int)
    ensures Captured(calls + [c], init) == Capture(Captured(calls, init), c)
    decreases |calls|
  {
    if calls == [] {
      assert calls + [c] == [c];
    } else {
      assert (calls + [c])[1..] == calls[1..] + [c];
      CapturedAppend(calls[1..], c, Capture(init, calls[0]));
    }
  }

  /** Without a WriteHeader call the captured code stays the initial one: Write calls never change it. */
  lemma {:induction false} CapturedWithoutWriteHeader(calls: seq<Call>, init: int)
    requires forall i :: 0 <= i < |calls| ==> !calls[i].WriteHeader?
    ensures Captured(calls, init) == init
    decreases |calls|
  {
    if calls != [] {
      assert forall i :: 0 <= i < |calls[1..]| ==> calls[1..][i] == calls[i + 1];
      CapturedWithoutWriteHeader(calls[1..], init);
    }
  }

  /** Last write wins: the code of the last WriteHeader call is the one captured. */
  lemma {:induction false} CapturedLastWriteHeader(calls: seq<Call>, init: int, i: nat)
    requires i < |calls| && calls[i].WriteHeader?
    requires forall j :: i < j < |calls| ==> !calls[j].WriteHeader?
    ensures Captured(calls, init) == calls[i].code
    decreases i
  {
    var rest := calls[1..];
    assert forall j :: 0 <= j < |rest| ==> rest[j] == calls[j + 1];
    if i == 0 {
      CapturedWithoutWriteHeader(rest, calls[0].code);
    } else {
      CapturedLastWriteHeader(rest, Capture(init, calls[0]), i - 1);
    }
  }

  /**
   * The captured code is the argument of the last WriteHeader call, and stays
   * the initial code when there is none.
   */
  lemma CapturedIsLastWriteHeader(calls: seq<Call>, init: int)
    ensures (forall i :: 0 <= i < |calls| ==> !calls[i].WriteHeader?) ==> Captured(calls, init) == init
    ensures forall i :: 0 <= i < |calls| && calls[i].WriteHeader? && (forall j :: i < j < |calls| ==> !calls[j].WriteHeader?)
                        ==> Captured(calls, init) == calls[i].code
  {
    if forall i :: 0 <= i < |calls| ==> !calls[i].WriteHeader? {
      CapturedWithoutWriteHeader(calls, init);
    }
    forall i | 0 <= i < |calls| && calls[i].WriteHeader? && (forall j :: i < j < |calls| ==> !calls[j].WriteHeader?)
      ensures Captured(calls, init) == calls[i].code
    {
      CapturedLastWriteHeader(calls, init, i);
    }
  }

  class StatusCodeResponseWriter {
    /** The embedded http.ResponseWriter every call is forwarded to. */
    const delegate: ResponseSink
    var statusCode: int

    /** `&statusCodeResponseWriter{ResponseWriter: w}`: the code starts at Go's zero value, 0. */
    constructor (delegate: ResponseSink)
      ensures this.delegate == delegate && statusCode == 0
    {
      this.delegate := delegate;
      statusCode := 0;
    }

    /** Records the code, then forwards the same call to the real writer. */
    method WriteHeader(code: int)
      modifies this, delegate, delegate.timeline
      ensures statusCode == code
      ensures statusCode == Capture(old(statusCode), Call.WriteHeader(code))
      ensures delegate.calls == old(delegate.calls) + [Call.WriteHeader(code)]
      ensures delegate.timeline.effects == old(delegate.timeline.effects) + [Sent(Call.WriteHeader(code))]
    {
      statusCode := code;
      delegate.WriteHeader(code);
    }

    /** Promoted from the embedded writer: goes straight to it and leaves the captured code alone. */
    method Write(data: seq<byte>)
      modifies delegate, delegate.timeline
      ensures statusCode == old(statusCode) == Capture(old(statusCode), Call.Write(data))
      ensures delegate.calls == old(delegate.calls) + [Call.Write(data)]
      ensures delegate.timeline.effects == old(delegate.timeline.effects) + [Sent(Call.Write(data))]
    {
      delegate.Write(data);
    }
  }
}

/**
 * The write side of a socket, as both crates use it: each call either
 * accepts the whole buffer or fails with an error, and which calls fail is
 * decided by an oracle (the peer, the kernel). Partial writes are not
 * modelled. `SendAll` is the specification of the source's recurring
 * pattern "send these buffers in order, and return the first error with `?`".
 */
module Io {
  import opened Wrappers
  import opened Bytes

  /** A connected stream; outcome(k) is the error of the k-th write call, None when it succeeds. */
  class Stream<E> {
    const outcome: nat -> Option<E>
    var calls: nat
    var sent: seq<seq<byte>>

    constructor (outcome: nat -> Option<E>)
      ensures this.outcome == outcome && calls == 0 && sent == []
    {
      this.outcome := outcome;
      calls := 0;
      sent := [];
    }

    /** One write call (`libc::send`, `Write::write`): the buffer goes out whole, or an error is returned. */
    method Send(bytes: seq<byte>) returns (r: Result<(), E>)
      modifies this
      ensures calls == old(calls) + 1
      ensures outcome(old(calls)).None? ==> r.Ok? && sent == old(sent) + [bytes]
      ensures outcome(old(calls)).Some? ==> r == Err(outcome(old(calls)).value) && sent == old(sent)
    {
      match outcome(calls) {
        case None =>
          sent := sent + [bytes];
          r := Ok(());
        case Some(e) =>
          r := Err(e);
      }
      calls := calls + 1;
    }
  }

  /** How a run of write calls ended: how many buffers went out, and the error that stopped it. */
  datatype Run<E> = Run(accepted: nat, error: Option<E>)
  {
    /** The number of write calls the run made (the failing call included). */
    function Calls(): nat { accepted + if error.Some? then 1 else 0 }
  }

  /**
   * Writing msgs in order, starting with call number start, and stopping at
   * the first call that fails: the run accepts exactly the buffers before
   * the first failing call and reports that call's error.
   */
  function SendAll<E>(msgs: seq<seq<byte>>, outcome: nat -> Option<E>, start: nat): (r: Run<E>)
    ensures r.accepted <= |msgs|
    ensures forall k | start <= k < start + r.accepted :: outcome(k).None?
    ensures r.error.None? ==> r.accepted == |msgs|
    ensures r.error.Some? ==> r.accepted < |msgs| && outcome(start + r.accepted) == r.error
    decreases |msgs|
  {
    if |msgs| == 0 then Run(0, None)
    else match outcome(start)
      case Some(e) => Run(0, Some(e))
      case None =>
        var rest := SendAll(msgs[1..], outcome, start + 1);
        Run(rest.accepted + 1, rest.error)
  }

  /** The stream state (calls0, sent0) became (calls1, sent1) by the run SendAll(msgs) with result r. */
  ghost predicate Performed<E>(msgs: seq<seq<byte>>, outcome: nat -> Option<E>,
                               calls0: nat, sent0: seq<seq<byte>>,
                               calls1: nat, sent1: seq<seq<byte>>, r: Result<(), E>)
  {
    var run := SendAll(msgs, outcome, calls0);
    && calls1 == calls0 + run.Calls()
    && sent1 == sent0 + msgs[..run.accepted]
    && (r.Ok? <==> run.error.None?)
    && (r.Err? ==> run.error == Some(r.error))
  }

  /** The run is determined by where the first failing call falls: the contract of SendAll pins it down. */
  lemma SendAllUnique<E>(msgs: seq<seq<byte>>, outcome: nat -> Option<E>, start: nat, r: Run<E>)
    requires r.accepted <= |msgs|
    requires forall k | start <= k < start + r.accepted :: outcome(k).None?
    requires r.error.None? ==> r.accepted == |msgs|
    requires r.error.Some? ==> r.accepted < |msgs| && outcome(start + r.accepted) == r.error
    ensures SendAll(msgs, outcome, start) == r
  {
    var s := SendAll(msgs, outcome, start);
    assert s.accepted == r.accepted;
  }

  /** A run over a + b is the run over a, followed, when a went out whole, by the run over b. */
  lemma SendAllAppend<E>(a: seq<seq<byte>>, b: seq<seq<byte>>, outcome: nat -> Option<E>, start: nat)
    ensures var ra := SendAll(a, outcome, start);
            var rb := SendAll(b, outcome, start + |a|);
            SendAll(a + b, outcome, start) ==
              if ra.error.Some? then ra else Run(|a| + rb.accepted, rb.error)
  {
    var ra := SendAll(a, outcome, start);
    var rb := SendAll(b, outcome, start + |a|);
    var r := if ra.error.Some? then ra else Run(|a| + rb.accepted, rb.error);
    assert forall k | 0 <= k < |a| :: (a + b)[k] == a[k];
    if ra.error.None? {
      forall k | start <= k < start + r.accepted ensures outcome(k).None? {
        if k >= start + |a| { assert start + |a| <= k < start + |a| + rb.accepted; }
      }
    }
    SendAllUnique(a + b, outcome, start, r);
  }

  /** A clean run accepts every buffer. */
  lemma SendAllClean<E>(msgs: seq<seq<byte>>, outcome: nat -> Option<E>, start: nat)
    requires SendAll(msgs, outcome, start).error.None?
    ensures SendAll(msgs, outcome, start) == Run(|msgs|, None)
  {
  }

  /** After a clean run over a, the run over a + b continues with the run over b. */
  lemma SendAllAppendClean<E>(a: seq<seq<byte>>, b: seq<seq<byte>>, outcome: nat -> Option<E>, start: nat)
    requires SendAll(a, outcome, start).error.None?
    ensures var rb := SendAll(b, outcome, start + |a|);
            SendAll(a + b, outcome, start) == Run(|a| + rb.accepted, rb.error)
  {
    SendAllAppend(a, b, outcome, start);
  }

  /** Doing one more write after a clean run of writes extends the run by that write. */
  lemma PerformedSnoc<E>(msgs: seq<seq<byte>>, i: nat, outcome: nat -> Option<E>,
                         calls0: nat, sent0: seq<seq<byte>>)
    requires i < |msgs|
    requires SendAll(msgs[..i], outcome, calls0).error.None?
    ensures var run := SendAll(msgs[..i + 1], outcome, calls0);
            match outcome(calls0 + i)
            case None => run == Run(i + 1, None)
            case Some(e) => run == Run(i, Some(e))
  {
    assert msgs[..i + 1] == msgs[..i] + [msgs[i]];
    SendAllAppend(msgs[..i], [msgs[i]], outcome, calls0);
  }

  /** Once a run has failed, buffers queued after it are never written: the run is over. */
  lemma SendAllStopped<E>(a: seq<seq<byte>>, b: seq<seq<byte>>, outcome: nat -> Option<E>, start: nat)
    requires SendAll(a, outcome, start).error.Some?
    ensures SendAll(a + b, outcome, start) == SendAll(a, outcome, start)
  {
    SendAllAppend(a, b, outcome, start);
  }

  /** A clean run of a followed by a run of b is the run of a + b. */
  lemma PerformedThen<E>(a: seq<seq<byte>>, b: seq<seq<byte>>, outcome: nat -> Option<E>,
                         calls0: nat, sent0: seq<seq<byte>>, calls1: nat, sent1: seq<seq<byte>>,
                         calls2: nat, sent2: seq<seq<byte>>, r: Result<(), E>)
    requires Performed(a, outcome, calls0, sent0, calls1, sent1, Ok(()))
    requires Performed(b, outcome, calls1, sent1, calls2, sent2, r)
    ensures Performed(a + b, outcome, calls0, sent0, calls2, sent2, r)
  {
    SendAllClean(a, outcome, calls0);
    assert calls1 == calls0 + |a| && sent1 == sent0 + a by { assert a[..|a|] == a; }
    SendAllAppendClean(a, b, outcome, calls0);
    var rb := SendAll(b, outcome, calls1);
    var run := SendAll(a + b, outcome, calls0);
    assert run == Run(|a| + rb.accepted, rb.error);
    assert calls2 == calls0 + run.Calls();
    assert (a + b)[..run.accepted] == a + b[..rb.accepted];
    assert sent2 == sent0 + (a + b)[..run.accepted];
  }

  /** A failed run of a is also the run of a + b, with the same state and error. */
  lemma PerformedStop<E>(a: seq<seq<byte>>, b: seq<seq<byte>>, outcome: nat -> Option<E>,
                         calls0: nat, sent0: seq<seq<byte>>, calls1: nat, sent1: seq<seq<byte>>,
                         r: Result<(), E>)
    requires r.Err? && Performed(a, outcome, calls0, sent0, calls1, sent1, r)
    ensures Performed(a + b, outcome, calls0, sent0, calls1, sent1, r)
  {
    SendAllStopped(a, b, outcome, calls0);
    var ra := SendAll(a, outcome, calls0);
    assert (a + b)[..ra.accepted] == a[..ra.accepted];
  }

  /**
   * One more write after a clean run over the first i buffers: a success
   * extends the clean run, a failure ends the run over all of them.
   */
  lemma PerformedStep<E>(msgs: seq<seq<byte>>, i: nat, outcome: nat -> Option<E>,
                         calls0: nat, sent0: seq<seq<byte>>, calls1: nat, sent1: seq<seq<byte>>,
                         calls2: nat, sent2: seq<seq<byte>>, r: Result<(), E>)
    requires i < |msgs|
    requires Performed(msgs[..i], outcome, calls0, sent0, calls1, sent1, Ok(()))
    requires calls2 == calls1 + 1
    requires outcome(calls1).None? ==> r.Ok? && sent2 == sent1 + [msgs[i]]
    requires outcome(calls1).Some? ==> r == Err(outcome(calls1).value) && sent2 == sent1
    ensures r.Ok? ==> Performed(msgs[..i + 1], outcome, calls0, sent0, calls2, sent2, Ok(()))
    ensures r.Err? ==> Performed(msgs, outcome, calls0, sent0, calls2, sent2, r)
  {
    PerformedSnoc(msgs, i, outcome, calls0, sent0);
    assert msgs[..i + 1][..i] == msgs[..i];
    if r.Err? {
      assert msgs == msgs[..i + 1] + msgs[i + 1..];
      PerformedStop(msgs[..i + 1], msgs[i + 1..], outcome, calls0, sent0, calls2, sent2, r);
    } else {
      assert msgs[..i + 1][..i + 1] == msgs[..i + 1];
    }
  }

  /**
   * The loop "for each buffer: write it, `?`" that both crates use: one
   * write per buffer, in order, returning the first error.
   */
  method SendEach<E>(stream: Stream<E>, msgs: seq<seq<byte>>) returns (r: Result<(), E>)
    modifies stream
    ensures Performed(msgs, stream.outcome, old(stream.calls), old(stream.sent),
                      stream.calls, stream.sent, r)
  {
    var i := 0;
    while i < |msgs|
      invariant 0 <= i <= |msgs|
      invariant Performed(msgs[..i], stream.outcome, old(stream.calls), old(stream.sent),
                          stream.calls, stream.sent, Ok(()))
    {
      ghost var calls1, sent1 := stream.calls, stream.sent;
      r := stream.Send(msgs[i]);
      PerformedStep(msgs, i, stream.outcome, old(stream.calls), old(stream.sent), calls1, sent1,
                    stream.calls, stream.sent, r);
      if r.Err? {
        return;
      }
      i := i + 1;
    }
    assert msgs[..i] == msgs;
    r := Ok(());
  }
}

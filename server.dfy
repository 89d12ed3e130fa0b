/**
 * The client registry of `src/server.rs`. Each accepted client gets an id,
 * a FIFO channel (its queue) and a thread that moves queued messages onto
 * its socket. A channel send fails exactly when the receiving thread has
 * exited and dropped its receiver, so the threads that have exited are the
 * oracle `broadcast` consults. Socket and channel calls are inputs; what the
 * threads interleave with is not modelled, only the effect of each step.
 */
module Server {
  import opened Bytes
  import opened Seqs

  /** What `mpsc::Receiver::try_recv` returns. */
  datatype Recv = Data(msg: seq<byte>) | Empty | Disconnected

  /** How one pass of the client loop ends: the thread exits, or it goes round again, sleeping first or not. */
  datatype Decision = Exit | Continue(sleep: bool)

  /**
   * One iteration of the client thread's loop: a failed read ends the
   * thread; then a queued message is written (a failed write ends the
   * thread), an empty queue is passed over, a closed channel ends the thread;
   * the thread sleeps when it neither sent nor received. The read goes into
   * an empty buffer, so nothing is ever received.
   */
  function ClientLoopDecision(readOk: bool, recv: Recv, writeOk: bool): (d: Decision)
    ensures d.Exit? <==> !readOk || recv.Disconnected? || (recv.Data? && !writeOk)
    ensures d.Continue? ==> (d.sleep <==> recv.Empty?)
  {
    if !readOk then Exit
    else
      match recv
      case Data(_) => if writeOk then Continue(false) else Exit
      case Disconnected => Exit
      case Empty => Continue(true)
  }

  /** What the channel of a client gives its thread: the oldest queued message, or nothing, or a hang-up once the sender is gone. */
  function RecvOf(queue: seq<seq<byte>>, senderAlive: bool): (r: Recv)
    ensures r.Data? <==> |queue| > 0
    ensures r.Data? ==> r.msg == queue[0]
    ensures r.Disconnected? <==> |queue| == 0 && !senderAlive
  {
    if |queue| > 0 then Data(queue[0]) else if senderAlive then Empty else Disconnected
  }

  /** Whether a channel send to this client succeeds: its thread has not exited. */
  function Alive(exited: set<nat>): nat -> bool
  {
    (c: nat) => c !in exited
  }

  /** What happens with one item of `listener.incoming()`. */
  datatype Incoming = Connection(nonblockingOk: bool) | AcceptError

  /** The clients the accept loop admits: connections before the first accept error whose `set_nonblocking` succeeds. */
  function Admitted(incoming: seq<Incoming>): (n: nat)
    ensures n <= |incoming|
    ensures (forall i | 0 <= i < |incoming| :: incoming[i] != Connection(true)) ==> n == 0
  {
    if |incoming| == 0 then 0
    else match incoming[0]
      case AcceptError => 0
      case Connection(ok) => (if ok then 1 else 0) + Admitted(incoming[1..])
  }

  /** Whatever follows the first accept error is never looked at. */
  lemma {:induction false} AdmittedStopsAtError(before: seq<Incoming>, after: seq<Incoming>)
    ensures Admitted(before + [AcceptError] + after) == Admitted(before)
    decreases |before|
  {
    if |before| == 0 {
      assert (before + [AcceptError] + after)[0] == AcceptError;
    } else {
      assert (before + [AcceptError] + after)[1..] == before[1..] + [AcceptError] + after;
      AdmittedStopsAtError(before[1..], after);
    }
  }

  /** Without accept errors, exactly the connections whose `set_nonblocking` succeeds are admitted. */
  lemma {:induction false} AdmittedWithoutErrors(incoming: seq<Incoming>)
    requires forall i | 0 <= i < |incoming| :: incoming[i].Connection?
    ensures Admitted(incoming) == |Filter(incoming, (x: Incoming) => x == Connection(true))|
    decreases |incoming|
  {
    if |incoming| > 0 {
      var keep := (x: Incoming) => x == Connection(true);
      var rest := incoming[1..];
      AdmittedWithoutErrors(rest);
      assert incoming == [incoming[0]] + rest;
      FilterAppend([incoming[0]], rest, keep);
      assert Filter([incoming[0]], keep) == Filter([incoming[0]][..0], keep) + (if keep(incoming[0]) then [incoming[0]] else []);
    }
  }

  /** The ids start, start + 1, ..., start + n - 1. */
  function Ids(start: nat, n: nat): (r: seq<nat>)
    ensures |r| == n
    ensures forall i | 0 <= i < n :: r[i] == start + i
  {
    seq(n, i requires 0 <= i < n => start + i)
  }

  lemma AdmittedStep(incoming: seq<Incoming>, i: nat)
    requires i < |incoming|
    ensures incoming[i].AcceptError? ==> Admitted(incoming[i..]) == 0
    ensures incoming[i] == Connection(true) ==> Admitted(incoming[i..]) == 1 + Admitted(incoming[i + 1..])
    ensures incoming[i] == Connection(false) ==> Admitted(incoming[i..]) == Admitted(incoming[i + 1..])
  {
    assert incoming[i..][0] == incoming[i] && incoming[i..][1..] == incoming[i + 1..];
  }

  /** n empty queues. */
  function Empties(n: nat): (r: seq<seq<seq<byte>>>)
    ensures |r| == n
    ensures forall i | 0 <= i < n :: r[i] == []
  {
    seq(n, i requires 0 <= i < n => [])
  }


  /** The registry grew from (c0, q0, w0, l0) by n fresh clients with the next ids and nothing queued or written. */
  ghost predicate GrownBy(c0: seq<nat>, q0: seq<seq<seq<byte>>>, w0: seq<seq<seq<byte>>>, l0: seq<seq<seq<byte>>>,
                          clients: seq<nat>, queues: seq<seq<seq<byte>>>, written: seq<seq<seq<byte>>>,
                          log: seq<seq<seq<byte>>>, n: nat)
  {
    && clients == c0 + Ids(|q0|, n)
    && queues == q0 + Empties(n) && written == w0 + Empties(n) && log == l0 + Empties(n)
  }

  /** One more fresh client, with the next id, keeps the registry grown by one more. */
  lemma GrownBySnoc(c0: seq<nat>, q0: seq<seq<seq<byte>>>, w0: seq<seq<seq<byte>>>, l0: seq<seq<seq<byte>>>,
                    clients: seq<nat>, queues: seq<seq<seq<byte>>>, written: seq<seq<seq<byte>>>,
                    log: seq<seq<seq<byte>>>, n: nat)
    requires GrownBy(c0, q0, w0, l0, clients, queues, written, log, n)
    ensures |queues| == |q0| + n
    ensures GrownBy(c0, q0, w0, l0, clients + [|queues|], queues + [[]], written + [[]], log + [[]], n + 1)
  {
    assert Empties(n + 1) == Empties(n) + [[]];
    assert Ids(|q0|, n + 1) == Ids(|q0|, n) + [|q0| + n];
  }

  /**
   * Ids are distinct and below the next id |queues|, and a client whose
   * thread runs has written exactly the messages broadcast to it before the
   * ones still queued, in order.
   */
  ghost predicate Registry(clients: seq<nat>, queues: seq<seq<seq<byte>>>, written: seq<seq<seq<byte>>>,
                           log: seq<seq<seq<byte>>>, exited: set<nat>)
  {
    && Distinct(clients)
    && (forall i | 0 <= i < |clients| :: clients[i] < |queues|)
    && |written| == |queues| && |log| == |queues|
    && (forall c | c in exited :: c < |queues|)
    && (forall c | 0 <= c < |queues| && c !in exited :: written[c] + queues[c] == log[c])
  }

  /** Every client whose thread runs is still in the list. */
  ghost predicate LiveSendersKept(clients: seq<nat>, queues: seq<seq<seq<byte>>>, exited: set<nat>)
  {
    forall c | 0 <= c < |queues| && c !in exited :: c in clients
  }

  /** What `broadcast` does to the registry keeps both invariants. */
  lemma BroadcastKeepsRegistry(clients: seq<nat>, queues: seq<seq<seq<byte>>>, written: seq<seq<seq<byte>>>,
                               log: seq<seq<seq<byte>>>, exited: set<nat>, data: seq<byte>)
    requires Registry(clients, queues, written, log, exited)
    ensures var kept := Filter(clients, Alive(exited));
            Registry(kept, AppendAt(queues, kept, data), written, AppendAt(log, kept, data), exited)
    ensures var kept := Filter(clients, Alive(exited));
            LiveSendersKept(clients, queues, exited) ==> LiveSendersKept(kept, queues, exited)
  {
    var kept := Filter(clients, Alive(exited));
    FilterDistinct(clients, Alive(exited));
    forall i | 0 <= i < |kept|
      ensures kept[i] < |queues|
    {
      FilterMembers<nat>(clients, Alive(exited), kept[i]);
    }
    var q, l := AppendAt(queues, kept, data), AppendAt(log, kept, data);
    forall c | 0 <= c < |queues| && c !in exited
      ensures written[c] + q[c] == l[c]
    {
      if c in kept {
        assert written[c] + (queues[c] + [data]) == (written[c] + queues[c]) + [data];
      }
    }
    if LiveSendersKept(clients, queues, exited) {
      forall c | 0 <= c < |queues| && c !in exited
        ensures c in kept
      {
        FilterMembers<nat>(clients, Alive(exited), c);
      }
    }
  }

  class Server {
    /** The senders, by client id, in the order they were pushed. */
    var clients: seq<nat>
    /**
     * The messages waiting in each client's channel, oldest first, by id;
     * every client ever accepted has one, so the next id is |queues|.
     */
    var queues: seq<seq<seq<byte>>>
    /** What each client's thread has written to its socket, by id. */
    var written: seq<seq<seq<byte>>>
    /** Every message broadcast to each client while it was registered, by id. */
    ghost var log: seq<seq<seq<byte>>>
    /** The clients whose thread has exited. */
    var exited: set<nat>

    /** The registry invariant, on this server's fields. */
    ghost predicate Valid()
      reads this
    {
      Registry(clients, queues, written, log, exited)
    }

    /** A client leaves the list only after its thread has exited. */
    ghost predicate SendersOfLiveThreadsKept()
      reads this
    {
      LiveSendersKept(clients, queues, exited)
    }

    /** `Server::new`: no clients. */
    constructor ()
      ensures Valid() && SendersOfLiveThreadsKept()
      ensures clients == [] && queues == [] && written == [] && log == [] && exited == {}
    {
      clients := [];
      queues := [];
      written := [];
      log := [];
      exited := {};
    }

    /**
     * `accept_client`: when `set_nonblocking` succeeds, a new channel and
     * its thread are created and the sender is pushed at the end; when it
     * fails, nothing changes.
     */
    method AcceptClient(nonblockingOk: bool)
      requires Valid()
      modifies this
      ensures Valid()
      ensures old(SendersOfLiveThreadsKept()) ==> SendersOfLiveThreadsKept()
      ensures nonblockingOk ==>
                && old(|queues|) !in old(clients)
                && clients == old(clients) + [old(|queues|)]
                && queues == old(queues) + [[]] && written == old(written) + [[]]
                && log == old(log) + [[]] && exited == old(exited)
      ensures !nonblockingOk ==> unchanged(this)
    {
      if !nonblockingOk {
        return;
      }
      var id := |queues|;
      queues := queues + [[]];
      written := written + [[]];
      log := log + [[]];
      clients := clients + [id];
    }

    /**
     * `broadcast`: `retain` over the senders. A send to a client whose
     * thread is alive enqueues one copy of the data behind its queue and
     * keeps the client; a send to one whose thread has exited fails and
     * drops it. Survivors keep their order.
     */
    method Broadcast(data: seq<byte>)
      requires Valid()
      modifies this
      ensures Valid()
      ensures old(SendersOfLiveThreadsKept()) ==> SendersOfLiveThreadsKept()
      ensures clients == Filter(old(clients), Alive(old(exited)))
      ensures queues == AppendAt(old(queues), clients, data) && log == AppendAt(old(log), clients, data)
      ensures written == old(written) && exited == old(exited)
    {
      var kept, q, l := EnqueueToLive(data);
      BroadcastKeepsRegistry(clients, queues, written, log, exited, data);
      clients, queues, log := kept, q, l;
    }

    /** The `retain` loop of `broadcast`: which senders survive, and the queues and log they leave. */
    method EnqueueToLive(data: seq<byte>) returns (kept: seq<nat>, q: seq<seq<seq<byte>>>, ghost l: seq<seq<seq<byte>>>)
      requires Valid()
      ensures kept == Filter(clients, Alive(exited))
      ensures q == AppendAt(queues, kept, data) && l == AppendAt(log, kept, data)
    {
      var cs := clients;
      kept, q, l := [], queues, log;
      for i := 0 to |cs|
        invariant kept == Filter(cs[..i], Alive(exited))
        invariant q == AppendAt(queues, kept, data) && l == AppendAt(log, kept, data)
      {
        var c := cs[i];
        FilterSnoc(cs, i, Alive(exited));
        NotInFilteredPrefix(cs, i, Alive(exited));
        if c !in exited {
          AppendAtSnoc(queues, kept, c, data);
          AppendAtSnoc(log, kept, c, data);
          q := q[c := q[c] + [data]];
          l := l[c := l[c] + [data]];
          kept := kept + [c];
        }
      }
      assert cs[..|cs|] == cs;
    }

    /**
     * One pass of client c's thread loop, given the outcomes of its socket
     * read and write: the channel delivers as `RecvOf` says, the decision is
     * `ClientLoopDecision`, a message taken off the queue is gone whether or
     * not the write succeeds, and an exit marks the thread exited.
     */
    method ClientIteration(c: nat, readOk: bool, writeOk: bool) returns (d: Decision)
      requires Valid() && c < |queues| && c !in exited
      modifies this
      ensures Valid()
      ensures old(SendersOfLiveThreadsKept()) ==> SendersOfLiveThreadsKept()
      ensures d == ClientLoopDecision(readOk, RecvOf(old(queues)[c], c in old(clients)), writeOk)
      ensures var q := old(queues)[c];
              && queues == (if readOk && |q| > 0 then old(queues)[c := q[1..]] else old(queues))
              && written == (if readOk && |q| > 0 && writeOk then old(written)[c := old(written)[c] + [q[0]]]
                             else old(written))
      ensures exited == if d.Exit? then old(exited) + {c} else old(exited)
      ensures clients == old(clients) && log == old(log)
    {
      if !readOk {
        exited := exited + {c};
        return Exit;
      }
      var dataWasReceived := false;
      var dataWasSent: bool;
      if |queues[c]| > 0 {
        var data := queues[c][0];
        ghost var q := queues[c];
        queues := queues[c := queues[c][1..]];
        if !writeOk {
          exited := exited + {c};
          return Exit;
        }
        written := written[c := written[c] + [data]];
        assert written[c] + queues[c] == old(written)[c] + q by {
          assert [data] + q[1..] == q;
        }
        dataWasSent := true;
      } else if c in clients {
        dataWasSent := false;
      } else {
        exited := exited + {c};
        return Exit;
      }
      d := Continue(!dataWasSent && !dataWasReceived);
    }

    /**
     * `listen_for_incoming_connections`: when bind fails nothing happens;
     * otherwise each connection is handed to `accept_client` until the first
     * accept error ends the loop, so the admitted clients get the next ids
     * in order.
     */
    method ListenForIncomingConnections(bindOk: bool, incoming: seq<Incoming>)
      requires Valid()
      modifies this
      ensures Valid()
      ensures old(SendersOfLiveThreadsKept()) ==> SendersOfLiveThreadsKept()
      ensures !bindOk ==> unchanged(this)
      ensures bindOk ==>
                var n := Admitted(incoming);
                && clients == old(clients) + Ids(old(|queues|), n)
                && queues == old(queues) + Empties(n) && written == old(written) + Empties(n)
                && log == old(log) + Empties(n) && exited == old(exited)
    {
      if !bindOk {
        return;
      }
      var i := 0;
      ghost var n := 0;
      while i < |incoming|
        invariant 0 <= i <= |incoming| && Valid()
        invariant old(SendersOfLiveThreadsKept()) ==> SendersOfLiveThreadsKept()
        invariant n + Admitted(incoming[i..]) == Admitted(incoming)
        invariant GrownBy(old(clients), old(queues), old(written), old(log), clients, queues, written, log, n)
        invariant exited == old(exited)
      {
        AdmittedStep(incoming, i);
        match incoming[i]
        case AcceptError =>
          return;
        case Connection(ok) =>
          GrownBySnoc(old(clients), old(queues), old(written), old(log), clients, queues, written, log, n);
          AcceptClient(ok);
          if ok {
            n := n + 1;
          }
        i := i + 1;
      }
    }
  }
}

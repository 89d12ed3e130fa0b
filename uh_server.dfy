/**
 * The client list of the legacy `uhrecorder` crate
 * (`uhrecorder/src/server.rs`). Clients are numbered in the order they were
 * accepted; `written` holds, for each, the buffers its socket accepted. The
 * outcomes of the socket calls are inputs: for `poll` and `broadcast`, one
 * outcome per client for that call; for the accept loop, one record per
 * item of `listener.incoming()`.
 */
module UhServer {
  import opened Wrappers
  import opened Bytes
  import opened Seqs
  import opened Io
  import UhProtocol

  /**
   * The `std::io::ErrorKind`s the code tells apart, and the rest. `poll`
   * does not look at the kind of a failed read: it decides on the raw OS
   * error code alone.
   */
  datatype ErrorKind = AddrInUse | OtherKind

  /** A `std::io::Error`: its kind and its raw OS error code, when it has one. */
  datatype IoError = IoError(kind: ErrorKind, rawOsError: Option<int>)

  datatype ServerError = AddressInUse | Other

  /** `From<Error> for ServerError`. */
  function FromIoError(e: IoError): (r: ServerError)
    ensures r == AddressInUse <==> e.kind == AddrInUse
    ensures r == Other <==> e.kind != AddrInUse
  {
    match e.kind
    case AddrInUse => AddressInUse
    case _ => Other
  }

  /** Whether `poll` keeps a client after its `read_to_end`: on success, and on raw OS error 11 (EAGAIN). */
  function KeptByPoll(read: Result<(), IoError>): (keep: bool)
    ensures keep <==> read.Ok? || read.error.rawOsError == Some(11)
  {
    match read
    case Ok(_) => true
    case Err(e) =>
      match e.rawOsError
      case Some(code) => code == 11
      case None => false
  }

  /** The clients `poll` keeps, given each client's read outcome on this call. */
  function PollKeeps(readOutcome: nat -> Result<(), IoError>): nat -> bool
  {
    (c: nat) => KeptByPoll(readOutcome(c))
  }

  /** One item of `listener.incoming()`, with the outcomes of what the loop then does. */
  datatype Incoming =
    | AcceptFailed(pollReadOutcome: nat -> Result<(), IoError>, error: IoError)
    | Accepted(pollReadOutcome: nat -> Result<(), IoError>, localAddr: Option<IoError>,
               nonblocking: Option<IoError>, writes: nat -> Option<IoError>)

  /** The client list and what each client's socket accepted, by client number. */
  datatype Registry = Registry(clients: seq<nat>, written: seq<seq<seq<byte>>>)

  /** The registry after `poll`. */
  function Polled(st: Registry, readOutcome: nat -> Result<(), IoError>): (r: Registry)
    ensures r.written == st.written
    ensures forall c :: c in r.clients <==> c in st.clients && KeptByPoll(readOutcome(c))
  {
    var kept := Filter(st.clients, PollKeeps(readOutcome));
    assert forall c :: c in kept <==> c in st.clients && KeptByPoll(readOutcome(c)) by {
      forall c ensures c in kept <==> c in st.clients && KeptByPoll(readOutcome(c)) {
        FilterMembers(st.clients, PollKeeps(readOutcome), c);
      }
    }
    Registry(kept, st.written)
  }

  /**
   * One pass of the accept loop: poll, then for a connection its address,
   * `set_nonblocking(true)` and `send_constants`, any error of which ends
   * listening with that error; a connection that got through all three is
   * pushed, and an accept error is only logged.
   */
  function Advance(st: Registry, fighters: seq<UhProtocol.Kind>, item: Incoming)
    : (r: (Registry, Option<ServerError>))
    ensures var admitted := item.Accepted? && r.1.None?;
            r.0.written == st.written + if admitted then [UhProtocol.ConstantWrites(fighters)] else []
  {
    var polled := Polled(st, item.pollReadOutcome);
    match item
    case AcceptFailed(_, _) => (polled, None)
    case Accepted(_, localAddr, nonblocking, writes) =>
      if localAddr.Some? then (polled, Some(FromIoError(localAddr.value)))
      else if nonblocking.Some? then (polled, Some(FromIoError(nonblocking.value)))
      else
        var run := SendAll(UhProtocol.ConstantWrites(fighters), writes, 0);
        if run.error.Some? then (polled, Some(FromIoError(run.error.value)))
        else (Registry(polled.clients + [|polled.written|], polled.written + [UhProtocol.ConstantWrites(fighters)]), None)
  }

  /** The accept loop from the current item on, until an error or the end of the items. */
  function Listening(st: Registry, fighters: seq<UhProtocol.Kind>, incoming: seq<Incoming>)
    : (r: (Registry, Result<(), ServerError>))
    decreases |incoming|
  {
    if |incoming| == 0 then (st, Ok(()))
    else
      var (next, error) := Advance(st, fighters, incoming[0]);
      if error.Some? then (next, Err(error.value)) else Listening(next, fighters, incoming[1..])
  }

  /** The registry is consistent: client numbers are distinct and have a socket record. */
  predicate Consistent(st: Registry)
  {
    Distinct(st.clients) && forall i | 0 <= i < |st.clients| :: st.clients[i] < |st.written|
  }

  // ---------------------------------------------------------------------
  // Properties

  /** poll keeps a consistent registry consistent and the survivors in order. */
  lemma PollKeepsOrder(st: Registry, readOutcome: nat -> Result<(), IoError>)
    requires Consistent(st)
    ensures Consistent(Polled(st, readOutcome))
    ensures IsSubseq(Polled(st, readOutcome).clients, st.clients)
  {
    FilterDistinct(st.clients, PollKeeps(readOutcome));
    FilterIsSubseq(st.clients, PollKeeps(readOutcome));
  }

  /** Pushing a fresh client number onto a consistent registry keeps it consistent. */
  lemma AdmitKeepsConsistent(st: Registry, sent: seq<seq<byte>>)
    requires Consistent(st)
    ensures Consistent(Registry(st.clients + [|st.written|], st.written + [sent]))
  {
    var next := Registry(st.clients + [|st.written|], st.written + [sent]);
    assert |st.written| !in st.clients;
    assert forall i | 0 <= i < |st.clients| :: next.clients[i] == st.clients[i];
  }

  /** One pass keeps the registry consistent, and every client it ends with was there before or is new. */
  lemma AdvanceKeepsConsistent(st: Registry, fighters: seq<UhProtocol.Kind>, item: Incoming)
    requires Consistent(st)
    ensures var st' := Advance(st, fighters, item).0;
            && Consistent(st') && |st'.written| >= |st.written|
            && (forall c | c in st'.clients :: c in st.clients || c >= |st.written|)
  {
    var polled := Polled(st, item.pollReadOutcome);
    PollKeepsOrder(st, item.pollReadOutcome);
    AdmitKeepsConsistent(polled, UhProtocol.ConstantWrites(fighters));
  }

  /** Listening keeps the registry consistent, and every client it ends with was there before or is new. */
  lemma {:induction false} ListeningKeepsConsistent(st: Registry, fighters: seq<UhProtocol.Kind>,
                                                    incoming: seq<Incoming>)
    requires Consistent(st)
    ensures var st' := Listening(st, fighters, incoming).0;
            && Consistent(st') && |st'.written| >= |st.written|
            && (forall c | c in st'.clients :: c in st.clients || c >= |st.written|)
    decreases |incoming|
  {
    if |incoming| > 0 {
      var (next, error) := Advance(st, fighters, incoming[0]);
      AdvanceKeepsConsistent(st, fighters, incoming[0]);
      if error.None? {
        ListeningKeepsConsistent(next, fighters, incoming[1..]);
      }
    }
  }

  /** n copies of x. */
  function Copies<T>(x: T, n: nat): (r: seq<T>)
    ensures |r| == n && forall i | 0 <= i < n :: r[i] == x
  {
    seq(n, i requires 0 <= i < n => x)
  }

  /**
   * Listening never touches what existing clients were sent, and every
   * client it adds has been sent exactly the constants dump and nothing
   * else.
   */
  lemma {:induction false} ListeningAdmitsAfterConstants(st: Registry, fighters: seq<UhProtocol.Kind>,
                                                         incoming: seq<Incoming>)
    ensures var st' := Listening(st, fighters, incoming).0;
            && |st'.written| >= |st.written|
            && st'.written == st.written + Copies(UhProtocol.ConstantWrites(fighters), |st'.written| - |st.written|)
    decreases |incoming|
  {
    var cw := UhProtocol.ConstantWrites(fighters);
    if |incoming| == 0 {
      assert st.written + Copies(cw, 0) == st.written;
    } else {
      var (next, error) := Advance(st, fighters, incoming[0]);
      if error.Some? {
        assert next.written == st.written + Copies(cw, |next.written| - |st.written|);
      } else {
        ListeningAdmitsAfterConstants(next, fighters, incoming[1..]);
        var st' := Listening(next, fighters, incoming[1..]).0;
        var k := |st'.written| - |next.written|;
        var added := if incoming[0].Accepted? then [cw] else [];
        assert st'.written == st.written + (added + Copies(cw, k));
        assert added + Copies(cw, k) == Copies(cw, |added| + k);
      }
    }
  }

  /** Unlike the other crate's accept loop, accept errors alone never end listening with an error. */
  lemma {:induction false} AcceptErrorsAreSkipped(st: Registry, fighters: seq<UhProtocol.Kind>, incoming: seq<Incoming>)
    requires forall i | 0 <= i < |incoming| :: incoming[i].AcceptFailed?
    ensures Listening(st, fighters, incoming).1 == Ok(())
    ensures Listening(st, fighters, incoming).0.written == st.written
    decreases |incoming|
  {
    if |incoming| > 0 {
      AcceptErrorsAreSkipped(Polled(st, incoming[0].pollReadOutcome), fighters, incoming[1..]);
    }
  }

  /** A listening run that fails reports the kind of the error that stopped it. */
  lemma {:induction false} ListeningErrorIsMapped(st: Registry, fighters: seq<UhProtocol.Kind>, incoming: seq<Incoming>)
    ensures var r := Listening(st, fighters, incoming).1;
            r.Err? ==> exists i | 0 <= i < |incoming| :: incoming[i].Accepted? && CausedBy(incoming[i], fighters, r.error)
    decreases |incoming|
  {
    if |incoming| > 0 {
      var polled := Polled(st, incoming[0].pollReadOutcome);
      var r := Listening(st, fighters, incoming).1;
      match incoming[0]
      case AcceptFailed(_, _) =>
        ListeningErrorIsMapped(polled, fighters, incoming[1..]);
        if r.Err? {
          var i :| 0 <= i < |incoming[1..]| && incoming[1..][i].Accepted? && CausedBy(incoming[1..][i], fighters, r.error);
          assert incoming[i + 1] == incoming[1..][i];
        }
      case Accepted(_, localAddr, nonblocking, writes) =>
        var run := SendAll(UhProtocol.ConstantWrites(fighters), writes, 0);
        if localAddr.None? && nonblocking.None? && run.error.None? {
          var next := Registry(polled.clients + [|polled.written|],
                               polled.written + [UhProtocol.ConstantWrites(fighters)]);
          ListeningErrorIsMapped(next, fighters, incoming[1..]);
          if r.Err? {
            var i :| 0 <= i < |incoming[1..]| && incoming[1..][i].Accepted? && CausedBy(incoming[1..][i], fighters, r.error);
            assert incoming[i + 1] == incoming[1..][i];
          }
        } else {
          assert CausedBy(incoming[0], fighters, r.error);
        }
    }
  }

  /** The server error e comes from one of the connection's failed calls. */
  predicate CausedBy(item: Incoming, fighters: seq<UhProtocol.Kind>, e: ServerError)
    requires item.Accepted?
  {
    var run := SendAll(UhProtocol.ConstantWrites(fighters), item.writes, 0);
    || (item.localAddr.Some? && e == FromIoError(item.localAddr.value))
    || (item.nonblocking.Some? && e == FromIoError(item.nonblocking.value))
    || (run.error.Some? && e == FromIoError(run.error.value))
  }

  /** Dropping clients keeps the registry consistent. */
  lemma RetainKeepsConsistent(st: Registry, keep: nat -> bool)
    requires Consistent(st)
    ensures Consistent(Registry(Filter(st.clients, keep), st.written))
  {
    var kept := Filter(st.clients, keep);
    FilterDistinct(st.clients, keep);
    forall j | 0 <= j < |kept|
      ensures kept[j] < |st.written|
    {
      FilterMembers<nat>(st.clients, keep, kept[j]);
    }
  }

  // ---------------------------------------------------------------------
  // The server

  class Server {
    var clients: seq<nat>
    var written: seq<seq<seq<byte>>>

    function Snap(): Registry
      reads this
    {
      Registry(clients, written)
    }

    /** `Server::new`: no clients. */
    constructor ()
      ensures clients == [] && written == [] && Consistent(Snap())
    {
      clients := [];
      written := [];
    }

    /** `poll`: `retain` the clients whose `read_to_end` succeeds or fails with EAGAIN; order is kept. */
    method Poll(readOutcome: nat -> Result<(), IoError>)
      modifies this
      ensures Snap() == Polled(old(Snap()), readOutcome)
    {
      var kept: seq<nat> := [];
      for i := 0 to |clients|
        invariant kept == Filter(clients[..i], PollKeeps(readOutcome))
      {
        assert clients[..i + 1][..i] == clients[..i];
        if KeptByPoll(readOutcome(clients[i])) {
          kept := kept + [clients[i]];
        }
      }
      assert clients[..|clients|] == clients;
      clients := kept;
    }

    /**
     * `broadcast`: poll, then write data to each remaining client, keeping
     * those whose write succeeds (in order) and dropping the others.
     */
    method Broadcast(data: seq<byte>, readOutcome: nat -> Result<(), IoError>, writeOk: nat -> bool)
      requires Consistent(Snap())
      modifies this
      ensures Consistent(Snap())
      ensures clients == Filter(Polled(old(Snap()), readOutcome).clients, writeOk)
      ensures written == AppendAt(old(written), clients, data)
    {
      Poll(readOutcome);
      PollKeepsOrder(old(Snap()), readOutcome);
      RetainWritable(data, writeOk);
    }

    /** The `retain` of `broadcast`: one write per client, in order; a failed write drops the client. */
    method RetainWritable(data: seq<byte>, writeOk: nat -> bool)
      requires Consistent(Snap())
      modifies this
      ensures Consistent(Snap())
      ensures clients == Filter(old(clients), writeOk)
      ensures written == AppendAt(old(written), clients, data)
    {
      var cs, w := clients, written;
      var kept: seq<nat> := [];
      for i := 0 to |cs|
        modifies {}
        invariant kept == Filter(cs[..i], writeOk)
        invariant w == AppendAt(written, kept, data)
      {
        var c := cs[i];
        FilterSnoc(cs, i, writeOk);
        NotInFilteredPrefix(cs, i, writeOk);
        if writeOk(c) {
          AppendAtSnoc(written, kept, c, data);
          w := w[c := w[c] + [data]];
          kept := kept + [c];
        }
      }
      assert cs[..|cs|] == cs;
      RetainKeepsConsistent(Snap(), writeOk);
      clients, written := kept, w;
    }

    /**
     * `listen_for_incoming_connections`: bind and the listener's address
     * must succeed, else their error is returned; then the accept loop runs
     * as `Listening` says.
     */
    method ListenForIncomingConnections(bind: Option<IoError>, localAddr: Option<IoError>,
                                        fighters: seq<UhProtocol.Kind>, incoming: seq<Incoming>)
      returns (r: Result<(), ServerError>)
      modifies this
      ensures bind.Some? ==> r == Err(FromIoError(bind.value)) && Snap() == old(Snap())
      ensures bind.None? && localAddr.Some? ==> r == Err(FromIoError(localAddr.value)) && Snap() == old(Snap())
      ensures bind.None? && localAddr.None? ==> (Snap(), r) == Listening(old(Snap()), fighters, incoming)
    {
      if bind.Some? {
        return Err(FromIoError(bind.value));
      }
      if localAddr.Some? {
        return Err(FromIoError(localAddr.value));
      }
      var i := 0;
      while i < |incoming|
        invariant 0 <= i <= |incoming|
        invariant Listening(Snap(), fighters, incoming[i..]) == Listening(old(Snap()), fighters, incoming)
      {
        var item := incoming[i];
        assert incoming[i..][0] == item && incoming[i..][1..] == incoming[i + 1..];
        Poll(item.pollReadOutcome);
        match item {
          case AcceptFailed(_, _) =>
          case Accepted(_, la, nb, writes) =>
            if la.Some? {
              return Err(FromIoError(la.value));
            }
            if nb.Some? {
              return Err(FromIoError(nb.value));
            }
            var stream := new Stream<IoError>(writes);
            var sent := UhProtocol.SendConstants(stream, fighters);
            if sent.Err? {
              return Err(FromIoError(sent.error));
            }
            assert stream.sent == UhProtocol.ConstantWrites(fighters);
            clients := clients + [|written|];
            written := written + [stream.sent];
        }
        i := i + 1;
      }
      r := Ok(());
    }
  }
}

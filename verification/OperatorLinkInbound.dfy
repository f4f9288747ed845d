/** What the channel reads is what the daemon sent: every answer that counts is a whole
    line of the text that arrived on its connection. (src/helper/operator-channel.ts) */
module OperatorLinkInbound {
  import opened Collections
  import opened Json
  import opened OperatorProtocol
  import opened OperatorLink
  import opened OperatorLinkRuns
  import opened OperatorLinkHistory

  /** The lines heard on a connection, each with its newline. */
  function Lines(heard: seq<Heard>, conn: Conn): Text {
    if heard == [] then []
    else
      var last := heard[|heard| - 1];
      Lines(heard[..|heard| - 1], conn) + if last.conn == conn then last.line + [NEWLINE] else []
  }

  /** All that arrived on a connection while it was the channel's. */
  function Arrived(c: Config, l: Link, events: seq<Event>, conn: Conn): Text {
    if events == [] then []
    else
      var front, e := events[..|events| - 1], events[|events| - 1];
      Arrived(c, l, front, conn)
      + if e.DataArrives? && e.conn == conn && Run(c, l, front).sock == Some(conn) then e.chunk else []
  }

  /** The lines heard begin what arrived; on the current connection the buffer is the
      rest of it. */
  predicate Accounted(l: Link, conn: Conn, arrived: Text) {
    && Lines(l.history.heard, conn) <= arrived
    && (l.sock == Some(conn) ==> arrived == Lines(l.history.heard, conn) + l.buf)
    && (conn >= l.nextConn ==> arrived == [] && Lines(l.history.heard, conn) == [])
  }

  lemma RestLines(l: Link, conn: Conn, k: Conn)
    requires LineEnd(l.buf) < |l.buf|
    ensures var r := Rest(l, conn);
            if k == conn then Lines(r.history.heard, k) + r.buf == Lines(l.history.heard, k) + l.buf
            else Lines(r.history.heard, k) == Lines(l.history.heard, k)
  {
    var n, r := LineEnd(l.buf), Rest(l, conn);
    assert r.history.heard[..|l.history.heard|] == l.history.heard;
    assert l.buf == l.buf[..n] + [NEWLINE] + l.buf[n + 1..];
  }

  /** From the one to the other lines have gone from the buffer to those heard. */
  predicate Moved(l: Link, m: Link, conn: Conn, k: Conn) {
    && m.nextConn == l.nextConn && (m.sock == l.sock || m.sock.None?)
    && (if k == conn then Lines(m.history.heard, k) + m.buf == Lines(l.history.heard, k) + l.buf
        else Lines(m.history.heard, k) == Lines(l.history.heard, k))
  }

  lemma TurnLines(c: Config, l: Link, conn: Conn, k: Conn)
    requires Inv(c, l) && l.sock == Some(conn) && LineEnd(l.buf) < |l.buf|
    ensures Inv(c, Turned(c, l, conn)) && Moved(l, Turned(c, l, conn), conn, k)
  {
    RestLines(l, conn, k);
    RestKeeps(c, l, conn);
    LineAdds(c, Rest(l, conn), conn, l.buf[..LineEnd(l.buf)]);
    TurnKeeps(c, l, conn);
  }

  lemma {:induction false} ConsumeLines(c: Config, l: Link, conn: Conn, k: Conn)
    requires Inv(c, l) && l.sock == Some(conn)
    ensures Moved(l, Consume(c, l, conn), conn, k)
    decreases |l.buf|
  {
    if LineEnd(l.buf) < |l.buf| {
      RestLines(l, conn, k);
      if LineEnd(l.buf) <= MAX_FRAME_BYTES {
        TurnLines(c, l, conn, k);
        TurnShrinks(c, l, conn);
        var t := Turned(c, l, conn);
        if t.sock == Some(conn) { ConsumeLines(c, t, conn, k); }
      }
    }
  }

  lemma DataAccounted(c: Config, l: Link, conn: Conn, chunk: Text, k: Conn, arrived: Text)
    requires Inv(c, l) && l.sock == Some(conn) && Accounted(l, k, arrived)
    ensures Accounted(OnData(c, l, conn, chunk), k, if k == conn then arrived + chunk else arrived)
  {
    var b := l.(buf := l.buf + chunk);
    BufKeeps(c, l, l.buf + chunk);
    ConsumeLines(c, b, conn, k);
    Regroup(Lines(l.history.heard, conn), l.buf, chunk);
  }

  /** Nothing was heard, and the connection is the same, lost, or another. */
  lemma SameHeardAccounted(l: Link, l': Link, k: Conn, arrived: Text)
    requires Accounted(l, k, arrived) && l'.history.heard == l.history.heard
    requires l.nextConn <= l'.nextConn
    requires l'.sock == Some(k) ==> (l.sock == Some(k) && l'.buf == l.buf) || (k >= l.nextConn && l'.buf == [])
    ensures Accounted(l', k, arrived)
  {
  }

  lemma RetryOpens(l: Link, check: SocketCheck, nonce: Text)
    ensures var l' := OnRetry(l, check, nonce);
            && l'.history.heard == l.history.heard && l.nextConn <= l'.nextConn
            && ((l'.sock == l.sock && l'.buf == l.buf) || (l'.sock == Some(l.nextConn) && l'.buf == []))
  {
  }

  lemma OthersAccounted(c: Config, l: Link, e: Event, k: Conn, arrived: Text)
    requires Inv(c, l) && !e.DataArrives? && Accounted(l, k, arrived)
    ensures Accounted(Step(c, l, e), k, arrived)
  {
    if e.RetryFires? {
      RetryOpens(l, e.check, e.nonce);
    } else {
      StepGrows(c, l, e);
    }
    SameHeardAccounted(l, Step(c, l, e), k, arrived);
  }

  lemma StepAccounted(c: Config, l: Link, e: Event, k: Conn, arrived: Text)
    requires Inv(c, l) && Accounted(l, k, arrived)
    ensures Accounted(Step(c, l, e), k,
                      arrived + if e.DataArrives? && e.conn == k && l.sock == Some(k) then e.chunk else [])
  {
    assert arrived + [] == arrived;
    if e.DataArrives? {
      if l.sock == Some(e.conn) { DataAccounted(c, l, e.conn, e.chunk, k, arrived); }
    } else {
      OthersAccounted(c, l, e, k, arrived);
    }
  }

  /** On every connection of every run the lines heard are, in order and with their
      newlines, the beginning of what arrived there, and on the current one the buffer
      is the rest: nothing is made up, left out or taken from elsewhere. */
  lemma {:induction false} HeardIsWhatArrived(
    c: Config, check: SocketCheck, nonce: Text, events: seq<Event>, conn: Conn)
    requires ValidConfig(c) && |nonce| == 32
    ensures Accounted(Run(c, Started(check, nonce), events), conn, Arrived(c, Started(check, nonce), events, conn))
  {
    var start := Started(check, nonce);
    if events != [] {
      var front := events[..|events| - 1];
      HeardIsWhatArrived(c, check, nonce, front, conn);
      RunInv(c, check, nonce, front);
      StepAccounted(c, Run(c, start, front), events[|events| - 1], conn, Arrived(c, start, front, conn));
    }
  }

  predicate AllHeard(c: Config, h: History) { forall r :: r in h.readings ==> IsHeard(c, h, r) }

  lemma StillHeard(c: Config, h: History, h': History)
    requires AllHeard(c, h) && Grows(h, h') && ReadsAreHeard(c, h, h')
    ensures AllHeard(c, h')
  {
    forall k | 0 <= k < |h'.readings| ensures IsHeard(c, h', h'.readings[k]) {
      if k < |h.readings| {
        assert h.readings[k] in h.readings;
        var n :| 0 <= n < |h.heard| && HeardAs(c, h.heard[n], h.readings[k]);
        assert HeardAs(c, h'.heard[n], h'.readings[k]);
      }
    }
  }

  /** Every reading of every run is of a line that was heard on its connection. */
  lemma {:induction false} ReadingsAreHeard(c: Config, check: SocketCheck, nonce: Text, events: seq<Event>)
    requires ValidConfig(c) && |nonce| == 32
    ensures AllHeard(c, Run(c, Started(check, nonce), events).history)
  {
    if events != [] {
      var front := events[..|events| - 1];
      var l := Run(c, Started(check, nonce), front);
      ReadingsAreHeard(c, check, nonce, front);
      RunInv(c, check, nonce, front);
      StepGrows(c, l, events[|events| - 1]);
      StillHeard(c, l.history, Step(c, l, events[|events| - 1]).history);
    }
  }
}

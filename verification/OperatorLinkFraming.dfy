/** How the socket cuts the daemon's bytes into chunks makes no difference to what
    the channel does. (src/helper/operator-channel.ts, `#onData`) */
module OperatorLinkFraming {
  import opened Json
  import opened OperatorProtocol
  import opened OperatorFrames
  import opened OperatorLink

  function WithBuf(l: Link, t: Text): Link { l.(buf := t) }

  lemma SendIgnoresBuf(l: Link, line: Line, t: Text)
    ensures Send(WithBuf(l, t), line) == WithBuf(Send(l, line), t)
  {
  }

  lemma SettleIgnoresBuf(l: Link, id: AskId, r: Result, t: Text)
    ensures Settle(WithBuf(l, t), id, r) == WithBuf(Settle(l, id, r), t)
  {
  }

  lemma {:induction false} SettleAllIgnoresBuf(l: Link, ps: seq<Pending>, t: Text)
    ensures SettleAll(WithBuf(l, t), ps) == WithBuf(SettleAll(l, ps), t)
    decreases |ps|
  {
    if ps != [] {
      SettleIgnoresBuf(l, ps[0].id, Failed(ChannelClosed), t);
      SettleAllIgnoresBuf(Settle(l, ps[0].id, Failed(ChannelClosed)), ps[1..], t);
    }
  }

  lemma {:induction false} ResendIgnoresBuf(l: Link, ps: seq<Pending>, t: Text)
    ensures ResendAll(WithBuf(l, t), ps) == WithBuf(ResendAll(l, ps), t)
    decreases |ps|
  {
    if ps != [] {
      SendIgnoresBuf(l, Line.Ask(ps[0].frame), t);
      ResendIgnoresBuf(Send(l, Line.Ask(ps[0].frame)), ps[1..], t);
    }
  }

  lemma CloseIgnoresBuf(l: Link, t: Text)
    ensures Close(WithBuf(l, t)) == WithBuf(Close(l), t)
  {
    SettleAllIgnoresBuf(Shut(l), l.pending, t);
    assert Shut(WithBuf(l, t)) == WithBuf(Shut(l), t);
  }

  lemma WelcomeIgnoresBuf(c: Config, l: Link, conn: Conn, f: Fields, t: Text)
    ensures OnWelcome(c, WithBuf(l, t), conn, f) == WithBuf(OnWelcome(c, l, conn, f), t)
  {
    CloseIgnoresBuf(l, t);
    if "nonce" in f && f["nonce"].Str? { AuthenticatedIgnoresBuf(c, l, conn, f["nonce"].s, Field(f, "proof"), t); }
  }

  lemma AuthenticatedIgnoresBuf(c: Config, l: Link, conn: Conn, nonce: Text, proof: Option<Json>, t: Text)
    ensures Authenticated(c, WithBuf(l, t), conn, nonce, proof) == WithBuf(Authenticated(c, l, conn, nonce, proof), t)
  {
    var m := l.(daemonNonce := nonce, state := AuthSent,
                history := l.history.(proven := l.history.proven[conn := Proven(nonce, proof)]));
    SendIgnoresBuf(m, Note(Auth(c.proof(c.token, BrowxaiRole, l.helloNonce, nonce))), t);
  }

  lemma ReadyIgnoresBuf(l: Link, conn: Conn, f: Fields, t: Text)
    ensures OnReady(WithBuf(l, t), conn, f) == WithBuf(OnReady(l, conn, f), t)
  {
    var r := l.(handshake := false, state := Ready, backoff := BACKOFF_START_MS);
    ResendIgnoresBuf(r, r.pending, t);
    assert WithBuf(l, t).(handshake := false, state := Ready, backoff := BACKOFF_START_MS) == WithBuf(r, t);
  }

  lemma AcceptIgnoresBuf(l: Link, id: AskId, f: Fields, a: Answer, t: Text)
    ensures AcceptAnswer(WithBuf(l, t), id, f, a) == WithBuf(AcceptAnswer(l, id, f, a), t)
  {
    var s := Send(l, Note(Resolved(id, OutcomeOf(a.decision), ByOperator)));
    SendIgnoresBuf(l, Note(Resolved(id, OutcomeOf(a.decision), ByOperator)), t);
    var n := s.(history := s.history.(readings := s.history.readings + [Reading(id, l.sock, l.state, f)]));
    SettleIgnoresBuf(n, id, Answered(a), t);
  }

  lemma AnswerIgnoresBuf(l: Link, f: Fields, t: Text)
    ensures OnAnswer(WithBuf(l, t), f) == WithBuf(OnAnswer(l, f), t)
  {
    var id := IdOf(f);
    match Find(l.pending, id)
    case None => SendIgnoresBuf(l, Note(UnknownRequest(Prefix(id, 64))), t);
    case Some(p) =>
      match CheckAnswer(p.rules, f) {
        case Rejected(code) => SendIgnoresBuf(l, Note(BadAnswer(id, code)), t);
        case Accepted(d, v, g) => AcceptIgnoresBuf(l, id, f, Answer(d, v, g), t);
      }
  }

  lemma ViewIgnoresBuf(c: Config, l: Link, f: Fields, t: Text)
    ensures OnView(c, WithBuf(l, t), f) == WithBuf(OnView(c, l, f), t)
  {
    var n := ViewDisabled(if "session" in f && f["session"].Str? then Some(Prefix(f["session"].s, 128)) else None);
    SendIgnoresBuf(l, Note(n), t);
  }

  /** What a line does depends on nothing that follows it in the buffer. */
  lemma LineIgnoresBuf(c: Config, l: Link, conn: Conn, line: Text, t: Text)
    ensures OnLine(c, WithBuf(l, t), conn, line) == WithBuf(OnLine(c, l, conn, line), t)
  {
    var f := FrameOf(c, line);
    if f.Some? {
      WelcomeIgnoresBuf(c, l, conn, f.value, t);
      ReadyIgnoresBuf(l, conn, f.value, t);
      AnswerIgnoresBuf(l, f.value, t);
      ViewIgnoresBuf(c, l, f.value, t);
    }
  }

  lemma {:induction false} LineEndExtends(a: Text, b: Text)
    requires LineEnd(a) < |a|
    ensures LineEnd(a + b) == LineEnd(a)
  {
    if a[0] != NEWLINE {
      assert (a + b)[1..] == a[1..] + b;
      LineEndExtends(a[1..], b);
    }
  }

  lemma RestWithMore(l: Link, conn: Conn, b: Text)
    requires LineEnd(l.buf) < |l.buf|
    ensures var n := LineEnd(l.buf);
            && LineEnd(l.buf + b) == n && (l.buf + b)[..n] == l.buf[..n]
            && Rest(WithBuf(l, l.buf + b), conn) == WithBuf(Rest(l, conn), l.buf[n + 1..] + b)
  {
    LineEndExtends(l.buf, b);
    var n := LineEnd(l.buf);
    assert (l.buf + b)[..n] == l.buf[..n] && (l.buf + b)[n + 1..] == l.buf[n + 1..] + b;
  }

  lemma TurnWithMore(c: Config, l: Link, conn: Conn, b: Text)
    requires LineEnd(l.buf) < |l.buf|
    ensures LineEnd(l.buf + b) == LineEnd(l.buf)
    ensures Turned(c, WithBuf(l, l.buf + b), conn) == WithBuf(Turned(c, l, conn), Turned(c, l, conn).buf + b)
  {
    var n := LineEnd(l.buf);
    RestWithMore(l, conn, b);
    LineIgnoresBuf(c, Rest(l, conn), conn, l.buf[..n], l.buf[n + 1..] + b);
    LineKeepsBuf(c, Rest(l, conn), conn, l.buf[..n]);
  }

  lemma {:induction false} ConsumeWithMore(c: Config, l: Link, conn: Conn, b: Text)
    requires var m := Consume(c, l, conn); m.sock == Some(conn) && conn !in m.destroyed
    ensures var m := Consume(c, l, conn);
            Consume(c, WithBuf(m, m.buf + b), conn) == Consume(c, WithBuf(l, l.buf + b), conn)
    decreases |l.buf|
  {
    if LineEnd(l.buf) < |l.buf| && l.sock == Some(conn) && LineEnd(l.buf) <= MAX_FRAME_BYTES {
      TurnShrinks(c, l, conn);
      ConsumeTurns(c, l, conn);
      ConsumeWithMore(c, Turned(c, l, conn), conn, b);
      TurnWithMore(c, l, conn, b);
      ConsumeTurns(c, WithBuf(l, l.buf + b), conn);
    }
  }

  lemma ConsumeTurns(c: Config, l: Link, conn: Conn)
    requires LineEnd(l.buf) < |l.buf| && LineEnd(l.buf) <= MAX_FRAME_BYTES && l.sock == Some(conn)
    ensures Consume(c, l, conn) == Consume(c, Turned(c, l, conn), conn)
  {
    TurnShrinks(c, l, conn);
  }

  lemma DataIsConsumed(c: Config, l: Link, conn: Conn, t: Text)
    requires l.sock == Some(conn)
    ensures OnData(c, l, conn, t) == Consume(c, WithBuf(l, l.buf + t), conn)
  {
  }

  lemma BufJoins(l: Link, a: Text, b: Text)
    ensures WithBuf(WithBuf(l, l.buf + a), WithBuf(l, l.buf + a).buf + b) == WithBuf(l, l.buf + (a + b))
  {
    assert l.buf + a + b == l.buf + (a + b);
  }

  /** Two chunks do what their concatenation does, as long as the first leaves the
      connection standing. */
  lemma ChunksDoNotMatter(c: Config, l: Link, conn: Conn, a: Text, b: Text)
    requires var m := OnData(c, l, conn, a); m.sock == Some(conn) && conn !in m.destroyed
    ensures OnData(c, OnData(c, l, conn, a), conn, b) == OnData(c, l, conn, a + b)
  {
    if l.sock == Some(conn) {
      DataIsConsumed(c, l, conn, a);
      DataIsConsumed(c, OnData(c, l, conn, a), conn, b);
      DataIsConsumed(c, l, conn, a + b);
      ConsumeWithMore(c, WithBuf(l, l.buf + a), conn, b);
      BufJoins(l, a, b);
    }
  }
}

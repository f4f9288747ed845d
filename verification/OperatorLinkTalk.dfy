/** What a step of the channel does for the live view: which frames it hands over, and
    from where; when it loses its connection; and that the only lines it keeps back for
    their size are the live view's. (src/helper/operator-channel.ts) */
module OperatorLinkTalk {
  import opened Json
  import opened OperatorProtocol
  import Frames = OperatorFrames
  import VS = ViewStream
  import opened OperatorLink
  import opened OperatorLinkRuns
  import opened OperatorLinkHistory

  /** Only lines of the channel's own were written or kept back. */
  predicate OnlyOwn(l: Link, l': Link) {
    && (forall x :: x in l'.history.refused ==> x in l.history.refused || !x.View?)
    && (forall w :: w in l'.history.wire ==> w in l.history.wire || !w.line.View?)
  }

  /** The connection stands where it stood, and nothing was handed over. */
  predicate Talks(l: Link, l': Link) {
    && l'.state == l.state && l'.sock == l.sock && l'.history.handed == l.history.handed && OnlyOwn(l, l')
  }

  /** What was handed over was read on this connection in state `ready`, which then
      stays; the connection is the same unless the channel closed. */
  predicate Hands(l: Link, l': Link) {
    && l.history.handed <= l'.history.handed
    && (l'.history.handed != l.history.handed ==> l'.state.Ready? && l'.sock == l.sock)
    && (l.state.Ready? ==> l'.state.Ready? && l'.sock == l.sock)
    && (l.state.Closed? ==> l'.state.Closed?)
    && (l'.sock == l.sock || l'.state.Closed?)
    && OnlyOwn(l, l')
  }

  lemma HandsTwice(l: Link, m: Link, n: Link)
    requires Hands(l, m) && Hands(m, n) && (m.sock == l.sock || n == m)
    ensures Hands(l, n)
  {
  }

  // ---------- the pieces ----------

  lemma SendTalks(l: Link, line: Line)
    requires !line.View?
    ensures Talks(l, Send(l, line))
  {
    SendCases(l, line);
  }

  lemma SettleTalks(l: Link, id: AskId, r: Result)
    ensures Talks(l, Settle(l, id, r))
  {
  }

  lemma FinishTalks(l: Link, id: AskId, outcome: Frames.Outcome, who: Frames.Answerer, why: Failure)
    ensures Talks(l, Finish(l, id, outcome, who, why))
  {
    SendTalks(l, Note(Frames.Resolved(id, outcome, who)));
    SettleTalks(Send(l, Note(Frames.Resolved(id, outcome, who))), id, Failed(why));
  }

  lemma {:induction false} SettleAllTalks(l: Link, ps: seq<Pending>)
    ensures Talks(l, SettleAll(l, ps))
    decreases |ps|
  {
    if ps != [] {
      SettleTalks(l, ps[0].id, Failed(ChannelClosed));
      SettleAllTalks(Settle(l, ps[0].id, Failed(ChannelClosed)), ps[1..]);
    }
  }

  lemma {:induction false} ResendTalks(l: Link, ps: seq<Pending>)
    ensures Talks(l, ResendAll(l, ps))
    decreases |ps|
  {
    if ps != [] {
      SendTalks(l, Line.Ask(ps[0].frame));
      ResendTalks(Send(l, Line.Ask(ps[0].frame)), ps[1..]);
    }
  }

  lemma CloseHands(l: Link)
    ensures Close(l).state.Closed? && Close(l).history.handed == l.history.handed && OnlyOwn(l, Close(l))
    ensures l.state.Closed? ==> Close(l) == l
  {
    SettleAllTalks(Shut(l), l.pending);
  }

  // ---------- inbound ----------

  lemma WelcomeHands(c: Config, l: Link, conn: Conn, f: Fields)
    requires l.state.HelloSent?
    ensures Hands(l, OnWelcome(c, l, conn, f))
  {
    CloseHands(l);
    if "nonce" in f && f["nonce"].Str? { AuthenticatedHands(c, l, conn, f["nonce"].s, Field(f, "proof")); }
  }

  lemma AuthenticatedHands(c: Config, l: Link, conn: Conn, nonce: Text, proof: Option<Json>)
    requires l.state.HelloSent?
    ensures Hands(l, Authenticated(c, l, conn, nonce, proof))
  {
    var m := l.(daemonNonce := nonce, state := AuthSent,
                history := l.history.(proven := l.history.proven[conn := Proven(nonce, proof)]));
    SendTalks(m, Note(Frames.Auth(c.proof(c.token, BrowxaiRole, l.helloNonce, nonce))));
  }

  lemma ReadyHands(l: Link, conn: Conn, f: Fields)
    requires l.state.AuthSent?
    ensures Hands(l, OnReady(l, conn, f))
  {
    var r := l.(handshake := false, state := Ready, backoff := BACKOFF_START_MS);
    ResendTalks(r, r.pending);
  }

  lemma AcceptTalks(l: Link, id: AskId, f: Fields, a: Answer)
    ensures Talks(l, AcceptAnswer(l, id, f, a))
  {
    var line := Note(Frames.Resolved(id, Frames.OutcomeOf(a.decision), Frames.ByOperator));
    var s := Send(l, line);
    SendTalks(l, line);
    var n := s.(history := s.history.(readings := s.history.readings + [Reading(id, l.sock, l.state, f)]));
    SettleTalks(n, id, Answered(a));
  }

  lemma AnswerTalks(l: Link, f: Fields)
    ensures Talks(l, OnAnswer(l, f))
  {
    var id := IdOf(f);
    match Find(l.pending, id)
    case None => SendTalks(l, Note(Frames.UnknownRequest(Prefix(id, 64))));
    case Some(p) =>
      match CheckAnswer(p.rules, f) {
        case Rejected(code) => SendTalks(l, Note(Frames.BadAnswer(id, code)));
        case Accepted(d, v, g) => AcceptTalks(l, id, f, Answer(d, v, g));
      }
  }

  lemma ViewHands(c: Config, l: Link, f: Fields)
    requires l.state.Ready?
    ensures Hands(l, OnView(c, l, f))
  {
    if !c.views && Is(f, "type", "view.start") {
      var named := "session" in f && f["session"].Str?;
      SendTalks(l, Note(Frames.ViewDisabled(if named then Some(Prefix(f["session"].s, 128)) else None)));
    }
  }

  lemma LineHands(c: Config, l: Link, conn: Conn, line: Text)
    ensures Hands(l, OnLine(c, l, conn, line))
  {
    var f := FrameOf(c, line);
    if f.Some? {
      match l.state
      case HelloSent => WelcomeHands(c, l, conn, f.value);
      case AuthSent => ReadyHands(l, conn, f.value);
      case Ready => AnswerTalks(l, f.value); ViewHands(c, l, f.value);
      case _ =>
    }
  }

  lemma {:induction false} ConsumeHands(c: Config, l: Link, conn: Conn)
    requires l.sock == Some(conn)
    ensures Hands(l, Consume(c, l, conn))
    decreases |l.buf|
  {
    if LineEnd(l.buf) < |l.buf| && LineEnd(l.buf) <= MAX_FRAME_BYTES {
      var t := Turned(c, l, conn);
      LineHands(c, Rest(l, conn), conn, l.buf[..LineEnd(l.buf)]);
      TurnShrinks(c, l, conn);
      if t.sock == Some(conn) {
        ConsumeHands(c, t, conn);
        HandsTwice(l, t, Consume(c, t, conn));
      } else {
        StaysPut(c, t, conn);
      }
    }
  }

  /** Once the socket is gone nothing more is read. */
  lemma StaysPut(c: Config, l: Link, conn: Conn)
    requires l.sock != Some(conn)
    ensures Consume(c, l, conn) == l || Consume(c, l, conn) == Destroy(l, conn)
  {
  }

  // ---------- steps ----------

  lemma JoinTalks(l: Link, id: AskId)
    ensures id in l.joins ==> Talks(l, OnJoinAborted(l, id))
    ensures id in l.joins && l.joins[id].first in l.promises && l.promises[l.joins[id].first].Some? ==>
              Talks(l, OnJoinDelivered(l, id))
  {
  }

  lemma EnqueueTalks(n: Link, p: Pending)
    ensures Talks(n, Enqueue(n, p))
  {
    var q := n.(pending := n.pending + [p], promises := n.promises[p.id := None]);
    FinishTalks(q, p.id, Frames.Aborted, Frames.ByBrowxai, Detached);
    SendTalks(q, Line.Ask(p.frame));
  }

  lemma AskedOnceTalks(n: Link, p: Pending, key: Option<Frames.Key>)
    ensures Talks(n, AskedOnce(n, p, key))
  {
    EnqueueTalks(n, p);
    RejectTalks(n, p.id, TooMany);
    if key.Some? && key.value in n.pageAsks { JoinFirstTalks(n, p.id, n.pageAsks[key.value], p.signal); }
  }

  lemma RejectTalks(n: Link, id: AskId, why: Failure)
    ensures Talks(n, Reject(n, id, why))
  {
  }

  lemma JoinFirstTalks(n: Link, id: AskId, first: AskId, signal: Signal)
    ensures Talks(n, JoinFirst(n, id, first, signal))
  {
  }

  lemma AskTalks(c: Config, l: Link, e: Event)
    requires e.Asked? && Enabled(l, e)
    ensures Talks(l, Step(c, l, e))
  {
    if !l.state.Closed? {
      var frame, cls := Frames.RequestOf(e.id, e.ask, e.now), Frames.ClassOf(e.ask.prompt);
      var key := Frames.DedupeKey(cls, frame);
      NoAskIsTooLarge(l, e.id, e.ask, e.now, e.signal);
      var n := Noted(l, e.id, e.ask.prompt, key);
      AskedOnceTalks(n, Pending(e.id, cls, frame.session, frame, Frames.RulesOf(e.ask.prompt), e.signal), key);
    }
  }

  lemma ConnectedTalks(c: Config, l: Link, conn: Conn)
    ensures Talks(l, OnConnected(c, l, conn))
  {
    SendTalks(l.(history := l.history.(greeted := l.history.greeted + {conn})),
              Note(Frames.Hello(l.helloNonce, c.version, c.pid)));
  }

  /** Why the streams end in this step, if they do: the channel closes, or the socket it
      had has closed. */
  function LossOf(l: Link, e: Event, l': Link): Option<VS.StopReason> {
    if l'.state.Closed? && !l.state.Closed? then Some(VS.ChannelClosed)
    else if e.SocketCloses? && l.sock == Some(e.conn) then Some(VS.ChannelDown)
    else None
  }

  /** What a step means to the live view: frames are handed over only from a standing
      connection in state `ready`, a lost one ends the streams, and no line of the live
      view is written or kept back by the rest of the channel. */
  predicate Means(l: Link, e: Event, l': Link) {
    && l.history.handed <= l'.history.handed
    && (l'.history.handed != l.history.handed ==>
          l.sock.Some? && l'.sock == l.sock && l'.state.Ready? && LossOf(l, e, l').None?)
    && (l.sock.Some? && l'.sock != l.sock ==> LossOf(l, e, l').Some?)
    && (e.ViewSends? || OnlyOwn(l, l'))
  }

  lemma TalksMeans(l: Link, e: Event, l': Link)
    requires Talks(l, l')
    ensures Means(l, e, l')
  {
  }

  lemma DataMeans(c: Config, l: Link, conn: Conn, chunk: Text)
    requires ConnInv(c, l)
    ensures Means(l, DataArrives(conn, chunk), OnData(c, l, conn, chunk))
  {
    if l.sock == Some(conn) {
      ConsumeHands(c, l.(buf := l.buf + chunk), conn);
      assert Hands(l, OnData(c, l, conn, chunk));
    } else {
      TalksMeans(l, DataArrives(conn, chunk), l);
    }
  }

  lemma CloseMeans(l: Link)
    ensures Means(l, CloseCalled, Close(l))
  {
    CloseHands(l);
  }

  lemma RetryMeans(l: Link, check: SocketCheck, nonce: Text)
    requires l.sock.None?
    ensures Means(l, RetryFires(check, nonce), OnRetry(l, check, nonce))
  {
  }

  lemma SocketClosedMeans(l: Link, conn: Conn)
    ensures Means(l, SocketCloses(conn), OnSocketClosed(l, conn))
  {
  }

  lemma ExpiryMeans(l: Link, conn: Conn)
    ensures Means(l, HandshakeExpires, Destroy(l, conn))
  {
  }

  lemma ViewMeans(l: Link, pairs: Frames.Pairs)
    ensures Means(l, ViewSends(pairs), Send(l, View(pairs)))
  {
    SendCases(l, View(pairs));
  }

  lemma SocketMeans(c: Config, l: Link, e: Event)
    requires ConnInv(c, l) && Enabled(l, e)
    requires e.RetryFires? || e.SocketConnected? || e.SocketCloses? || e.HandshakeExpires?
    ensures Means(l, e, Step(c, l, e))
  {
    match e
    case RetryFires(check, nonce) => RetryMeans(l, check, nonce);
    case SocketConnected(conn) =>
      ConnectedTalks(c, l, conn);
      TalksMeans(l, e, OnConnected(c, l, conn));
    case SocketCloses(conn) => SocketClosedMeans(l, conn);
    case HandshakeExpires => ExpiryMeans(l, l.sock.value);
  }

  lemma StepMeans(c: Config, l: Link, e: Event)
    requires ConnInv(c, l)
    ensures Means(l, e, Step(c, l, e))
  {
    if !Enabled(l, e) {
      TalksMeans(l, e, l);
    } else {
      match e
      case DataArrives(conn, chunk) => DataMeans(c, l, conn, chunk);
      case CloseCalled => CloseMeans(l);
      case ViewSends(pairs) => ViewMeans(l, pairs);
      case _ =>
        if e.RetryFires? || e.SocketConnected? || e.SocketCloses? || e.HandshakeExpires? {
          SocketMeans(c, l, e);
        } else {
          RequestTalks(c, l, e);
          TalksMeans(l, e, Step(c, l, e));
        }
    }
  }

  lemma RequestTalks(c: Config, l: Link, e: Event)
    requires Enabled(l, e)
    requires e.Asked? || e.TimerFires? || e.AbortFires? || e.KeyDropped? || e.JoinDelivered? || e.JoinAborted?
    ensures Talks(l, Step(c, l, e))
  {
    match e
    case Asked(_, _, _, _) => AskTalks(c, l, e);
    case TimerFires(id) => FinishTalks(l, id, Frames.TimedOut, Frames.ByTimeout, TimedOut);
    case AbortFires(id) => FinishTalks(l, id, Frames.Aborted, Frames.ByBrowxai, Detached);
    case KeyDropped(_) =>
    case JoinDelivered(id) => JoinTalks(l, id);
    case JoinAborted(id) => JoinTalks(l, id);
  }

  // ---------- lines kept back ----------

  lemma HoldsSome<T>(xs: seq<T>)
    requires xs != []
    ensures exists x :: x in xs
  {
    assert xs[0] in xs;
  }

  /** Only the channel's own lines were added, and those are never kept back. */
  lemma NoneKeptBack(l: Link, l': Link)
    requires OnlyOwn(l, l') && SizeInv(l') && l.history.refused == []
    ensures l'.history.refused == []
  {
    if l'.history.refused != [] {
      HoldsSome(l'.history.refused);
      assert false;
    }
  }

  lemma OwnStepFits(c: Config, l: Link, e: Event)
    requires Inv(c, l) && l.history.refused == [] && !e.ViewSends?
    ensures Step(c, l, e).history.refused == []
  {
    var l' := Step(c, l, e);
    StepKeeps(c, l, e);
    StepMeans(c, l, e);
    NoneKeptBack(l, l');
  }

  lemma ViewStepFits(c: Config, l: Link, e: Event)
    requires e.ViewSends? && Frames.LineBytes(e.pairs) <= MAX_FRAME_BYTES
    ensures Step(c, l, e).history.refused == l.history.refused
  {
    SendCases(l, View(e.pairs));
  }
}

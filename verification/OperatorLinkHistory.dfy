/** What a step adds to what is known of the channel: nothing said, settled, read or
    heard is ever taken back, and new requests come from asks alone.
    (src/helper/operator-channel.ts) */
module OperatorLinkHistory {
  import opened Json
  import opened OperatorProtocol
  import Frames = OperatorFrames
  import opened OperatorLink
  import opened OperatorLinkRuns

  /** Everything recorded stays recorded. */
  predicate Grows(h: History, h': History) {
    && h.wire <= h'.wire && h.settled <= h'.settled && h.readings <= h'.readings && h.heard <= h'.heard
    && (forall k :: k in h.proven ==> k in h'.proven)
    && (forall k :: k in h.prompts ==> k in h'.prompts && h'.prompts[k] == h.prompts[k])
    && (forall k :: k in h.joined ==> k in h'.joined && h'.joined[k] == h.joined[k])
  }

  /** Nothing is asked: what waits was waiting, and what is known of asks is the same. */
  predicate NoneAsked(l: Link, l': Link) {
    && (forall p :: p in l'.pending ==> p in l.pending)
    && (forall j :: j in l'.joins ==> j in l.joins && l'.joins[j] == l.joins[j])
    && l'.history.prompts == l.history.prompts && l'.history.joined == l.history.joined
    && l'.promises.Keys == l.promises.Keys
  }

  /** The notices of an end that were added went out where the daemon is proven. */
  predicate EndsAreProven(l: Link, l': Link) {
    forall k :: |l.history.wire| <= k < |l'.history.wire| && SaysSomeResolved(l'.history.wire[k]) ==>
      l'.history.wire[k].conn in l'.history.proven
  }

  /** The reading is of a line heard on its connection. */
  predicate HeardAs(c: Config, x: Heard, r: Reading) {
    r.conn == Some(x.conn) && FrameOf(c, x.line) == Some(r.fields)
  }

  predicate IsHeard(c: Config, h: History, r: Reading) {
    exists i :: 0 <= i < |h.heard| && HeardAs(c, h.heard[i], r)
  }

  /** The readings that were added are of lines heard. */
  predicate ReadsAreHeard(c: Config, h: History, h': History) {
    forall k :: |h.readings| <= k < |h'.readings| ==> IsHeard(c, h', h'.readings[k])
  }

  predicate Adds(c: Config, l: Link, l': Link) {
    Grows(l.history, l'.history) && NoneAsked(l, l') && EndsAreProven(l, l') && ReadsAreHeard(c, l.history, l'.history)
  }

  /** Nothing was taken off a socket, and no socket was opened. */
  predicate Still(l: Link, l': Link) {
    l'.history.heard == l.history.heard && l'.buf == l.buf && (l'.sock == l.sock || l'.sock.None?)
    && l'.nextConn == l.nextConn
  }

  predicate Calm(c: Config, l: Link, l': Link) { Adds(c, l, l') && Still(l, l') }

  lemma ReadsTwice(c: Config, h: History, i: History, j: History)
    requires Grows(h, i) && Grows(i, j) && ReadsAreHeard(c, h, i) && ReadsAreHeard(c, i, j)
    ensures ReadsAreHeard(c, h, j)
  {
    forall k | |h.readings| <= k < |j.readings| ensures IsHeard(c, j, j.readings[k]) {
      if k < |i.readings| {
        assert IsHeard(c, i, i.readings[k]);
        var n :| 0 <= n < |i.heard| && HeardAs(c, i.heard[n], i.readings[k]);
        assert HeardAs(c, j.heard[n], j.readings[k]);
      }
    }
  }

  lemma AddsTwice(c: Config, l: Link, m: Link, n: Link)
    requires Adds(c, l, m) && Adds(c, m, n)
    ensures Adds(c, l, n)
    ensures Still(l, m) && Still(m, n) ==> Calm(c, l, n)
  {
    ReadsTwice(c, l.history, m.history, n.history);
    forall k | |l.history.wire| <= k < |n.history.wire| && SaysSomeResolved(n.history.wire[k])
      ensures n.history.wire[k].conn in n.history.proven
    {
      if k < |m.history.wire| { assert n.history.wire[k] == m.history.wire[k]; }
    }
  }

  /** A line is written, kept back for its size, or not sent at all. */
  lemma SendCases(l: Link, line: Line)
    ensures Send(l, line) == l || Send(l, line) == Refused(l, line)
            || (l.sock.Some? && Send(l, line) == Wrote(l, Written(l.sock.value, line)))
  {
  }

  lemma WroteAdds(c: Config, l: Link, w: Written)
    requires SaysSomeResolved(w) ==> w.conn in l.history.proven
    ensures Calm(c, l, Wrote(l, w))
  {
  }

  lemma RefusedAdds(c: Config, l: Link, line: Line)
    ensures Calm(c, l, Refused(l, line)) && Calm(c, l, l)
  {
  }

  lemma SendAdds(c: Config, l: Link, line: Line)
    requires line.Note? && line.notice.Resolved? && l.sock.Some? ==> l.sock.value in l.history.proven
    ensures Calm(c, l, Send(l, line))
  {
    SendCases(l, line);
    RefusedAdds(c, l, line);
    if l.sock.Some? { WroteAdds(c, l, Written(l.sock.value, line)); }
  }

  lemma SettleGrows(l: Link, id: AskId, r: Result)
    requires id in l.promises
    ensures Grows(l.history, Settle(l, id, r).history) && NoneAsked(l, Settle(l, id, r)) && Still(l, Settle(l, id, r))
    ensures Settle(l, id, r).history.wire == l.history.wire && Settle(l, id, r).history.readings == l.history.readings
  {
  }

  lemma SettleAdds(c: Config, l: Link, id: AskId, r: Result)
    requires id in l.promises
    ensures Calm(c, l, Settle(l, id, r)) && Settle(l, id, r).history.wire == l.history.wire
  {
  }

  lemma {:induction false} SettleAllAdds(c: Config, l: Link, ps: seq<Pending>)
    requires forall p :: p in ps ==> p.id in l.promises
    ensures Calm(c, l, SettleAll(l, ps)) && SettleAll(l, ps).history.wire == l.history.wire
    decreases |ps|
  {
    if ps != [] {
      var s := Settle(l, ps[0].id, Failed(ChannelClosed));
      assert ps[0] in ps;
      SettleAdds(c, l, ps[0].id, Failed(ChannelClosed));
      SettleAllAdds(c, s, ps[1..]);
      AddsTwice(c, l, s, SettleAll(s, ps[1..]));
    }
  }

  lemma CloseAdds(c: Config, l: Link)
    requires PendInv(l)
    ensures Calm(c, l, Close(l))
  {
    if !l.state.Closed? {
      SettleAllAdds(c, Shut(l), l.pending);
      AddsTwice(c, l, Shut(l), Close(l));
    }
  }

  lemma {:induction false} ResendAdds(c: Config, l: Link, ps: seq<Pending>)
    ensures Calm(c, l, ResendAll(l, ps))
    decreases |ps|
  {
    if ps != [] {
      var s := Send(l, Line.Ask(ps[0].frame));
      SendAdds(c, l, Line.Ask(ps[0].frame));
      ResendAdds(c, s, ps[1..]);
      AddsTwice(c, l, s, ResendAll(s, ps[1..]));
    }
  }

  // ---------- inbound ----------

  lemma AuthenticatedAdds(c: Config, l: Link, conn: Conn, nonce: Text, proof: Option<Json>)
    ensures Calm(c, l, Authenticated(c, l, conn, nonce, proof))
  {
    var m := l.(daemonNonce := nonce, state := AuthSent,
                history := l.history.(proven := l.history.proven[conn := Proven(nonce, proof)]));
    assert Calm(c, l, m);
    var auth := Note(Frames.Auth(c.proof(c.token, BrowxaiRole, l.helloNonce, nonce)));
    SendAdds(c, m, auth);
    AddsTwice(c, l, m, Send(m, auth));
  }

  lemma WelcomeAdds(c: Config, l: Link, conn: Conn, f: Fields)
    requires PendInv(l)
    ensures Calm(c, l, OnWelcome(c, l, conn, f))
  {
    if Is(f, "type", "welcome") && "nonce" in f && f["nonce"].Str? && |f["nonce"].s| <= 128 {
      if Field(f, "proof") != Some(Str(c.proof(c.token, DaemonRole, l.helloNonce, f["nonce"].s))) {
        CloseAdds(c, l);
      } else {
        AuthenticatedAdds(c, l, conn, f["nonce"].s, Field(f, "proof"));
      }
    }
  }

  lemma ReadyAdds(c: Config, l: Link, conn: Conn, f: Fields)
    ensures Calm(c, l, OnReady(l, conn, f))
  {
    var r := l.(handshake := false, state := Ready, backoff := BACKOFF_START_MS);
    ResendAdds(c, r, r.pending);
    AddsTwice(c, l, r, ResendAll(r, r.pending));
  }

  lemma AcceptAdds(c: Config, l: Link, id: AskId, f: Fields, a: Answer)
    requires id in l.promises && (l.sock.Some? ==> l.sock.value in l.history.proven)
    requires IsHeard(c, l.history, Reading(id, l.sock, l.state, f))
    ensures Calm(c, l, AcceptAnswer(l, id, f, a))
  {
    var s := Send(l, Note(Frames.Resolved(id, Frames.OutcomeOf(a.decision), Frames.ByOperator)));
    var n := s.(history := s.history.(readings := s.history.readings + [Reading(id, l.sock, l.state, f)]));
    SendAdds(c, l, Note(Frames.Resolved(id, Frames.OutcomeOf(a.decision), Frames.ByOperator)));
    AddsTwice(c, l, s, n);
    SettleAdds(c, n, id, Answered(a));
    AddsTwice(c, l, n, AcceptAnswer(l, id, f, a));
  }

  lemma AnswerAdds(c: Config, l: Link, f: Fields)
    requires PendInv(l) && (l.sock.Some? ==> l.sock.value in l.history.proven)
    requires IsHeard(c, l.history, Reading(IdOf(f), l.sock, l.state, f))
    ensures Calm(c, l, OnAnswer(l, f))
  {
    var id := IdOf(f);
    match Find(l.pending, id)
    case None => SendAdds(c, l, Note(Frames.UnknownRequest(Prefix(id, 64))));
    case Some(p) =>
      match CheckAnswer(p.rules, f) {
        case Rejected(code) => SendAdds(c, l, Note(Frames.BadAnswer(id, code)));
        case Accepted(d, v, g) => AcceptAdds(c, l, id, f, Answer(d, v, g));
      }
  }

  lemma LineAdds(c: Config, l: Link, conn: Conn, line: Text)
    requires PendInv(l) && ConnInv(c, l) && l.sock == Some(conn)
    requires l.history.heard != [] && l.history.heard[|l.history.heard| - 1] == Heard(conn, line)
    ensures Calm(c, l, OnLine(c, l, conn, line))
  {
    var f := FrameOf(c, line);
    RefusedAdds(c, l, View([]));
    if f.Some? {
      assert HeardAs(c, l.history.heard[|l.history.heard| - 1], Reading(IdOf(f.value), l.sock, l.state, f.value));
      match l.state
      case HelloSent => WelcomeAdds(c, l, conn, f.value);
      case AuthSent => ReadyAdds(c, l, conn, f.value);
      case Ready =>
        if Is(f.value, "type", "answer") { AnswerAdds(c, l, f.value); } else { ViewAdds(c, l, f.value); }
      case _ =>
    }
  }

  lemma ViewAdds(c: Config, l: Link, f: Fields)
    ensures Calm(c, l, OnView(c, l, f))
  {
    if !c.views && Is(f, "type", "view.start") {
      var named := "session" in f && f["session"].Str?;
      SendAdds(c, l, Note(Frames.ViewDisabled(if named then Some(Prefix(f["session"].s, 128)) else None)));
    }
  }

  lemma RestAdds(c: Config, l: Link, conn: Conn)
    requires LineEnd(l.buf) < |l.buf|
    ensures Adds(c, l, Rest(l, conn)) && Adds(c, l, Destroy(Rest(l, conn), conn))
  {
  }

  lemma TurnAdds(c: Config, l: Link, conn: Conn)
    requires Inv(c, l) && LineEnd(l.buf) < |l.buf| && l.sock == Some(conn)
    ensures Adds(c, l, Turned(c, l, conn))
  {
    RestKeeps(c, l, conn);
    RestAdds(c, l, conn);
    LineAdds(c, Rest(l, conn), conn, l.buf[..LineEnd(l.buf)]);
    AddsTwice(c, l, Rest(l, conn), Turned(c, l, conn));
  }

  lemma DestroyAdds(c: Config, l: Link, conn: Conn)
    ensures Adds(c, l, l) && Adds(c, l, Destroy(l, conn))
  {
  }

  lemma {:induction false} ConsumeAdds(c: Config, l: Link, conn: Conn)
    requires Inv(c, l)
    ensures Adds(c, l, Consume(c, l, conn))
    decreases |l.buf|
  {
    if LineEnd(l.buf) == |l.buf| || l.sock != Some(conn) {
      DestroyAdds(c, l, conn);
    } else if LineEnd(l.buf) > MAX_FRAME_BYTES {
      RestAdds(c, l, conn);
    } else {
      TurnAdds(c, l, conn);
      TurnKeeps(c, l, conn);
      TurnShrinks(c, l, conn);
      ConsumeAdds(c, Turned(c, l, conn), conn);
      AddsTwice(c, l, Turned(c, l, conn), Consume(c, Turned(c, l, conn), conn));
    }
  }

  lemma DataAdds(c: Config, l: Link, conn: Conn, chunk: Text)
    requires Inv(c, l)
    ensures Adds(c, l, OnData(c, l, conn, chunk))
  {
    if l.sock == Some(conn) {
      var b := l.(buf := l.buf + chunk);
      BufKeeps(c, l, l.buf + chunk);
      ConsumeAdds(c, b, conn);
      AddsTwice(c, l, b, OnData(c, l, conn, chunk));
    }
  }

  // ---------- steps ----------

  /** A step that neither asks nor ends a request on this side. */
  predicate Elsewhere(e: Event) { !e.Asked? && !e.TimerFires? && !e.AbortFires? }

  lemma ConnectedAdds(c: Config, l: Link, conn: Conn)
    ensures Calm(c, l, OnConnected(c, l, conn))
  {
    var g := l.(history := l.history.(greeted := l.history.greeted + {conn}));
    var hello := Note(Frames.Hello(l.helloNonce, c.version, c.pid));
    assert Calm(c, l, g);
    SendAdds(c, g, hello);
    AddsTwice(c, l, g, Send(g, hello));
  }

  lemma RetryAdds(c: Config, l: Link, check: SocketCheck, nonce: Text)
    ensures Adds(c, l, OnRetry(l, check, nonce)) && OnRetry(l, check, nonce).history.heard == l.history.heard
  {
  }

  lemma JoinEndAdds(c: Config, l: Link, id: AskId)
    requires id in l.joins && id in l.promises
    ensures Calm(c, l, OnJoinAborted(l, id))
    ensures l.joins[id].first in l.promises && l.promises[l.joins[id].first].Some? ==>
              Calm(c, l, OnJoinDelivered(l, id))
  {
  }

  /** Nothing is recorded, and at most the socket is lost. */
  lemma SameHistoryIsCalm(c: Config, l: Link, l': Link)
    requires l'.history == l.history && l'.pending == l.pending && l'.joins == l.joins
    requires l'.promises == l.promises && Still(l, l')
    ensures Calm(c, l, l')
  {
  }

  lemma SocketClosedAdds(c: Config, l: Link, conn: Conn)
    ensures Calm(c, l, OnSocketClosed(l, conn)) && Calm(c, l, Destroy(l, conn))
  {
    SameHistoryIsCalm(c, l, OnSocketClosed(l, conn));
    SameHistoryIsCalm(c, l, Destroy(l, conn));
  }

  lemma SocketStepAdds(c: Config, l: Link, e: Event)
    requires Inv(c, l) && Enabled(l, e)
    requires e.DataArrives? || e.SocketConnected? || e.SocketCloses? || e.RetryFires? || e.HandshakeExpires?
    ensures Adds(c, l, Step(c, l, e)) && (!e.DataArrives? && !e.RetryFires? ==> Still(l, Step(c, l, e)))
  {
    match e
    case DataArrives(conn, chunk) => DataAdds(c, l, conn, chunk);
    case SocketConnected(conn) => ConnectedAdds(c, l, conn);
    case SocketCloses(conn) => SocketClosedAdds(c, l, conn);
    case RetryFires(check, nonce) => RetryAdds(c, l, check, nonce);
    case HandshakeExpires => SocketClosedAdds(c, l, l.sock.value);
  }

  lemma DropKeyAdds(c: Config, l: Link, key: Frames.Key)
    ensures Calm(c, l, OnDropKey(l, key)) && Calm(c, l, l)
  {
    SameHistoryIsCalm(c, l, OnDropKey(l, key));
    SameHistoryIsCalm(c, l, l);
  }

  lemma ElsewhereAdds(c: Config, l: Link, e: Event)
    requires Inv(c, l) && Elsewhere(e)
    ensures Adds(c, l, Step(c, l, e)) && (!e.DataArrives? && !e.RetryFires? ==> Still(l, Step(c, l, e)))
  {
    if !Enabled(l, e) {
      DropKeyAdds(c, l, Frames.Key([], [], [], []));
    } else {
      match e
      case CloseCalled => CloseAdds(c, l);
      case KeyDropped(key) => DropKeyAdds(c, l, key);
      case JoinDelivered(id) => JoinEndAdds(c, l, id);
      case JoinAborted(id) => JoinEndAdds(c, l, id);
      case ViewSends(pairs) => SendAdds(c, l, View(pairs));
      case _ => SocketStepAdds(c, l, e);
    }
  }

  /** What waits was waiting, or is the ask itself with the signal it was made with. */
  ghost predicate Waits(l: Link, l': Link, e: Event) {
    && (forall p :: p in l'.pending ==>
          p in l.pending || (e.Asked? && p.id == e.id && p.signal == e.signal))
    && (forall j :: j in l'.joins ==>
          if j in l.joins then l'.joins[j] == l.joins[j] else e.Asked? && j == e.id && l'.joins[j].signal == e.signal)
    && (forall id :: id in l'.promises <==> id in l.promises || (e.Asked? && Enabled(l, e) && id == e.id))
    && (forall id :: id in l'.history.prompts && id !in l.history.prompts ==>
          e.Asked? && Enabled(l, e) && id == e.id && l'.history.prompts[id] == e.ask.prompt)
  }

  /** Nothing is taken back and nothing is asked. */
  predicate Keeps(l: Link, l': Link) {
    && Grows(l.history, l'.history) && NoneAsked(l, l') && Still(l, l')
    && l'.history.readings == l.history.readings
  }

  lemma SendKeepsAll(l: Link, line: Line)
    ensures Keeps(l, Send(l, line))
  {
    SendCases(l, line);
  }

  lemma FinishGrows(l: Link, id: AskId, outcome: Frames.Outcome, who: Frames.Answerer, why: Failure)
    requires id in l.promises
    ensures Keeps(l, Finish(l, id, outcome, who, why))
  {
    var s := Send(l, Note(Frames.Resolved(id, outcome, who)));
    SendKeepsAll(l, Note(Frames.Resolved(id, outcome, who)));
    SettleGrows(s, id, Failed(why));
  }

  lemma AskGrows(c: Config, l: Link, e: Event)
    requires Inv(c, l) && e.Asked? && Enabled(l, e)
    ensures Grows(l.history, Step(c, l, e).history) && Waits(l, Step(c, l, e), e)
    ensures Still(l, Step(c, l, e)) && Step(c, l, e).history.readings == l.history.readings
  {
    NewIsNowhere(l, e.id);
    if l.state.Closed? {
      RejectGrows(l, e.id, ChannelClosed);
    } else {
      var frame, cls := Frames.RequestOf(e.id, e.ask, e.now), Frames.ClassOf(e.ask.prompt);
      var key := Frames.DedupeKey(cls, frame);
      var p := Pending(e.id, cls, frame.session, frame, Frames.RulesOf(e.ask.prompt), e.signal);
      var n := Noted(l, e.id, e.ask.prompt, key);
      NoAskIsTooLarge(l, e.id, e.ask, e.now, e.signal);
      assert Step(c, l, e) == AskedOnce(n, p, key);
      AskedOnceGrows(n, p, key);
      NotedGrows(l, n, AskedOnce(n, p, key), e, p, key);
    }
  }

  lemma NotedGrows(l: Link, n: Link, n': Link, e: Event, p: Pending, key: Option<Frames.Key>)
    requires e.Asked? && Enabled(l, e) && p.id == e.id && p.signal == e.signal && p.id !in l.joins
    requires n == Noted(l, e.id, e.ask.prompt, key)
    requires Grows(n.history, n'.history) && AskedOnly(n, n', p)
    ensures Grows(l.history, n'.history) && Waits(l, n', e)
    ensures Still(l, n') && n'.history.readings == l.history.readings
  {
  }

  lemma RejectGrows(l: Link, id: AskId, why: Failure)
    requires id !in l.promises
    ensures Grows(l.history, Reject(l, id, why).history)
    ensures Reject(l, id, why).pending == l.pending && Reject(l, id, why).joins == l.joins
    ensures Still(l, Reject(l, id, why)) && Reject(l, id, why).history.readings == l.history.readings
    ensures Reject(l, id, why).history.prompts == l.history.prompts
    ensures Reject(l, id, why).promises.Keys == l.promises.Keys + {id}
  {
  }

  lemma AskedOnceGrows(n: Link, p: Pending, key: Option<Frames.Key>)
    requires forall q :: q in n.pending ==> q.id != p.id
    requires p.id !in n.promises && p.id !in n.history.joined
    ensures Grows(n.history, AskedOnce(n, p, key).history) && AskedOnly(n, AskedOnce(n, p, key), p)
  {
    if key.Some? && key.value in n.pageAsks {
      JoinGrows(n, p, n.pageAsks[key.value]);
    } else if !HasRoom(n.pending, p.cls, p.session) {
      RejectGrows(n, p.id, TooMany);
    } else {
      EnqueueGrows(n, p);
    }
  }

  lemma JoinGrows(n: Link, p: Pending, first: AskId)
    requires p.id !in n.promises && p.id !in n.history.joined
    ensures Grows(n.history, JoinFirst(n, p.id, first, p.signal).history)
    ensures AskedOnly(n, JoinFirst(n, p.id, first, p.signal), p)
  {
    if p.signal.AbortedSignal? {
      AbortedJoinShape(n, p.id, first);
      assert Grows(n.history, AbortedJoin(n, p.id, first).history);
    } else {
      assert JoinFirst(n, p.id, first, p.signal) == Waiting(n, p.id, first, p.signal);
    }
  }

  /** The ask is all that was added to what waits. */
  predicate AskedOnly(n: Link, n': Link, p: Pending) {
    && (forall q :: q in n'.pending ==> q in n.pending || q == p)
    && (forall j :: j in n'.joins ==> if j == p.id then n'.joins[j].signal == p.signal || j in n.joins
                                      else j in n.joins && n'.joins[j] == n.joins[j])
    && n'.promises.Keys == n.promises.Keys + {p.id}
    && Still(n, n') && n'.history.readings == n.history.readings && n'.history.prompts == n.history.prompts
  }

  lemma EnqueueGrows(n: Link, p: Pending)
    requires p.id !in n.promises
    ensures Grows(n.history, Enqueue(n, p).history) && AskedOnly(n, Enqueue(n, p), p)
  {
    var q := n.(pending := n.pending + [p], promises := n.promises[p.id := None]);
    if p.signal.AbortedSignal? {
      FinishGrows(q, p.id, Frames.Aborted, Frames.ByBrowxai, Detached);
      AddedOnly(n, p, q, Finish(q, p.id, Frames.Aborted, Frames.ByBrowxai, Detached));
    } else if q.state.Ready? {
      SendKeepsAll(q, Line.Ask(p.frame));
      AddedOnly(n, p, q, Send(q, Line.Ask(p.frame)));
    } else {
      AddedOnly(n, p, q, q);
    }
  }

  lemma AddedOnly(n: Link, p: Pending, q: Link, r: Link)
    requires q == n.(pending := n.pending + [p], promises := n.promises[p.id := None]) && Keeps(q, r)
    ensures Grows(n.history, r.history) && AskedOnly(n, r, p)
  {
  }

  /** What a step that asks nothing means to what waits. */
  lemma NoneAskedWaits(c: Config, l: Link, l': Link, e: Event)
    requires NoneAsked(l, l') && !e.Asked?
    ensures Waits(l, l', e)
  {
  }

  lemma KeepsIsHeard(c: Config, l: Link, l': Link)
    requires Keeps(l, l')
    ensures ReadsAreHeard(c, l.history, l'.history)
  {
  }

  lemma FinishStepKeeps(c: Config, l: Link, e: Event)
    requires PendInv(l) && Enabled(l, e) && (e.TimerFires? || e.AbortFires?)
    ensures Keeps(l, Step(c, l, e))
  {
    if e.TimerFires? {
      FinishGrows(l, e.id, Frames.TimedOut, Frames.ByTimeout, TimedOut);
    } else {
      FinishGrows(l, e.id, Frames.Aborted, Frames.ByBrowxai, Detached);
    }
  }

  /** No step takes anything back, only an ask makes something wait, and what is read
      was heard; only data and a new socket change what is heard. */
  lemma StepGrows(c: Config, l: Link, e: Event)
    requires Inv(c, l)
    ensures Grows(l.history, Step(c, l, e).history) && Waits(l, Step(c, l, e), e)
    ensures ReadsAreHeard(c, l.history, Step(c, l, e).history)
    ensures !e.DataArrives? && !e.RetryFires? ==> Still(l, Step(c, l, e))
    ensures e.RetryFires? ==> Step(c, l, e).history.heard == l.history.heard
  {
    var l' := Step(c, l, e);
    if Elsewhere(e) {
      ElsewhereAdds(c, l, e);
      NoneAskedWaits(c, l, l', e);
    } else if Enabled(l, e) {
      if e.Asked? {
        AskGrows(c, l, e);
      } else {
        FinishStepKeeps(c, l, e);
        KeepsIsHeard(c, l, l');
        NoneAskedWaits(c, l, l', e);
      }
    }
  }

  /** A promise that has settled keeps its result. */
  lemma SettledStays(c: Config, l: Link, e: Event, id: AskId)
    requires Inv(c, l) && id in l.promises && l.promises[id].Some?
    ensures id in Step(c, l, e).promises && Step(c, l, e).promises[id] == l.promises[id]
  {
    var l' := Step(c, l, e);
    StepKeeps(c, l, e);
    StepGrows(c, l, e);
    var s := Settled(id, l.promises[id].value);
    assert s in l.history.settled;
    assert s in l'.history.settled;
  }
}

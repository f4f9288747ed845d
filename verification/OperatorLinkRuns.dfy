/** Runs of the operator channel: socket, timer, abort, ask and close events in any
    order, and the invariant that each of them keeps.
    (src/helper/operator-channel.ts, `OperatorLink`) */
module OperatorLinkRuns {
  import opened Json
  import opened OperatorProtocol
  import Frames = OperatorFrames
  import opened OperatorLink

  datatype Event =
    | Asked(id: AskId, ask: Frames.Ask, now: Frames.Number, signal: Signal)
    | TimerFires(id: AskId)
    | AbortFires(id: AskId)
    | KeyDropped(key: Frames.Key)
    | JoinDelivered(id: AskId)
    | JoinAborted(id: AskId)
    | RetryFires(check: SocketCheck, nonce: Text)
    | SocketConnected(conn: Conn)
    | DataArrives(conn: Conn, chunk: Text)
    | SocketCloses(conn: Conn)
    | HandshakeExpires
    | CloseCalled
    | ViewSends(pairs: Frames.Pairs)

  /** No connection was opened with this nonce. */
  predicate Unused(h: History, nonce: Text) { forall k :: k in h.nonces ==> h.nonces[k] != nonce }

  /** Ids and nonces are fresh; a timer or a listener fires only until it is removed; what a
      promise owes is delivered only once it has settled. */
  predicate Enabled(l: Link, e: Event) {
    match e
    case Asked(id, _, _, _) => id !in l.promises && id !in l.history.prompts && |id| == Frames.ID_CHARS
    case TimerFires(id) => Find(l.pending, id).Some?
    case AbortFires(id) => Find(l.pending, id).Some? && Find(l.pending, id).value.signal.LiveSignal?
    case KeyDropped(k) =>
      k in l.pageAsks && l.pageAsks[k] in l.promises && l.promises[l.pageAsks[k]].Some?
    case JoinDelivered(id) =>
      id in l.joins && l.joins[id].first in l.promises && l.promises[l.joins[id].first].Some?
    case JoinAborted(id) => id in l.joins && l.joins[id].signal.LiveSignal?
    case RetryFires(_, nonce) => l.retry.Some? && |nonce| == 32 && Unused(l.history, nonce)
    case SocketConnected(conn) => l.sock == Some(conn) && conn !in l.destroyed && conn !in l.history.greeted
    case HandshakeExpires => l.handshake && l.sock.Some?
    case _ => true
  }

  /** An event that cannot happen now changes nothing. */
  function Step(c: Config, l: Link, e: Event): Link {
    if !Enabled(l, e) then l
    else match e
      case Asked(id, ask, now, signal) => OnAsk(l, id, ask, now, signal)
      case TimerFires(id) => Finish(l, id, Frames.TimedOut, Frames.ByTimeout, TimedOut)
      case AbortFires(id) => Finish(l, id, Frames.Aborted, Frames.ByBrowxai, Detached)
      case KeyDropped(key) => OnDropKey(l, key)
      case JoinDelivered(id) => OnJoinDelivered(l, id)
      case JoinAborted(id) => OnJoinAborted(l, id)
      case RetryFires(check, nonce) => OnRetry(l, check, nonce)
      case SocketConnected(conn) => OnConnected(c, l, conn)
      case DataArrives(conn, chunk) => OnData(c, l, conn, chunk)
      case SocketCloses(conn) => OnSocketClosed(l, conn)
      case HandshakeExpires => Destroy(l, l.sock.value)
      case CloseCalled => Close(l)
      case ViewSends(pairs) => Send(l, View(pairs))
  }

  /** The channel as `start` leaves it. */
  function Started(check: SocketCheck, nonce: Text): Link { Connect(FRESH, check, nonce) }

  function Run(c: Config, l: Link, events: seq<Event>): Link {
    if events == [] then l else Step(c, Run(c, l, events[..|events| - 1]), events[|events| - 1])
  }

  lemma RunTwo(c: Config, l: Link, e: Event, f: Event)
    ensures Run(c, l, [e, f]) == Step(c, Step(c, l, e), f)
  {
    assert [e, f][..1] == [e] && [e][..0] == [];
    assert Run(c, l, [e]) == Step(c, Run(c, l, []), e);
  }

  lemma {:induction false} RunSplits(c: Config, l: Link, a: seq<Event>, b: seq<Event>)
    ensures Run(c, l, a + b) == Run(c, Run(c, l, a), b)
  {
    if b == [] {
      assert a + b == a;
    } else {
      assert (a + b)[..|a + b| - 1] == a + b[..|b| - 1];
      RunSplits(c, l, a, b[..|b| - 1]);
    }
  }

  // ---------- the connection ----------

  /** The socket, the timers and the state go together; a connection past `hello`
      has been given the proof of its own nonce. */
  ghost predicate ConnInv(c: Config, l: Link) {
    && (l.sock.Some? <==> l.state.HelloSent? || l.state.AuthSent? || l.state.Ready?)
    && (l.retry.Some? <==> l.state.Down?)
    && (l.handshake <==> l.state.HelloSent? || l.state.AuthSent?)
    && BACKOFF_START_MS <= l.backoff <= BACKOFF_MAX_MS
    && (l.retry.Some? ==> BACKOFF_START_MS <= l.retry.value <= BACKOFF_MAX_MS)
    && (forall k :: k in l.history.nonces ==> k < l.nextConn)
    && (forall j, k :: j in l.history.nonces && k in l.history.nonces && j != k ==>
          l.history.nonces[j] != l.history.nonces[k])
    && (l.state.HelloSent? ==> l.sock.value !in l.history.proven)
    && (l.sock.Some? ==> l.sock.value in l.history.nonces && l.history.nonces[l.sock.value] == l.helloNonce)
    && (l.state.AuthSent? || l.state.Ready? ==> l.sock.value in l.history.proven)
    && (forall k :: k in l.history.proven ==> Proved(c, l.history, k))
  }

  /** The daemon presented the keyed hash of this connection's own fresh nonce. */
  predicate Proved(c: Config, h: History, k: Conn) {
    && k in h.nonces && k in h.proven
    && h.proven[k].proof == Some(Str(c.proof(c.token, DaemonRole, h.nonces[k], h.proven[k].daemonNonce)))
  }

  lemma ConnStays(c: Config, l: Link, l': Link)
    requires ConnInv(c, l)
    requires l'.state == l.state && l'.sock == l.sock && l'.retry == l.retry && l'.handshake == l.handshake
    requires l'.backoff == l.backoff && l'.nextConn == l.nextConn && l'.helloNonce == l.helloNonce
    requires l'.history.nonces == l.history.nonces && l'.history.proven == l.history.proven
    ensures ConnInv(c, l')
  {
  }

  // ---------- the requests ----------

  ghost predicate Distinct(ps: seq<Pending>) {
    forall i, j :: 0 <= i < j < |ps| ==> ps[i].id != ps[j].id
  }

  /** A pending request is what `requestFrame` made of its prompt. */
  predicate PendingOk(h: History, p: Pending) {
    && p.id in h.prompts
    && p.rules == Frames.RulesOf(h.prompts[p.id])
    && p.cls == Frames.ClassOf(h.prompts[p.id])
    && p.session == p.frame.session
    && p.frame.id == p.id && |p.id| == Frames.ID_CHARS
    && Frames.LineBytes(Frames.RequestPairs(p.frame)) <= MAX_FRAME_BYTES
    && (p.cls.Page? ==> p.frame.body.ApprovalBody? && p.id in h.keys
                        && Frames.DedupeKey(p.cls, p.frame) == Some(h.keys[p.id]))
  }

  ghost predicate PendInv(l: Link) {
    && Distinct(l.pending)
    && (forall p :: p in l.pending ==>
          PendingOk(l.history, p) && p.id in l.promises && l.promises[p.id].None? && p.id !in l.history.joined)
    && (l.state.Closed? ==> l.pending == [])
  }

  ghost predicate LimitInv(ps: seq<Pending>) {
    && (forall c :: CountClass(ps, c) <= Frames.ClassLimit(c))
    && (forall c, s :: CountSession(ps, c, s) <= Frames.SessionLimit(c))
  }

  /** An unsettled promise belongs to a pending request or to a waiting repeat. */
  ghost predicate PromiseInv(l: Link) {
    && (forall id :: id in l.promises && l.promises[id].None? ==> Find(l.pending, id).Some? || id in l.joins)
    && (forall id :: id in l.joins ==>
          && id in l.promises && l.promises[id].None?
          && id in l.history.joined && l.joins[id].first == l.history.joined[id]
          && id !in l.history.aborted)
  }

  /** Each settlement is the promise's own result, and each promise has one. */
  ghost predicate SettledInv(l: Link) {
    var w := l.history.settled;
    && (forall s :: s in w ==> s.id in l.promises && l.promises[s.id] == Some(s.result))
    && (forall id :: id in l.promises && l.promises[id].Some? ==> Settled(id, l.promises[id].value) in w)
    && (forall i, j :: 0 <= i < j < |w| ==> w[i].id != w[j].id)
  }

  predicate SaysResolved(w: Written, id: AskId) {
    w.line.Note? && w.line.notice.Resolved? && w.line.notice.id == id
  }

  predicate SaysSomeResolved(w: Written) { w.line.Note? && w.line.notice.Resolved? }

  /** How the daemon is told of an end that a promise has come to. */
  predicate TellsOf(outcome: Frames.Outcome, who: Frames.Answerer, r: Result) {
    match r
    case Answered(a) => outcome == Frames.OutcomeOf(a.decision) && who == Frames.ByOperator
    case Failed(TimedOut) => outcome == Frames.TimedOut && who == Frames.ByTimeout
    case Failed(Detached) => outcome == Frames.Aborted && who == Frames.ByBrowxai
    case Failed(_) => false
  }

  /** The request is over, and in the way that is said. */
  predicate IsSo(promises: map<AskId, Option<Result>>, n: Frames.Notice)
    requires n.Resolved?
  {
    n.id in promises && promises[n.id].Some? && TellsOf(n.outcome, n.who, promises[n.id].value)
  }

  /** The daemon hears that a request is over once at the most, only then, and how. */
  ghost predicate ResolvedInv(l: Link) {
    var w := l.history.wire;
    && (forall x :: x in w && SaysSomeResolved(x) ==> IsSo(l.promises, x.line.notice))
    && (forall i, j :: 0 <= i < j < |w| && w[i].line.Note? && w[i].line.notice.Resolved? ==>
          !SaysResolved(w[j], w[i].line.notice.id))
  }

  /** A page prompt that is out can be found by its key. */
  ghost predicate KeyInv(l: Link) {
    && (forall p :: p in l.pending && p.cls.Page? && p.id in l.history.keys ==>
          l.history.keys[p.id] in l.pageAsks && l.pageAsks[l.history.keys[p.id]] == p.id)
    && (forall k :: k in l.pageAsks ==>
          && l.pageAsks[k] in l.promises && l.pageAsks[k] !in l.history.joined
          && l.pageAsks[k] in l.history.keys && l.history.keys[l.pageAsks[k]] == k)
    && (forall id :: id in l.history.keys ==>
          id in l.history.prompts && Frames.ClassOf(l.history.prompts[id]).Page?)
  }

  /** A repeat ends as the first prompt did, unless its own signal aborted it. */
  ghost predicate JoinInv(l: Link) {
    && (forall j :: j in l.history.joined ==> JoinOk(l.promises, l.history, j))
    && (forall j :: j in l.history.aborted ==> j in l.history.joined)
  }

  predicate JoinOk(promises: map<AskId, Option<Result>>, h: History, j: AskId)
    requires j in h.joined
  {
    && j in promises && h.joined[j] in promises && h.joined[j] !in h.joined
    && j in h.keys && h.joined[j] in h.keys && h.keys[j] == h.keys[h.joined[j]]
    && (promises[j].Some? ==>
          if j in h.aborted then promises[j] == Some(Failed(Detached)) else promises[j] == promises[h.joined[j]])
  }

  /** The request an answer came for: a repeat's is the first prompt's. */
  function Root(h: History, id: AskId): AskId { if id in h.joined then h.joined[id] else id }

  /** An answer that names this request was read in state `ready`, on a connection whose
      proof passed, and is what the request's own rules make of it. */
  predicate Backs(h: History, id: AskId, a: Answer, r: Reading) {
    && r.id == id && IdOf(r.fields) == id
    && r.state.Ready? && r.conn.Some? && r.conn.value in h.proven
    && id in h.prompts
    && CheckAnswer(Frames.RulesOf(h.prompts[id]), r.fields) == Accepted(a.decision, a.value, a.grant)
  }

  ghost predicate Backed(h: History, id: AskId, a: Answer) {
    exists r :: r in h.readings && Backs(h, id, a, r)
  }

  ghost predicate AnswerInv(l: Link) {
    forall id :: id in l.promises && l.promises[id].Some? && l.promises[id].value.Answered? ==>
      Backed(l.history, Root(l.history, id), l.promises[id].value.answer)
  }

  ghost predicate AskInv(l: Link) {
    && PendInv(l) && LimitInv(l.pending) && PromiseInv(l) && SettledInv(l)
    && KeyInv(l) && JoinInv(l) && AnswerInv(l)
  }

  /** Requests go out only where the daemon has proved itself. */
  ghost predicate WireInv(l: Link) {
    forall w :: w in l.history.wire && w.line.Ask? ==> w.conn in l.history.proven
  }

  /** While ready on a live socket, every pending request is on that connection. */
  ghost predicate ResendInv(l: Link) {
    l.state.Ready? && l.sock.Some? && l.sock.value !in l.destroyed ==>
      forall p :: p in l.pending ==> Written(l.sock.value, Line.Ask(p.frame)) in l.history.wire
  }

  /** No line the channel builds itself is ever too long. */
  ghost predicate SizeInv(l: Link) {
    && (forall x :: x in l.history.refused ==> x.View?)
    && (forall k :: k in l.history.nonces ==> |l.history.nonces[k]| <= 32)
  }

  ghost predicate Core(c: Config, l: Link) {
    ValidConfig(c) && ConnInv(c, l) && AskInv(l) && ResolvedInv(l) && WireInv(l) && SizeInv(l)
  }

  /** A line of the channel's own that fits, or one of the live view's. */
  predicate Fits(line: Line) { line.View? || Frames.LineBytes(PairsOf(line)) <= MAX_FRAME_BYTES }

  ghost predicate Inv(c: Config, l: Link) { Core(c, l) && ResendInv(l) }

  // ---------- steps that leave the requests alone ----------

  /** The same requests, promises, keys and repeats; at most more of the rest. */
  predicate SameAsks(l: Link, l': Link) {
    && l'.pending == l.pending && l'.promises == l.promises
    && l'.pageAsks == l.pageAsks && l'.joins == l.joins
    && l'.history.prompts == l.history.prompts && l'.history.keys == l.history.keys
    && l'.history.settled == l.history.settled && l'.history.joined == l.history.joined
    && l'.history.aborted == l.history.aborted
    && (forall r :: r in l.history.readings ==> r in l'.history.readings)
    && (forall k :: k in l.history.proven ==> k in l'.history.proven)
    && (l'.state.Closed? ==> l.state.Closed? || l.pending == [])
  }

  lemma SameAsksKeep(l: Link, l': Link)
    requires AskInv(l) && SameAsks(l, l')
    ensures AskInv(l')
  {
    forall id | id in l'.promises && l'.promises[id].Some? && l'.promises[id].value.Answered?
      ensures Backed(l'.history, Root(l'.history, id), l'.promises[id].value.answer)
    {
      var a := l.promises[id].value.answer;
      var r :| r in l.history.readings && Backs(l.history, Root(l.history, id), a, r);
      assert r in l'.history.readings && Backs(l'.history, Root(l'.history, id), a, r);
    }
  }

  /** A line that is neither a request nor the end of one. */
  predicate Plain(line: Line) { !line.Ask? && !(line.Note? && line.notice.Resolved?) }

  function Wrote(l: Link, w: Written): Link {
    l.(history := l.history.(wire := l.history.wire + [w]))
  }

  /** A line that fits is written on a live socket; without one nothing happens. */
  lemma SendShape(l: Link, line: Line)
    requires Frames.LineBytes(PairsOf(line)) <= MAX_FRAME_BYTES
    ensures Send(l, line) == if l.sock.Some? && l.sock.value !in l.destroyed
                             then Wrote(l, Written(l.sock.value, line)) else l
  {
  }

  lemma NoteFits(n: Frames.Notice)
    requires Frames.Short(n)
    ensures Frames.LineBytes(PairsOf(Note(n))) <= MAX_FRAME_BYTES
  {
    Frames.NoticeFits(n);
  }

  function Refused(l: Link, line: Line): Link {
    l.(history := l.history.(refused := l.history.refused + [line]))
  }

  lemma RefusedKeeps(c: Config, l: Link, line: Line)
    requires Inv(c, l) && line.View?
    ensures Inv(c, Refused(l, line))
  {
    SameAsksKeep(l, Refused(l, line));
    ConnStays(c, l, Refused(l, line));
  }

  lemma SendKeeps(c: Config, l: Link, line: Line)
    requires Inv(c, l) && Plain(line) && Fits(line)
    ensures Inv(c, Send(l, line))
  {
    if Frames.LineBytes(PairsOf(line)) > MAX_FRAME_BYTES {
      RefusedKeeps(c, l, line);
    } else if l.sock.Some? {
      SendShape(l, line);
      var w := Written(l.sock.value, line);
      SameAsksKeep(l, Wrote(l, w));
      ConnStays(c, l, Wrote(l, w));
      PlainKeepsResolved(l, w);
      GrowKeepsWire(l, w);
    }
  }

  lemma PlainKeepsResolved(l: Link, w: Written)
    requires ResolvedInv(l) && Plain(w.line)
    ensures ResolvedInv(Wrote(l, w))
  {
  }

  lemma GrowKeepsWire(l: Link, w: Written)
    requires WireInv(l) && (w.line.Ask? ==> w.conn in l.history.proven)
    ensures WireInv(Wrote(l, w))
    ensures ResendInv(l) ==> ResendInv(Wrote(l, w))
  {
  }

  lemma DestroyKeeps(c: Config, l: Link, conn: Conn)
    requires Inv(c, l)
    ensures Inv(c, Destroy(l, conn))
  {
    SameAsksKeep(l, Destroy(l, conn));
    ConnStays(c, l, Destroy(l, conn));
  }

  lemma ScheduleKeeps(c: Config, l: Link)
    requires AskInv(l) && ResolvedInv(l) && WireInv(l) && SizeInv(l) && ValidConfig(c)
    requires ConnInv(c, l.(retry := Some(l.backoff)))
    requires l.state.Down? && l.retry.None?
    ensures Inv(c, ScheduleRetry(l))
  {
    SameAsksKeep(l, ScheduleRetry(l));
  }

  lemma RetryKeeps(c: Config, l: Link, check: SocketCheck, nonce: Text)
    requires Inv(c, l) && l.retry.Some? && |nonce| <= 32 && Unused(l.history, nonce)
    ensures Inv(c, OnRetry(l, check, nonce))
  {
    var r := l.(retry := None);
    SameAsksKeep(l, r);
    if check.SocketOk? {
      SameAsksKeep(r, Opened(r, nonce));
      OpenedConn(c, l, nonce);
    } else {
      ScheduleKeeps(c, r);
    }
  }

  lemma OpenedConn(c: Config, l: Link, nonce: Text)
    requires ConnInv(c, l) && l.retry.Some? && Unused(l.history, nonce)
    ensures ConnInv(c, Opened(l.(retry := None), nonce))
  {
    var l' := Opened(l.(retry := None), nonce);
    forall k | k in l.history.proven ensures k != l.nextConn && Proved(c, l'.history, k) {
      assert Proved(c, l.history, k);
    }
  }

  lemma ClosedSocketKeeps(c: Config, l: Link, conn: Conn)
    requires Inv(c, l)
    ensures Inv(c, OnSocketClosed(l, conn))
  {
    if l.sock == Some(conn) {
      var d := l.(sock := None, handshake := false, destroyed := l.destroyed + {conn}, state := Down);
      SameAsksKeep(l, d);
      ScheduleKeeps(c, d);
    }
  }

  lemma ConnectedKeeps(c: Config, l: Link, conn: Conn)
    requires Inv(c, l) && l.sock == Some(conn)
    ensures Inv(c, OnConnected(c, l, conn))
  {
    var g := l.(history := l.history.(greeted := l.history.greeted + {conn}));
    SameAsksKeep(l, g);
    ConnStays(c, l, g);
    NoteFits(Frames.Hello(l.helloNonce, c.version, c.pid));
    SendKeeps(c, g, Note(Frames.Hello(l.helloNonce, c.version, c.pid)));
  }

  // ---------- settling ----------

  lemma {:induction false} RemoveKeepsDistinct(ps: seq<Pending>, id: AskId)
    requires Distinct(ps)
    ensures Distinct(Remove(ps, id))
  {
    if ps != [] {
      var front := ps[..|ps| - 1];
      RemoveKeepsDistinct(front, id);
      forall p | p in Remove(front, id) ensures p.id != ps[|ps| - 1].id {
        var i :| 0 <= i < |front| && front[i] == p;
        assert ps[i].id != ps[|ps| - 1].id;
      }
    }
  }

  lemma {:induction false} RemoveShrinks(ps: seq<Pending>, id: AskId, c: Frames.PromptClass, s: Text)
    ensures CountClass(Remove(ps, id), c) <= CountClass(ps, c)
    ensures CountSession(Remove(ps, id), c, s) <= CountSession(ps, c, s)
  {
    if ps != [] {
      var front, last := ps[..|ps| - 1], ps[|ps| - 1];
      RemoveShrinks(front, id, c, s);
      if last.id != id { CountsOneMore(Remove(front, id), last, c, s); }
    }
  }

  lemma CountsOneMore(ps: seq<Pending>, p: Pending, c: Frames.PromptClass, s: Text)
    ensures CountClass(ps + [p], c) == CountClass(ps, c) + if p.cls == c then 1 else 0
    ensures CountSession(ps + [p], c, s) == CountSession(ps, c, s) + if p.cls == c && p.session == s then 1 else 0
  {
    assert (ps + [p])[..|ps|] == ps;
  }

  lemma RemoveKeepsLimits(ps: seq<Pending>, id: AskId)
    requires LimitInv(ps)
    ensures LimitInv(Remove(ps, id))
  {
    var qs := Remove(ps, id);
    forall c ensures CountClass(qs, c) <= Frames.ClassLimit(c) {
      RemoveShrinks(ps, id, c, []);
      assert CountClass(ps, c) <= Frames.ClassLimit(c);
    }
    forall c, s ensures CountSession(qs, c, s) <= Frames.SessionLimit(c) {
      RemoveShrinks(ps, id, c, s);
      assert CountSession(ps, c, s) <= Frames.SessionLimit(c);
    }
  }

  /** The result `r` may be given to the request `id`. */
  ghost predicate MayGive(l: Link, id: AskId, r: Result) {
    r.Answered? ==> Backed(l.history, Root(l.history, id), r.answer)
  }

  lemma FulfilSettled(l: Link, id: AskId, r: Result)
    requires SettledInv(l) && (id in l.promises ==> l.promises[id].None?)
    ensures SettledInv(Fulfil(l, id, r))
  {
    var w, l' := l.history.settled, Fulfil(l, id, r);
    forall s | s in w ensures s.id != id {}
    forall k | k in l'.promises && l'.promises[k].Some?
      ensures Settled(k, l'.promises[k].value) in l'.history.settled
    {
      if k == id { assert l'.history.settled[|w|] == Settled(id, r); }
      else { assert Settled(k, l.promises[k].value) in w; }
    }
  }

  lemma FulfilAnswers(l: Link, id: AskId, r: Result)
    requires AnswerInv(l) && MayGive(l, id, r)
    ensures AnswerInv(Fulfil(l, id, r))
  {
    var l' := Fulfil(l, id, r);
    forall k | k in l'.promises && l'.promises[k].Some? && l'.promises[k].value.Answered?
      ensures Backed(l'.history, Root(l'.history, k), l'.promises[k].value.answer)
    {
      var a := l'.promises[k].value.answer;
      var root := Root(l.history, k);
      assert Backed(l.history, root, a);
      var x :| x in l.history.readings && Backs(l.history, root, a, x);
      assert Backs(l'.history, root, a, x);
    }
  }

  lemma FulfilJoins(l: Link, id: AskId, r: Result)
    requires JoinInv(l) && id !in l.history.joined
    requires id in l.promises && l.promises[id].None?
    ensures JoinInv(Fulfil(l, id, r))
  {
    var l' := Fulfil(l, id, r);
    forall j | j in l'.history.joined ensures JoinOk(l'.promises, l'.history, j) {
      assert JoinOk(l.promises, l.history, j);
    }
  }

  lemma SettleKeepsResults(l: Link, id: AskId, r: Result)
    requires AskInv(l) && Find(l.pending, id).Some? && MayGive(l, id, r)
    ensures SettledInv(Settle(l, id, r)) && AnswerInv(Settle(l, id, r)) && JoinInv(Settle(l, id, r))
  {
    var m := l.(pending := Remove(l.pending, id));
    assert SettledInv(m) && AnswerInv(m) && JoinInv(m);
    FulfilSettled(m, id, r);
    FulfilAnswers(m, id, r);
    FulfilJoins(m, id, r);
  }

  /** A pending request settles. */
  lemma SettleKeeps(l: Link, id: AskId, r: Result)
    requires AskInv(l) && Find(l.pending, id).Some? && MayGive(l, id, r)
    ensures AskInv(Settle(l, id, r))
  {
    SettleKeepsResults(l, id, r);
    SettleKeepsPending(l, id, r);
    assert Find(l.pending, id).value in l.pending;
    SettleKeepsPromises(l, id, r);
    SettleKeepsKeys(l, id, r);
    RemoveKeepsLimits(l.pending, id);
    SettlePending(l, id, r);
  }

  lemma SettlePending(l: Link, id: AskId, r: Result)
    ensures Settle(l, id, r).pending == Remove(l.pending, id)
  {
  }

  /** Settling touches the request and its promise, and nothing of the connection. */
  lemma SettleShape(l: Link, id: AskId, r: Result)
    requires id in l.promises && l.promises[id].None?
    ensures Settle(l, id, r)
         == l.(pending := Remove(l.pending, id), promises := l.promises[id := Some(r)],
               history := l.history.(settled := l.history.settled + [Settled(id, r)]))
  {
  }

  lemma SettleKeepsPending(l: Link, id: AskId, r: Result)
    requires PendInv(l) && Find(l.pending, id).Some?
    ensures PendInv(Settle(l, id, r))
  {
    var l' := Settle(l, id, r);
    RemoveKeepsDistinct(l.pending, id);
    assert l'.promises == l.promises[id := Some(r)];
    forall p | p in l'.pending
      ensures PendingOk(l'.history, p) && p.id in l'.promises && l'.promises[p.id].None?
              && p.id !in l'.history.joined
    {
      assert p in l.pending && PendingOk(l.history, p);
    }
  }

  lemma SettleKeepsPromises(l: Link, id: AskId, r: Result)
    requires PromiseInv(l) && id in l.promises && l.promises[id].None? && id !in l.joins
    ensures PromiseInv(Settle(l, id, r))
  {
    SettleShape(l, id, r);
    var l' := Settle(l, id, r);
    forall k | k in l'.promises && l'.promises[k].None?
      ensures Find(l'.pending, k).Some? || k in l'.joins
    {
      if Find(l.pending, k).Some? { assert Find(l.pending, k).value in l'.pending; }
    }
  }

  lemma SettleKeepsKeys(l: Link, id: AskId, r: Result)
    requires KeyInv(l) && Find(l.pending, id).Some? && id in l.promises
    ensures KeyInv(Settle(l, id, r))
  {
  }

  /** A pending request settles without a word to the daemon. */
  lemma SettleKeepsAll(c: Config, l: Link, id: AskId, r: Result)
    requires Core(c, l) && Find(l.pending, id).Some? && MayGive(l, id, r)
    ensures Core(c, Settle(l, id, r))
    ensures ResendInv(l) ==> ResendInv(Settle(l, id, r))
    ensures id in Settle(l, id, r).promises && Settle(l, id, r).promises[id] == Some(r)
  {
    SettleKeeps(l, id, r);
    SettleShape(l, id, r);
    SettleKeepsLink(c, l, id, Settle(l, id, r), r);
  }

  lemma SettleKeepsLink(c: Config, l: Link, id: AskId, s: Link, r: Result)
    requires ConnInv(c, l) && ResolvedInv(l) && WireInv(l) && id in l.promises && l.promises[id].None?
    requires s == l.(pending := s.pending, promises := l.promises[id := Some(r)],
                     history := l.history.(settled := s.history.settled))
    requires forall p :: p in s.pending ==> p in l.pending
    ensures ConnInv(c, s) && ResolvedInv(s) && WireInv(s)
    ensures ResendInv(l) ==> ResendInv(s)
    ensures SizeInv(l) ==> SizeInv(s)
  {
    ConnStays(c, l, s);
    ShrinkKeepsWire(l, s);
    MoreSettledKeepsResolved(l, s);
  }

  lemma MoreSettledKeepsResolved(l: Link, s: Link)
    requires ResolvedInv(l) && s.history.wire == l.history.wire
    requires forall id :: id in l.promises && l.promises[id].Some? ==>
               id in s.promises && s.promises[id] == l.promises[id]
    ensures ResolvedInv(s)
  {
    forall x | x in s.history.wire && SaysSomeResolved(x) ensures IsSo(s.promises, x.line.notice) {
      assert IsSo(l.promises, x.line.notice);
    }
  }

  lemma ShrinkKeepsWire(l: Link, s: Link)
    requires WireInv(l)
    requires s.state == l.state && s.sock == l.sock && s.destroyed == l.destroyed
    requires s.history.wire == l.history.wire && s.history.proven == l.history.proven
    requires forall p :: p in s.pending ==> p in l.pending
    ensures WireInv(s)
    ensures ResendInv(l) ==> ResendInv(s)
  {
  }

  /** `settle` after a word to the daemon. */
  function Ended(l: Link, id: AskId, outcome: Frames.Outcome, who: Frames.Answerer, r: Result): Link {
    Settle(Send(l, Note(Frames.Resolved(id, outcome, who))), id, r)
  }

  lemma EndedShape(l: Link, id: AskId, outcome: Frames.Outcome, who: Frames.Answerer, r: Result)
    requires |id| == Frames.ID_CHARS
    ensures Ended(l, id, outcome, who, r)
         == if l.sock.Some? && l.sock.value !in l.destroyed
            then Wrote(Settle(l, id, r), Written(l.sock.value, Note(Frames.Resolved(id, outcome, who))))
            else Settle(l, id, r)
  {
    NoteFits(Frames.Resolved(id, outcome, who));
    SendShape(l, Note(Frames.Resolved(id, outcome, who)));
  }

  /** A pending request ends: the daemon is told once, then the asker. */
  lemma FinishKeeps(c: Config, l: Link, id: AskId, outcome: Frames.Outcome, who: Frames.Answerer, r: Result)
    requires Core(c, l) && Find(l.pending, id).Some? && MayGive(l, id, r) && TellsOf(outcome, who, r)
    ensures Core(c, Ended(l, id, outcome, who, r))
    ensures ResendInv(l) ==> ResendInv(Ended(l, id, outcome, who, r))
  {
    SettleKeepsAll(c, l, id, r);
    assert PendingOk(l.history, Find(l.pending, id).value);
    EndedShape(l, id, outcome, who, r);
    if l.sock.Some? {
      NotYetResolved(l, id);
      TellKeeps(c, Settle(l, id, r), Written(l.sock.value, Note(Frames.Resolved(id, outcome, who))));
    }
  }

  lemma NotYetResolved(l: Link, id: AskId)
    requires ResolvedInv(l) && id in l.promises && l.promises[id].None?
    ensures forall w :: w in l.history.wire ==> !SaysResolved(w, id)
  {
  }

  lemma TellKeeps(c: Config, s: Link, w: Written)
    requires Core(c, s) && w.line.Note? && w.line.notice.Resolved? && IsSo(s.promises, w.line.notice)
    requires forall x :: x in s.history.wire ==> !SaysResolved(x, w.line.notice.id)
    ensures Core(c, Wrote(s, w))
    ensures ResendInv(s) ==> ResendInv(Wrote(s, w))
  {
    SameAsksKeep(s, Wrote(s, w));
    ConnStays(c, s, Wrote(s, w));
    GrowKeepsWire(s, w);
    ResolvedOnce(s, w);
  }

  lemma ResolvedOnce(s: Link, w: Written)
    requires ResolvedInv(s) && w.line.Note? && w.line.notice.Resolved? && IsSo(s.promises, w.line.notice)
    requires forall x :: x in s.history.wire ==> !SaysResolved(x, w.line.notice.id)
    ensures ResolvedInv(Wrote(s, w))
  {
    forall i | 0 <= i < |s.history.wire| ensures !SaysResolved(s.history.wire[i], w.line.notice.id) {}
  }

  // ---------- closing ----------

  lemma {:induction false} SettleAllPending(l: Link, ps: seq<Pending>)
    ensures forall p :: p in SettleAll(l, ps).pending <==>
              p in l.pending && forall q :: q in ps ==> q.id != p.id
    decreases |ps|
  {
    if ps != [] {
      var s := Settle(l, ps[0].id, Failed(ChannelClosed));
      SettlePending(l, ps[0].id, Failed(ChannelClosed));
      SettleAllPending(s, ps[1..]);
      assert forall q :: q in ps <==> q == ps[0] || q in ps[1..];
    }
  }

  /** The requests of `ps` are pending, and no two are the same. */
  ghost predicate AllPending(l: Link, ps: seq<Pending>) {
    Distinct(ps) && forall p :: p in ps ==> Find(l.pending, p.id).Some?
  }

  lemma AllButFirst(l: Link, ps: seq<Pending>)
    requires AllPending(l, ps) && ps != []
    ensures AllPending(Settle(l, ps[0].id, Failed(ChannelClosed)), ps[1..])
  {
    SettlePending(l, ps[0].id, Failed(ChannelClosed));
    forall p | p in ps[1..] ensures Find(Remove(l.pending, ps[0].id), p.id).Some? {
      var i :| 0 <= i < |ps[1..]| && ps[1..][i] == p;
      assert ps[i + 1].id != ps[0].id;
      assert Find(l.pending, p.id).value in Remove(l.pending, ps[0].id);
    }
  }

  lemma {:induction false} SettleAllKeeps(c: Config, l: Link, ps: seq<Pending>)
    requires Inv(c, l) && AllPending(l, ps)
    ensures Inv(c, SettleAll(l, ps))
    decreases |ps|
  {
    if ps != [] {
      SettleKeepsAll(c, l, ps[0].id, Failed(ChannelClosed));
      AllButFirst(l, ps);
      SettleAllKeeps(c, Settle(l, ps[0].id, Failed(ChannelClosed)), ps[1..]);
    }
  }

  lemma SettleShut(l: Link, id: AskId, r: Result)
    ensures Settle(Shut(l), id, r) == Shut(Settle(l, id, r))
  {
  }

  lemma {:induction false} ShutCommutes(l: Link, ps: seq<Pending>)
    ensures SettleAll(Shut(l), ps) == Shut(SettleAll(l, ps))
    decreases |ps|
  {
    if ps != [] {
      SettleShut(l, ps[0].id, Failed(ChannelClosed));
      ShutCommutes(Settle(l, ps[0].id, Failed(ChannelClosed)), ps[1..]);
    }
  }

  lemma ShutKeeps(c: Config, s: Link)
    requires Inv(c, s) && s.pending == []
    ensures Inv(c, Shut(s))
  {
    SameAsksKeep(s, Shut(s));
  }

  lemma CloseKeeps(c: Config, l: Link)
    requires Inv(c, l)
    ensures Inv(c, Close(l)) && Close(l).state.Closed?
  {
    if !l.state.Closed? {
      forall p | p in l.pending ensures Find(l.pending, p.id).Some? {}
      SettleAllKeeps(c, l, l.pending);
      AllSettled(l);
      ShutCommutes(l, l.pending);
      ShutKeeps(c, SettleAll(l, l.pending));
    }
  }

  lemma AllSettled(l: Link)
    ensures SettleAll(l, l.pending).pending == []
  {
    SettleAllPending(l, l.pending);
    NoneLeft(l.pending, SettleAll(l, l.pending).pending);
  }

  lemma NoneLeft(ps: seq<Pending>, left: seq<Pending>)
    requires forall p :: p in left <==> p in ps && forall q :: q in ps ==> q.id != p.id
    ensures left == []
  {
    if left != [] { FirstIsIn(left); }
  }

  lemma FirstIsIn(ps: seq<Pending>)
    requires ps != []
    ensures ps[0] in ps
  {
  }

  // ---------- inbound ----------

  lemma WelcomeKeeps(c: Config, l: Link, conn: Conn, f: Fields)
    requires Inv(c, l) && l.sock == Some(conn) && l.state.HelloSent?
    ensures Inv(c, OnWelcome(c, l, conn, f))
  {
    if !Is(f, "type", "welcome") || "nonce" !in f || !f["nonce"].Str? || |f["nonce"].s| > 128 {
      DestroyKeeps(c, l, conn);
    } else {
      var nonce := f["nonce"].s;
      if Field(f, "proof") != Some(Str(c.proof(c.token, DaemonRole, l.helloNonce, nonce))) {
        CloseKeeps(c, l);
      } else {
        var l' := l.(daemonNonce := nonce, state := AuthSent,
                     history := l.history.(proven := l.history.proven[conn := Proven(nonce, Field(f, "proof"))]));
        ProvenKeeps(c, l, conn, nonce, Field(f, "proof"));
        NoteFits(Frames.Auth(c.proof(c.token, BrowxaiRole, l.helloNonce, nonce)));
        SendKeeps(c, l', Note(Frames.Auth(c.proof(c.token, BrowxaiRole, l.helloNonce, nonce))));
      }
    }
  }

  lemma ProvenKeeps(c: Config, l: Link, conn: Conn, nonce: Text, proof: Option<Json>)
    requires Inv(c, l) && l.sock == Some(conn) && l.state.HelloSent?
    requires proof == Some(Str(c.proof(c.token, DaemonRole, l.helloNonce, nonce)))
    ensures Inv(c, l.(daemonNonce := nonce, state := AuthSent,
                      history := l.history.(proven := l.history.proven[conn := Proven(nonce, proof)])))
  {
    var l' := l.(daemonNonce := nonce, state := AuthSent,
                 history := l.history.(proven := l.history.proven[conn := Proven(nonce, proof)]));
    SameAsksKeep(l, l');
    forall k | k in l'.history.proven ensures Proved(c, l'.history, k) {
      if k != conn { assert Proved(c, l.history, k); }
    }
  }

  lemma {:induction false} ResendKeeps(c: Config, l: Link, ps: seq<Pending>)
    requires Core(c, l) && l.state.Ready?
    requires forall p :: p in ps ==> Frames.LineBytes(Frames.RequestPairs(p.frame)) <= MAX_FRAME_BYTES
    ensures Core(c, ResendAll(l, ps)) && SameConn(l, ResendAll(l, ps))
    decreases |ps|
  {
    if ps != [] {
      assert ps[0] in ps;
      AskLineKeeps(c, l, ps[0].frame);
      ResendKeeps(c, Send(l, Line.Ask(ps[0].frame)), ps[1..]);
    }
  }

  predicate SameConn(l: Link, r: Link) {
    r.pending == l.pending && r.state == l.state && r.sock == l.sock && r.destroyed == l.destroyed
  }

  lemma {:induction false} ResendWrites(l: Link, ps: seq<Pending>)
    requires l.sock.Some? && l.sock.value !in l.destroyed
    requires forall p :: p in ps ==> Frames.LineBytes(Frames.RequestPairs(p.frame)) <= MAX_FRAME_BYTES
    ensures forall w :: w in l.history.wire ==> w in ResendAll(l, ps).history.wire
    ensures forall p :: p in ps ==> Written(l.sock.value, Line.Ask(p.frame)) in ResendAll(l, ps).history.wire
    decreases |ps|
  {
    if ps != [] {
      assert ps[0] in ps;
      SendShape(l, Line.Ask(ps[0].frame));
      ResendWrites(Send(l, Line.Ask(ps[0].frame)), ps[1..]);
      assert forall p :: p in ps <==> p == ps[0] || p in ps[1..];
    }
  }

  lemma AskLineKeeps(c: Config, l: Link, frame: Frames.Request)
    requires Core(c, l) && l.state.Ready?
    requires Frames.LineBytes(Frames.RequestPairs(frame)) <= MAX_FRAME_BYTES
    ensures var r := Send(l, Line.Ask(frame));
            && Core(c, r) && SameConn(l, r)
            && (forall w :: w in l.history.wire ==> w in r.history.wire)
            && (l.sock.value !in l.destroyed ==> Written(l.sock.value, Line.Ask(frame)) in r.history.wire)
            && (ResendInv(l) ==> ResendInv(r))
  {
    var w := Written(l.sock.value, Line.Ask(frame));
    SendShape(l, Line.Ask(frame));
    SameAsksKeep(l, Wrote(l, w));
    ConnStays(c, l, Wrote(l, w));
    GrowKeepsWire(l, w);
    AskKeepsResolved(l, w);
  }

  lemma AskKeepsResolved(l: Link, w: Written)
    requires ResolvedInv(l) && w.line.Ask?
    ensures ResolvedInv(Wrote(l, w))
  {
  }

  lemma ReadyKeeps(c: Config, l: Link, conn: Conn, f: Fields)
    requires Inv(c, l) && l.sock == Some(conn) && l.state.AuthSent?
    ensures Inv(c, OnReady(l, conn, f))
  {
    if !Is(f, "type", "ready") {
      DestroyKeeps(c, l, conn);
    } else {
      var r := l.(handshake := false, state := Ready, backoff := BACKOFF_START_MS);
      SameAsksKeep(l, r);
      forall p | p in r.pending ensures Frames.LineBytes(Frames.RequestPairs(p.frame)) <= MAX_FRAME_BYTES {
        assert PendingOk(l.history, p);
      }
      ResendKeeps(c, r, r.pending);
      if conn !in r.destroyed { ResendWrites(r, r.pending); }
    }
  }

  lemma AcceptKeeps(c: Config, l: Link, id: AskId, f: Fields, a: Answer)
    requires Inv(c, l) && l.state.Ready? && Find(l.pending, id).Some? && id == IdOf(f)
    requires CheckAnswer(Find(l.pending, id).value.rules, f) == Accepted(a.decision, a.value, a.grant)
    ensures Inv(c, AcceptAnswer(l, id, f, a))
  {
    var p, r := Find(l.pending, id).value, Reading(id, l.sock, l.state, f);
    var m := l.(history := l.history.(readings := l.history.readings + [r]));
    SameAsksKeep(l, m);
    ConnStays(c, l, m);
    assert PendingOk(l.history, p);
    assert r in m.history.readings && Backs(m.history, id, a, r);
    FinishKeeps(c, m, id, Frames.OutcomeOf(a.decision), Frames.ByOperator, Answered(a));
    assert AcceptAnswer(l, id, f, a) == Ended(m, id, Frames.OutcomeOf(a.decision), Frames.ByOperator, Answered(a)) by {
      NoteFits(Frames.Resolved(id, Frames.OutcomeOf(a.decision), Frames.ByOperator));
      SendShape(l, Note(Frames.Resolved(id, Frames.OutcomeOf(a.decision), Frames.ByOperator)));
      SendShape(m, Note(Frames.Resolved(id, Frames.OutcomeOf(a.decision), Frames.ByOperator)));
    }
  }

  lemma AnswerKeeps(c: Config, l: Link, f: Fields)
    requires Inv(c, l) && l.state.Ready?
    ensures Inv(c, OnAnswer(l, f))
  {
    var id := IdOf(f);
    var p := Find(l.pending, id);
    if p.None? {
      NoteFits(Frames.UnknownRequest(Prefix(id, 64)));
      SendKeeps(c, l, Note(Frames.UnknownRequest(Prefix(id, 64))));
    } else {
      match CheckAnswer(p.value.rules, f)
      case Rejected(code) =>
        assert PendingOk(l.history, p.value);
        NoteFits(Frames.BadAnswer(id, code));
        SendKeeps(c, l, Note(Frames.BadAnswer(id, code)));
      case Accepted(decision, value, grant) => AcceptKeeps(c, l, id, f, Answer(decision, value, grant));
    }
  }

  lemma ViewKeeps(c: Config, l: Link, f: Fields)
    requires Inv(c, l)
    ensures Inv(c, OnView(c, l, f))
  {
    if c.views {
      SameAsksKeep(l, OnView(c, l, f));
      ConnStays(c, l, OnView(c, l, f));
    } else if Is(f, "type", "view.start") {
      var n := Frames.ViewDisabled(
        if "session" in f && f["session"].Str? then Some(Prefix(f["session"].s, 128)) else None);
      NoteFits(n);
      SendKeeps(c, l, Note(n));
    }
  }

  lemma LineKeeps(c: Config, l: Link, conn: Conn, line: Text)
    requires Inv(c, l) && l.sock == Some(conn)
    ensures Inv(c, OnLine(c, l, conn, line))
  {
    var f := FrameOf(c, line);
    if f.Some? {
      match l.state
      case HelloSent => WelcomeKeeps(c, l, conn, f.value);
      case AuthSent => ReadyKeeps(c, l, conn, f.value);
      case Ready =>
        if Is(f.value, "type", "answer") { AnswerKeeps(c, l, f.value); } else { ViewKeeps(c, l, f.value); }
      case _ =>
    }
  }

  lemma BufKeeps(c: Config, l: Link, buf: Text)
    requires Inv(c, l)
    ensures Inv(c, l.(buf := buf))
  {
    SameAsksKeep(l, l.(buf := buf));
    ConnStays(c, l, l.(buf := buf));
  }

  lemma RestKeeps(c: Config, l: Link, conn: Conn)
    requires Inv(c, l) && LineEnd(l.buf) < |l.buf|
    ensures Inv(c, Rest(l, conn))
  {
    SameAsksKeep(l, Rest(l, conn));
    ConnStays(c, l, Rest(l, conn));
  }

  lemma TurnKeeps(c: Config, l: Link, conn: Conn)
    requires Inv(c, l) && LineEnd(l.buf) < |l.buf| && l.sock == Some(conn)
    ensures Inv(c, Turned(c, l, conn))
  {
    RestKeeps(c, l, conn);
    LineKeeps(c, Rest(l, conn), conn, l.buf[..LineEnd(l.buf)]);
  }

  lemma {:induction false} ConsumeKeeps(c: Config, l: Link, conn: Conn)
    requires Inv(c, l)
    ensures Inv(c, Consume(c, l, conn))
    decreases |l.buf|
  {
    if LineEnd(l.buf) == |l.buf| || l.sock != Some(conn) {
      DestroyKeeps(c, l, conn);
    } else if LineEnd(l.buf) > MAX_FRAME_BYTES {
      RestKeeps(c, l, conn);
      DestroyKeeps(c, Rest(l, conn), conn);
    } else {
      TurnKeeps(c, l, conn);
      TurnShrinks(c, l, conn);
      ConsumeKeeps(c, Turned(c, l, conn), conn);
    }
  }

  // ---------- asking ----------

  /** A request that was not known before. */
  predicate New(l: Link, id: AskId) { id !in l.promises && id !in l.history.prompts }

  lemma NewIsNowhere(l: Link, id: AskId)
    requires AskInv(l) && New(l, id)
    ensures id !in l.history.joined && id !in l.history.keys && id !in l.history.aborted
    ensures forall p :: p in l.pending ==> p.id != id
    ensures forall j :: j in l.history.joined ==> l.history.joined[j] != id
    ensures forall k :: k in l.pageAsks ==> l.pageAsks[k] != id
  {
    forall j | j in l.history.joined ensures j != id && l.history.joined[j] != id {
      assert JoinOk(l.promises, l.history, j);
    }
  }

  lemma NotedKeeps(c: Config, l: Link, id: AskId, prompt: Frames.Prompt, key: Option<Frames.Key>)
    requires Inv(c, l) && New(l, id)
    requires key.Some? ==> Frames.ClassOf(prompt).Page?
    ensures Inv(c, Noted(l, id, prompt, key))
  {
    NotedKeepsRequests(l, id, prompt, key);
    NotedKeepsJoins(l, id, prompt, key);
    NotedKeepsAnswers(l, id, prompt, key);
    ConnStays(c, l, Noted(l, id, prompt, key));
  }

  lemma NotedKeepsRequests(l: Link, id: AskId, prompt: Frames.Prompt, key: Option<Frames.Key>)
    requires AskInv(l) && New(l, id)
    requires key.Some? ==> Frames.ClassOf(prompt).Page?
    ensures var n := Noted(l, id, prompt, key); PendInv(n) && KeyInv(n)
  {
    NewIsNowhere(l, id);
    var n := Noted(l, id, prompt, key);
    forall p | p in n.pending ensures PendingOk(n.history, p) { assert PendingOk(l.history, p); }
  }

  lemma NotedKeepsJoins(l: Link, id: AskId, prompt: Frames.Prompt, key: Option<Frames.Key>)
    requires JoinInv(l) && New(l, id)
    ensures JoinInv(Noted(l, id, prompt, key))
  {
    var n := Noted(l, id, prompt, key);
    forall j | j in n.history.joined ensures JoinOk(n.promises, n.history, j) {
      assert JoinOk(l.promises, l.history, j);
    }
  }

  lemma NotedKeepsAnswers(l: Link, id: AskId, prompt: Frames.Prompt, key: Option<Frames.Key>)
    requires AnswerInv(l) && New(l, id)
    ensures AnswerInv(Noted(l, id, prompt, key))
  {
    var n := Noted(l, id, prompt, key);
    forall k | k in n.promises && n.promises[k].Some? && n.promises[k].value.Answered?
      ensures Backed(n.history, Root(n.history, k), n.promises[k].value.answer)
    {
      var a, root := l.promises[k].value.answer, Root(l.history, k);
      var r :| r in l.history.readings && Backs(l.history, root, a, r);
      assert Backs(n.history, root, a, r);
    }
  }

  /** Nobody holds the promise `id` yet. */
  ghost predicate Unheld(l: Link, id: AskId) {
    && id !in l.promises && id !in l.history.joined && id !in l.history.aborted
    && (forall p :: p in l.pending ==> p.id != id)
    && (forall j :: j in l.history.joined ==> l.history.joined[j] != id)
    && (forall k :: k in l.pageAsks ==> l.pageAsks[k] != id)
  }

  /** One more promise, that none of the requests there were holds. */
  lemma PromiseKeepsRequests(l: Link, l': Link, id: AskId, x: Option<Result>)
    requires PendInv(l) && KeyInv(l) && Unheld(l, id)
    requires l'.promises == l.promises[id := x] && l'.pending == l.pending && l'.pageAsks == l.pageAsks
    requires l'.state == l.state
    requires l'.history.prompts == l.history.prompts && l'.history.keys == l.history.keys
    requires forall j :: j in l'.history.joined ==> j == id || j in l.history.joined
    ensures PendInv(l') && KeyInv(l')
  {
    forall p | p in l'.pending ensures PendingOk(l'.history, p) { assert PendingOk(l.history, p); }
  }

  lemma PromiseKeepsJoins(l: Link, id: AskId, x: Option<Result>, j: AskId)
    requires JoinInv(l) && Unheld(l, id) && j in l.history.joined
    ensures JoinOk(l.promises[id := x], l.history, j)
  {
    assert JoinOk(l.promises, l.history, j);
  }

  /** A promise made and rejected at once. */
  function RejectedNow(l: Link, id: AskId, why: Failure): Link {
    l.(promises := l.promises[id := Some(Failed(why))],
       history := l.history.(settled := l.history.settled + [Settled(id, Failed(why))]))
  }

  lemma RejectedAsks(l: Link, id: AskId, why: Failure)
    requires AskInv(l) && Unheld(l, id)
    ensures AskInv(RejectedNow(l, id, why))
  {
    var x, l' := Some(Failed(why)), RejectedNow(l, id, why);
    PromiseKeepsRequests(l, l', id, x);
    RejectedPromises(l, id, why);
    forall j | j in l'.history.joined ensures JoinOk(l'.promises, l'.history, j) {
      PromiseKeepsJoins(l, id, x, j);
      assert JoinOk(l.promises[id := x], l.history, j);
    }
  }

  lemma RejectedPromises(l: Link, id: AskId, why: Failure)
    requires PromiseInv(l) && SettledInv(l) && AnswerInv(l) && Unheld(l, id)
    ensures var l' := RejectedNow(l, id, why); PromiseInv(l') && SettledInv(l') && AnswerInv(l')
  {
    FulfilSettled(l, id, Failed(why));
    FulfilAnswers(l, id, Failed(why));
    assert Fulfil(l, id, Failed(why)) == RejectedNow(l, id, why);
  }

  lemma RejectKeeps(c: Config, l: Link, id: AskId, why: Failure)
    requires Inv(c, l) && Unheld(l, id)
    ensures Inv(c, Reject(l, id, why))
  {
    RejectedAsks(l, id, why);
    RejectKeepsLink(c, l, RejectedNow(l, id, why), id, Some(Failed(why)));
    assert Reject(l, id, why) == RejectedNow(l, id, why);
  }

  lemma RejectKeepsLink(c: Config, l: Link, l': Link, id: AskId, x: Option<Result>)
    requires Inv(c, l) && id !in l.promises
    requires l' == l.(promises := l.promises[id := x], joins := l'.joins, history := l'.history)
    requires l'.history == l.history.(settled := l'.history.settled, joined := l'.history.joined,
                                      aborted := l'.history.aborted)
    ensures ConnInv(c, l') && ResolvedInv(l') && WireInv(l') && ResendInv(l')
    ensures SizeInv(l) ==> SizeInv(l')
  {
    ConnStays(c, l, l');
    ShrinkKeepsWire(l, l');
    MoreSettledKeepsResolved(l, l');
  }

  /** The repeat is known to repeat `first`. */
  predicate Repeats(l: Link, id: AskId, first: AskId) {
    id in l.history.keys && l.history.keys[id] in l.pageAsks && l.pageAsks[l.history.keys[id]] == first
  }

  /** A repeat that waits. */
  lemma JoinWaits(c: Config, l: Link, id: AskId, first: AskId, signal: Signal)
    requires Inv(c, l) && Unheld(l, id) && Repeats(l, id, first)
    ensures Inv(c, Waiting(l, id, first, signal))
  {
    var l' := Waiting(l, id, first, signal);
    WaitingAsks(l, id, first, signal);
    RejectKeepsLink(c, l, l', id, None);
  }

  lemma WaitingPromises(l: Link, id: AskId, first: AskId, signal: Signal)
    requires PromiseInv(l) && SettledInv(l) && Unheld(l, id)
    ensures PromiseInv(Waiting(l, id, first, signal)) && SettledInv(Waiting(l, id, first, signal))
  {
  }

  lemma WaitingRequests(l: Link, id: AskId, first: AskId, signal: Signal)
    requires PendInv(l) && KeyInv(l) && JoinInv(l) && Unheld(l, id) && Repeats(l, id, first)
    ensures var l' := Waiting(l, id, first, signal); PendInv(l') && KeyInv(l') && JoinInv(l')
  {
    PromiseKeepsRequests(l, Waiting(l, id, first, signal), id, None);
    JoinedKeepsJoins(l, id, first, None, l.history.aborted);
  }

  lemma WaitingAsks(l: Link, id: AskId, first: AskId, signal: Signal)
    requires AskInv(l) && Unheld(l, id) && Repeats(l, id, first)
    ensures AskInv(Waiting(l, id, first, signal))
  {
    WaitingRequests(l, id, first, signal);
    WaitingPromises(l, id, first, signal);
    WaitingAnswers(l, id, first, signal);
  }

  lemma WaitingAnswers(l: Link, id: AskId, first: AskId, signal: Signal)
    requires AnswerInv(l) && id !in l.promises
    ensures AnswerInv(Waiting(l, id, first, signal))
  {
    WaitKeepsAnswers(l, Waiting(l, id, first, signal), id);
  }

  function Waiting(l: Link, id: AskId, first: AskId, signal: Signal): Link {
    l.(promises := l.promises[id := None], joins := l.joins[id := Join(first, signal)],
       history := l.history.(joined := l.history.joined[id := first]))
  }

  lemma JoinedKeepsJoins(l: Link, id: AskId, first: AskId, x: Option<Result>, aborted: set<AskId>)
    requires JoinInv(l) && KeyInv(l) && Unheld(l, id) && Repeats(l, id, first)
    requires aborted == l.history.aborted || aborted == l.history.aborted + {id}
    requires x == None || (x == Some(Failed(Detached)) && id in aborted)
    ensures var h := l.history.(joined := l.history.joined[id := first], aborted := aborted);
            forall j :: j in h.joined ==> JoinOk(l.promises[id := x], h, j)
  {
    var h := l.history.(joined := l.history.joined[id := first], aborted := aborted);
    forall j | j in h.joined ensures JoinOk(l.promises[id := x], h, j) {
      if j != id { assert JoinOk(l.promises, l.history, j); }
    }
  }

  lemma WaitKeepsAnswers(l: Link, l': Link, id: AskId)
    requires AnswerInv(l) && id !in l.promises
    requires l'.promises == l.promises[id := None]
    requires l'.history.readings == l.history.readings && l'.history.prompts == l.history.prompts
    requires l'.history.proven == l.history.proven
    requires forall k :: k != id ==> Root(l'.history, k) == Root(l.history, k)
    ensures AnswerInv(l')
  {
    forall k | k in l'.promises && l'.promises[k].Some? && l'.promises[k].value.Answered?
      ensures Backed(l'.history, Root(l'.history, k), l'.promises[k].value.answer)
    {
      var a, root := l.promises[k].value.answer, Root(l.history, k);
      var r :| r in l.history.readings && Backs(l.history, root, a, r);
      assert Backs(l'.history, root, a, r);
    }
  }

  /** A repeat whose signal had fired already. */
  function AbortedJoin(l: Link, id: AskId, first: AskId): Link {
    l.(promises := l.promises[id := Some(Failed(Detached))],
       history := l.history.(settled := l.history.settled + [Settled(id, Failed(Detached))],
                             joined := l.history.joined[id := first],
                             aborted := l.history.aborted + {id}))
  }

  lemma AbortedJoinShape(l: Link, id: AskId, first: AskId)
    requires id !in l.promises
    ensures JoinFirst(l, id, first, AbortedSignal) == AbortedJoin(l, id, first)
  {
  }

  lemma JoinAbortedKeeps(c: Config, l: Link, id: AskId, first: AskId)
    requires Inv(c, l) && Unheld(l, id) && Repeats(l, id, first)
    ensures Inv(c, AbortedJoin(l, id, first))
  {
    AbortedJoinAsks(l, id, first);
    RejectKeepsLink(c, l, AbortedJoin(l, id, first), id, Some(Failed(Detached)));
  }

  lemma AbortedJoinAsks(l: Link, id: AskId, first: AskId)
    requires AskInv(l) && Unheld(l, id) && Repeats(l, id, first)
    ensures AskInv(AbortedJoin(l, id, first))
  {
    AbortedJoinRequests(l, id, first);
    AbortedJoinPromises(l, id, first);
    AbortedJoinResults(l, id, first);
  }

  lemma AbortedJoinResults(l: Link, id: AskId, first: AskId)
    requires AnswerInv(l) && id !in l.promises
    ensures AnswerInv(AbortedJoin(l, id, first))
  {
    AbortedJoinAnswers(l, AbortedJoin(l, id, first), id, Some(Failed(Detached)));
  }

  lemma AbortedJoinRequests(l: Link, id: AskId, first: AskId)
    requires PendInv(l) && KeyInv(l) && JoinInv(l) && Unheld(l, id) && Repeats(l, id, first)
    ensures var l' := AbortedJoin(l, id, first); PendInv(l') && KeyInv(l') && JoinInv(l')
  {
    PromiseKeepsRequests(l, AbortedJoin(l, id, first), id, Some(Failed(Detached)));
    AbortedJoinJoins(l, id, first);
  }

  lemma AbortedJoinJoins(l: Link, id: AskId, first: AskId)
    requires KeyInv(l) && JoinInv(l) && Unheld(l, id) && Repeats(l, id, first)
    ensures JoinInv(AbortedJoin(l, id, first))
  {
    var l' := AbortedJoin(l, id, first);
    forall j | j in l'.history.joined ensures JoinOk(l'.promises, l'.history, j) {
      if j != id { assert JoinOk(l.promises, l.history, j); }
    }
  }

  lemma AbortedJoinPromises(l: Link, id: AskId, first: AskId)
    requires PromiseInv(l) && SettledInv(l) && Unheld(l, id)
    ensures var l' := AbortedJoin(l, id, first); PromiseInv(l') && SettledInv(l')
  {
    FulfilSettled(l, id, Failed(Detached));
    var f, l' := Fulfil(l, id, Failed(Detached)), AbortedJoin(l, id, first);
    assert f.promises == l'.promises && f.history.settled == l'.history.settled;
  }

  lemma AbortedJoinAnswers(l: Link, l': Link, id: AskId, x: Option<Result>)
    requires AnswerInv(l) && id !in l.promises && x == Some(Failed(Detached))
    requires l'.promises == l.promises[id := x]
    requires l'.history.readings == l.history.readings && l'.history.prompts == l.history.prompts
    requires l'.history.proven == l.history.proven
    requires forall k :: k != id ==> Root(l'.history, k) == Root(l.history, k)
    ensures AnswerInv(l')
  {
    forall k | k in l'.promises && l'.promises[k].Some? && l'.promises[k].value.Answered?
      ensures Backed(l'.history, Root(l'.history, k), l'.promises[k].value.answer)
    {
      var a, root := l.promises[k].value.answer, Root(l.history, k);
      var r :| r in l.history.readings && Backs(l.history, root, a, r);
      assert Backs(l'.history, root, a, r);
    }
  }

  lemma JoinKeeps(c: Config, l: Link, id: AskId, first: AskId, signal: Signal)
    requires Inv(c, l) && Unheld(l, id) && Repeats(l, id, first)
    ensures Inv(c, JoinFirst(l, id, first, signal))
  {
    if signal.AbortedSignal? {
      JoinAbortedKeeps(c, l, id, first);
      AbortedJoinShape(l, id, first);
    } else {
      JoinWaits(c, l, id, first, signal);
      assert JoinFirst(l, id, first, signal) == Waiting(l, id, first, signal);
    }
  }

  /** No prompt, however long its texts, is refused for its size. */
  lemma {:induction false} NoAskIsTooLarge(l: Link, id: AskId, ask: Frames.Ask, now: Frames.Number, signal: Signal)
    requires |id| == Frames.ID_CHARS && !l.state.Closed?
    ensures var frame, cls := Frames.RequestOf(id, ask, now), Frames.ClassOf(ask.prompt);
            var key := Frames.DedupeKey(cls, frame);
            OnAsk(l, id, ask, now, signal)
            == AskedOnce(Noted(l, id, ask.prompt, key),
                         Pending(id, cls, frame.session, frame, Frames.RulesOf(ask.prompt), signal), key)
  {
    Frames.RequestFits(id, ask, now);
  }

  // ---------- a new pending request ----------

  /** The request in the pending table, and found by its key if it has one. */
  function Added(l: Link, p: Pending, key: Option<Frames.Key>): Link {
    l.(pending := l.pending + [p], promises := l.promises[p.id := None],
       pageAsks := if key.None? then l.pageAsks else l.pageAsks[key.value := p.id])
  }

  /** The request may be added: it is new, well made, fits the limits, and repeats
      nothing that is out. */
  ghost predicate MayAdd(l: Link, p: Pending, key: Option<Frames.Key>) {
    && Unheld(l, p.id) && PendingOk(l.history, p) && HasRoom(l.pending, p.cls, p.session)
    && !l.state.Closed?
    && (key.Some? <==> p.cls.Page?)
    && (key.Some? ==> p.id in l.history.keys && l.history.keys[p.id] == key.value && key.value !in l.pageAsks)
  }

  lemma AddedLimits(ps: seq<Pending>, p: Pending)
    requires LimitInv(ps) && HasRoom(ps, p.cls, p.session)
    ensures LimitInv(ps + [p])
  {
    var qs := ps + [p];
    assert qs[..|ps|] == ps;
    forall c ensures CountClass(qs, c) <= Frames.ClassLimit(c) {
      assert CountClass(ps, c) <= Frames.ClassLimit(c);
    }
    forall c, s ensures CountSession(qs, c, s) <= Frames.SessionLimit(c) {
      assert CountSession(ps, c, s) <= Frames.SessionLimit(c);
    }
  }

  lemma AddedRequests(l: Link, p: Pending, key: Option<Frames.Key>)
    requires PendInv(l) && KeyInv(l) && MayAdd(l, p, key)
    ensures PendInv(Added(l, p, key)) && KeyInv(Added(l, p, key))
  {
    var l' := Added(l, p, key);
    forall q | q in l'.pending
      ensures PendingOk(l'.history, q) && q.id in l'.promises && l'.promises[q.id].None?
              && q.id !in l'.history.joined
    {
      if q != p { assert q in l.pending && PendingOk(l.history, q); }
    }
    forall i, j | 0 <= i < j < |l'.pending| ensures l'.pending[i].id != l'.pending[j].id {
      if j == |l.pending| { assert l.pending[i] in l.pending; }
    }
    AddedKeys(l, p, key);
  }

  lemma AddedKeys(l: Link, p: Pending, key: Option<Frames.Key>)
    requires PendInv(l) && KeyInv(l) && MayAdd(l, p, key)
    ensures KeyInv(Added(l, p, key))
  {
    var l' := Added(l, p, key);
    forall q | q in l'.pending && q.cls.Page? && q.id in l'.history.keys
      ensures l'.history.keys[q.id] in l'.pageAsks && l'.pageAsks[l'.history.keys[q.id]] == q.id
    {
      if q != p { assert q in l.pending; }
    }
  }

  lemma AddedPromises(l: Link, p: Pending, key: Option<Frames.Key>)
    requires PromiseInv(l) && SettledInv(l) && Unheld(l, p.id)
    ensures PromiseInv(Added(l, p, key)) && SettledInv(Added(l, p, key))
  {
    var l' := Added(l, p, key);
    assert p in l'.pending;
    forall k | k in l'.promises && l'.promises[k].None?
      ensures Find(l'.pending, k).Some? || k in l'.joins
    {
      if k != p.id && Find(l.pending, k).Some? { assert Find(l.pending, k).value in l'.pending; }
    }
  }

  lemma AddedAsks(l: Link, p: Pending, key: Option<Frames.Key>)
    requires AskInv(l) && MayAdd(l, p, key)
    ensures AskInv(Added(l, p, key))
  {
    var l' := Added(l, p, key);
    AddedRequests(l, p, key);
    AddedLimits(l.pending, p);
    AddedPromises(l, p, key);
    forall j | j in l'.history.joined ensures JoinOk(l'.promises, l'.history, j) {
      PromiseKeepsJoins(l, p.id, None, j);
      assert JoinOk(l.promises[p.id := None], l.history, j);
    }
    WaitKeepsAnswers(l, l', p.id);
  }

  lemma AddedCore(c: Config, l: Link, p: Pending, key: Option<Frames.Key>)
    requires Core(c, l) && MayAdd(l, p, key)
    ensures Core(c, Added(l, p, key))
  {
    var l' := Added(l, p, key);
    AddedAsks(l, p, key);
    ConnStays(c, l, l');
    MoreSettledKeepsResolved(l, l');
  }

  lemma SendKeyCommutes(l: Link, line: Line, keys: map<Frames.Key, AskId>)
    ensures Send(l.(pageAsks := keys), line) == Send(l, line).(pageAsks := keys)
  {
  }

  lemma SettleKeyCommutes(l: Link, id: AskId, r: Result, keys: map<Frames.Key, AskId>)
    ensures Settle(l.(pageAsks := keys), id, r) == Settle(l, id, r).(pageAsks := keys)
  {
  }

  lemma AskedFirstShape(l: Link, p: Pending, key: Option<Frames.Key>)
    requires HasRoom(l.pending, p.cls, p.session)
    ensures AskedFirst(l, p, key)
         == if p.signal.AbortedSignal?
            then Ended(Added(l, p, key), p.id, Frames.Aborted, Frames.ByBrowxai, Failed(Detached))
            else if l.state.Ready? then Send(Added(l, p, key), Line.Ask(p.frame))
            else Added(l, p, key)
  {
    var q := l.(pending := l.pending + [p], promises := l.promises[p.id := None]);
    var keys := Added(l, p, key).pageAsks;
    var told := Note(Frames.Resolved(p.id, Frames.Aborted, Frames.ByBrowxai));
    SendKeyCommutes(q, told, keys);
    SettleKeyCommutes(Send(q, told), p.id, Failed(Detached), keys);
    SendKeyCommutes(q, Line.Ask(p.frame), keys);
    assert Added(l, p, key) == q.(pageAsks := keys);
    EnqueueKeepsKeys(l, p);
  }

  lemma EnqueueKeepsKeys(l: Link, p: Pending)
    ensures Enqueue(l, p).pageAsks == l.pageAsks
  {
    var q := l.(pending := l.pending + [p], promises := l.promises[p.id := None]);
    var told := Note(Frames.Resolved(p.id, Frames.Aborted, Frames.ByBrowxai));
    SendKeepsKeys(q, told);
    SendKeepsKeys(q, Line.Ask(p.frame));
    SettleKeepsPageAsks(Send(q, told), p.id, Failed(Detached));
  }

  lemma SendKeepsKeys(l: Link, line: Line)
    ensures Send(l, line).pageAsks == l.pageAsks
  {
  }

  lemma SettleKeepsPageAsks(l: Link, id: AskId, r: Result)
    ensures Settle(l, id, r).pageAsks == l.pageAsks
  {
  }

  lemma RemoveLast(ps: seq<Pending>, p: Pending)
    requires forall q :: q in ps ==> q.id != p.id
    ensures forall q :: q in Remove(ps + [p], p.id) ==> q in ps
  {
  }

  lemma AskedFirstKeeps(c: Config, l: Link, p: Pending, key: Option<Frames.Key>)
    requires Inv(c, l) && Unheld(l, p.id)
    requires HasRoom(l.pending, p.cls, p.session) ==> MayAdd(l, p, key)
    ensures Inv(c, AskedFirst(l, p, key))
  {
    if !HasRoom(l.pending, p.cls, p.session) {
      RejectKeeps(c, l, p.id, TooMany);
    } else {
      var m := Added(l, p, key);
      AddedCore(c, l, p, key);
      AskedFirstShape(l, p, key);
      assert p in m.pending;
      if p.signal.AbortedSignal? {
        FinishKeeps(c, m, p.id, Frames.Aborted, Frames.ByBrowxai, Failed(Detached));
        AbortedResend(l, p, key);
      } else if l.state.Ready? {
        AskLineKeeps(c, m, p.frame);
        SentResend(l, p, key);
      }
    }
  }

  lemma AbortedResend(l: Link, p: Pending, key: Option<Frames.Key>)
    requires ResendInv(l) && Unheld(l, p.id) && |p.id| == Frames.ID_CHARS
    ensures ResendInv(Ended(Added(l, p, key), p.id, Frames.Aborted, Frames.ByBrowxai, Failed(Detached)))
  {
    var m := Added(l, p, key);
    EndedShape(m, p.id, Frames.Aborted, Frames.ByBrowxai, Failed(Detached));
    SettleShape(m, p.id, Failed(Detached));
    RemoveLast(l.pending, p);
  }

  lemma SentResend(l: Link, p: Pending, key: Option<Frames.Key>)
    requires ResendInv(l) && l.state.Ready? && l.sock.Some?
    requires Frames.LineBytes(Frames.RequestPairs(p.frame)) <= MAX_FRAME_BYTES
    ensures ResendInv(Send(Added(l, p, key), Line.Ask(p.frame)))
  {
    SendShape(Added(l, p, key), Line.Ask(p.frame));
  }

  lemma AskKeeps(c: Config, l: Link, id: AskId, ask: Frames.Ask, now: Frames.Number, signal: Signal)
    requires Inv(c, l) && New(l, id) && |id| == Frames.ID_CHARS
    ensures Inv(c, OnAsk(l, id, ask, now, signal))
  {
    NewIsNowhere(l, id);
    if l.state.Closed? {
      RejectKeeps(c, l, id, ChannelClosed);
    } else {
      var frame, rules, cls := Frames.RequestOf(id, ask, now), Frames.RulesOf(ask.prompt), Frames.ClassOf(ask.prompt);
      if Frames.LineBytes(Frames.RequestPairs(frame)) > MAX_FRAME_BYTES {
        RejectKeeps(c, l, id, TooLarge);
      } else {
        AllowedKeeps(c, l, ask, now, Pending(id, cls, frame.session, frame, rules, signal));
      }
    }
  }

  /** A request that is neither refused for its size nor too late. */
  lemma AllowedKeeps(c: Config, l: Link, ask: Frames.Ask, now: Frames.Number, p: Pending)
    requires Inv(c, l) && New(l, p.id) && |p.id| == Frames.ID_CHARS && !l.state.Closed?
    requires p.cls == Frames.ClassOf(ask.prompt) && p.rules == Frames.RulesOf(ask.prompt)
    requires p.frame == Frames.RequestOf(p.id, ask, now) && p.session == p.frame.session
    requires Frames.LineBytes(Frames.RequestPairs(p.frame)) <= MAX_FRAME_BYTES
    ensures var key := Frames.DedupeKey(p.cls, p.frame);
            Inv(c, AskedOnce(Noted(l, p.id, ask.prompt, key), p, key))
  {
    var key := Frames.DedupeKey(p.cls, p.frame);
    var n := Noted(l, p.id, ask.prompt, key);
    NewIsNowhere(l, p.id);
    NotedKeeps(c, l, p.id, ask.prompt, key);
    assert Unheld(n, p.id);
    if key.Some? && key.value in n.pageAsks {
      JoinKeeps(c, n, p.id, n.pageAsks[key.value], p.signal);
    } else {
      AskedFirstKeeps(c, n, p, key);
    }
  }

  // ---------- repeats and keys ----------

  lemma DropKeyKeeps(c: Config, l: Link, key: Frames.Key)
    requires Inv(c, l) && Enabled(l, KeyDropped(key))
    ensures Inv(c, OnDropKey(l, key))
  {
    var l' := OnDropKey(l, key);
    DropKeyKeys(l, key);
    WaitlessKeeps(l, l');
    ConnStays(c, l, l');
  }

  lemma DropKeyKeys(l: Link, key: Frames.Key)
    requires PendInv(l) && KeyInv(l) && Enabled(l, KeyDropped(key))
    ensures KeyInv(OnDropKey(l, key))
  {
    var l' := OnDropKey(l, key);
    forall p | p in l'.pending && p.cls.Page? && p.id in l'.history.keys
      ensures l'.history.keys[p.id] in l'.pageAsks && l'.pageAsks[l'.history.keys[p.id]] == p.id
    {
      assert p in l.pending;
    }
  }

  lemma WaitlessKeeps(l: Link, l': Link)
    requires AskInv(l) && l' == l.(pageAsks := l'.pageAsks) && KeyInv(l')
    ensures AskInv(l')
  {
    forall p | p in l'.pending ensures PendingOk(l'.history, p) { assert PendingOk(l.history, p); }
    forall j | j in l'.history.joined ensures JoinOk(l'.promises, l'.history, j) {
      assert JoinOk(l.promises, l.history, j);
    }
    forall k | k in l'.promises && l'.promises[k].Some? && l'.promises[k].value.Answered?
      ensures Backed(l'.history, Root(l'.history, k), l'.promises[k].value.answer)
    {
      assert Backed(l.history, Root(l.history, k), l.promises[k].value.answer);
    }
  }

  /** A waiting repeat settles with `r`: the first prompt's result, or its abort. */
  function JoinSettled(l: Link, id: AskId, r: Result, aborted: set<AskId>): Link {
    l.(joins := l.joins - {id}, promises := l.promises[id := Some(r)],
       history := l.history.(settled := l.history.settled + [Settled(id, r)], aborted := aborted))
  }

  ghost predicate MaySettleJoin(l: Link, id: AskId, r: Result, aborted: set<AskId>) {
    && id in l.joins && id in l.promises && id in l.history.joined
    && if aborted == l.history.aborted
       then l.history.joined[id] in l.promises && l.promises[l.history.joined[id]] == Some(r)
       else aborted == l.history.aborted + {id} && r == Failed(Detached)
  }

  lemma JoinSettledResults(l: Link, id: AskId, r: Result, aborted: set<AskId>)
    requires SettledInv(l) && PromiseInv(l) && MaySettleJoin(l, id, r, aborted)
    ensures SettledInv(JoinSettled(l, id, r, aborted))
  {
    FulfilSettled(l, id, r);
    var f, l' := Fulfil(l, id, r), JoinSettled(l, id, r, aborted);
    assert f.promises == l'.promises && f.history.settled == l'.history.settled;
  }

  lemma JoinSettledPromises(l: Link, id: AskId, r: Result, aborted: set<AskId>)
    requires PromiseInv(l) && MaySettleJoin(l, id, r, aborted)
    ensures PromiseInv(JoinSettled(l, id, r, aborted))
  {
    var l' := JoinSettled(l, id, r, aborted);
    forall k | k in l'.promises && l'.promises[k].None?
      ensures Find(l'.pending, k).Some? || k in l'.joins
    {
      assert k in l.promises && l.promises[k].None?;
    }
  }

  lemma JoinSettledJoins(l: Link, id: AskId, r: Result, aborted: set<AskId>)
    requires JoinInv(l) && PromiseInv(l) && MaySettleJoin(l, id, r, aborted)
    ensures JoinInv(JoinSettled(l, id, r, aborted))
  {
    var l' := JoinSettled(l, id, r, aborted);
    forall j | j in l'.history.joined ensures JoinOk(l'.promises, l'.history, j) {
      assert JoinOk(l.promises, l.history, j) && JoinOk(l.promises, l.history, id);
    }
  }

  lemma JoinSettledAnswers(l: Link, id: AskId, r: Result, aborted: set<AskId>)
    requires AnswerInv(l) && JoinInv(l) && MaySettleJoin(l, id, r, aborted)
    ensures AnswerInv(JoinSettled(l, id, r, aborted))
  {
    var l' := JoinSettled(l, id, r, aborted);
    assert JoinOk(l.promises, l.history, id);
    forall k | k in l'.promises && l'.promises[k].Some? && l'.promises[k].value.Answered?
      ensures Backed(l'.history, Root(l'.history, k), l'.promises[k].value.answer)
    {
      var a, root := l'.promises[k].value.answer, Root(l.history, k);
      assert Backed(l.history, root, a);
      var x :| x in l.history.readings && Backs(l.history, root, a, x);
      assert Backs(l'.history, root, a, x);
    }
  }

  lemma JoinSettledRequests(l: Link, id: AskId, r: Result, aborted: set<AskId>)
    requires PendInv(l) && KeyInv(l) && MaySettleJoin(l, id, r, aborted)
    ensures var l' := JoinSettled(l, id, r, aborted); PendInv(l') && KeyInv(l')
  {
    var l' := JoinSettled(l, id, r, aborted);
    forall p | p in l'.pending ensures PendingOk(l'.history, p) && p.id != id { assert PendingOk(l.history, p); }
  }

  lemma JoinSettledKeeps(c: Config, l: Link, id: AskId, r: Result, aborted: set<AskId>)
    requires Inv(c, l) && MaySettleJoin(l, id, r, aborted)
    ensures Inv(c, JoinSettled(l, id, r, aborted))
  {
    var l' := JoinSettled(l, id, r, aborted);
    JoinSettledResults(l, id, r, aborted);
    JoinSettledPromises(l, id, r, aborted);
    JoinSettledJoins(l, id, r, aborted);
    JoinSettledAnswers(l, id, r, aborted);
    JoinSettledRequests(l, id, r, aborted);
    JoinSettledLink(c, l, l', id, r);
  }

  lemma JoinSettledLink(c: Config, l: Link, l': Link, id: AskId, r: Result)
    requires ConnInv(c, l) && ResolvedInv(l) && WireInv(l) && ResendInv(l)
    requires id in l.promises && l.promises[id].None?
    requires l' == l.(joins := l'.joins, promises := l.promises[id := Some(r)], history := l'.history)
    requires l'.history == l.history.(settled := l'.history.settled, aborted := l'.history.aborted)
    ensures ConnInv(c, l') && ResolvedInv(l') && WireInv(l') && ResendInv(l')
    ensures SizeInv(l) ==> SizeInv(l')
  {
    ConnStays(c, l, l');
    ShrinkKeepsWire(l, l');
    MoreSettledKeepsResolved(l, l');
  }

  // ---------- steps and runs ----------

  lemma AskStepKeeps(c: Config, l: Link, e: Event)
    requires Inv(c, l) && Enabled(l, e)
    requires e.Asked? || e.TimerFires? || e.AbortFires? || e.KeyDropped? || e.JoinDelivered? || e.JoinAborted?
    ensures Inv(c, Step(c, l, e))
  {
    match e
    case Asked(id, ask, now, signal) => AskKeeps(c, l, id, ask, now, signal);
    case TimerFires(id) => FinishKeeps(c, l, id, Frames.TimedOut, Frames.ByTimeout, Failed(TimedOut));
    case AbortFires(id) => FinishKeeps(c, l, id, Frames.Aborted, Frames.ByBrowxai, Failed(Detached));
    case KeyDropped(key) => DropKeyKeeps(c, l, key);
    case JoinDelivered(id) =>
      var r := l.promises[l.joins[id].first].value;
      JoinSettledKeeps(c, l, id, r, l.history.aborted);
      assert OnJoinDelivered(l, id) == JoinSettled(l, id, r, l.history.aborted);
    case JoinAborted(id) =>
      var aborted := l.history.aborted + {id};
      JoinSettledKeeps(c, l, id, Failed(Detached), aborted);
      assert OnJoinAborted(l, id) == JoinSettled(l, id, Failed(Detached), aborted);
  }

  lemma DataKeeps(c: Config, l: Link, conn: Conn, chunk: Text)
    requires Inv(c, l)
    ensures Inv(c, OnData(c, l, conn, chunk))
  {
    if l.sock == Some(conn) {
      BufKeeps(c, l, l.buf + chunk);
      ConsumeKeeps(c, l.(buf := l.buf + chunk), conn);
    }
  }

  lemma StepKeeps(c: Config, l: Link, e: Event)
    requires Inv(c, l)
    ensures Inv(c, Step(c, l, e))
  {
    if Enabled(l, e) {
      match e
      case RetryFires(check, nonce) => RetryKeeps(c, l, check, nonce);
      case SocketConnected(conn) => ConnectedKeeps(c, l, conn);
      case DataArrives(conn, chunk) => DataKeeps(c, l, conn, chunk);
      case SocketCloses(conn) => ClosedSocketKeeps(c, l, conn);
      case HandshakeExpires => DestroyKeeps(c, l, l.sock.value);
      case CloseCalled => CloseKeeps(c, l);
      case ViewSends(pairs) => SendKeeps(c, l, View(pairs));
      case _ => AskStepKeeps(c, l, e);
    }
  }

  lemma StartedInv(c: Config, check: SocketCheck, nonce: Text)
    requires ValidConfig(c) && |nonce| == 32
    ensures Inv(c, Started(check, nonce))
  {
    var l := Started(check, nonce);
    assert l.pending == [] && l.promises == map[] && l.history.wire == [] && l.history.settled == [];
    assert ConnInv(c, l) && AskInv(l);
  }

  lemma {:induction false} RunInv(c: Config, check: SocketCheck, nonce: Text, events: seq<Event>)
    requires ValidConfig(c) && |nonce| == 32
    ensures Inv(c, Run(c, Started(check, nonce), events))
  {
    StartedInv(c, check, nonce);
    if events != [] {
      var front := events[..|events| - 1];
      RunInv(c, check, nonce, front);
      StepKeeps(c, Run(c, Started(check, nonce), front), events[|events| - 1]);
    }
  }
}

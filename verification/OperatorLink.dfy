/** The operator channel's connection: a reconnecting, mutually authenticated
    request and answer protocol, driven by socket, timer, abort and ask events in
    any order. (src/helper/operator-channel.ts, `OperatorLink`) */
module OperatorLink {
  import opened Json
  import opened OperatorProtocol
  import opened OperatorFrames

  const BACKOFF_START_MS: nat := 250
  const BACKOFF_MAX_MS: nat := 5_000

  datatype Role = DaemonRole | BrowxaiRole

  /** What the channel is given: its secret, the keyed hash over both nonces, and
      JSON's parser. Nothing is known of either function but the shape of a proof. */
  datatype Config = Config(
    token: Text,
    version: Text,
    pid: Number,
    proof: (Text, Role, Text, Text) -> Text,
    parse: Text -> Option<Json>,
    views: bool)

  ghost predicate ValidConfig(c: Config) {
    && |c.version| <= 64
    && forall token, role, h, d :: IsProof(c.proof(token, role, h, d))
  }

  type Conn = nat

  type AskId = Text

  datatype State = Down | HelloSent | AuthSent | Ready | Closed

  datatype Signal = NoSignal | LiveSignal | AbortedSignal

  datatype Answer = Answer(decision: Decision, value: Option<Json>, grant: Option<Grant>)

  datatype Failure = TimedOut | Detached | ChannelClosed | TooLarge | TooMany

  datatype Result = Answered(answer: Answer) | Failed(why: Failure)

  datatype Pending = Pending(
    id: AskId, cls: PromptClass, session: Text, frame: Request, rules: AnswerRules, signal: Signal)

  /** A repeat of a page prompt, waiting on the first one's answer. */
  datatype Join = Join(first: AskId, signal: Signal)

  datatype Line = Ask(request: Request) | Note(notice: Notice) | View(pairs: Pairs)

  function PairsOf(l: Line): Pairs {
    match l
    case Ask(r) => RequestPairs(r)
    case Note(n) => NoticePairs(n)
    case View(ps) => ps
  }

  datatype Written = Written(conn: Conn, line: Line)

  /** History: an answer frame that passed, and where and when it was read. */
  datatype Reading = Reading(id: AskId, conn: Option<Conn>, state: State, fields: Fields)

  /** History: the nonce and the proof with which the daemon passed on a connection. */
  datatype Proven = Proven(daemonNonce: Text, proof: Option<Json>)

  datatype Settled = Settled(id: AskId, result: Result)

  /** History: a whole line that was taken off what arrived on a connection. */
  datatype Heard = Heard(conn: Conn, line: Text)

  /** What an observer of the whole channel has seen; `refused` are the lines the
      size limit kept back. */
  datatype History = History(
    prompts: map<AskId, Prompt>,
    keys: map<AskId, Key>,
    nonces: map<Conn, Text>,
    proven: map<Conn, Proven>,
    greeted: set<Conn>,
    wire: seq<Written>,
    readings: seq<Reading>,
    settled: seq<Settled>,
    joined: map<AskId, AskId>,
    aborted: set<AskId>,
    refused: seq<Line>,
    handed: seq<Fields>,
    heard: seq<Heard>)

  datatype Link = Link(
    state: State,
    sock: Option<Conn>,
    nextConn: Conn,
    destroyed: set<Conn>,
    buf: Text,
    helloNonce: Text,
    daemonNonce: Text,
    retry: Option<nat>,
    handshake: bool,
    backoff: nat,
    pending: seq<Pending>,
    promises: map<AskId, Option<Result>>,
    pageAsks: map<Key, AskId>,
    joins: map<AskId, Join>,
    history: History)

  const FRESH := Link(
    Down, None, 0, {}, [], [], [], None, false, BACKOFF_START_MS, [], map[], map[], map[],
    History(map[], map[], map[], map[], {}, [], [], [], map[], {}, [], [], []))

  // ---------- writing and settling ----------

  /** `#send`: nothing goes out without a live socket, nor past the line limit. */
  function Send(l: Link, line: Line): Link {
    if l.sock.None? || l.sock.value in l.destroyed then l
    else if LineBytes(PairsOf(line)) > MAX_FRAME_BYTES then
      l.(history := l.history.(refused := l.history.refused + [line]))
    else l.(history := l.history.(wire := l.history.wire + [Written(l.sock.value, line)]))
  }

  function Destroy(l: Link, conn: Conn): Link { l.(destroyed := l.destroyed + {conn}) }

  function Find(ps: seq<Pending>, id: AskId): (r: Option<Pending>)
    ensures r.None? <==> forall p :: p in ps ==> p.id != id
    ensures r.Some? ==> r.value in ps && r.value.id == id
  {
    if ps == [] then None
    else if ps[|ps| - 1].id == id then Some(ps[|ps| - 1])
    else Find(ps[..|ps| - 1], id)
  }

  function Remove(ps: seq<Pending>, id: AskId): (r: seq<Pending>)
    ensures forall p :: p in r <==> p in ps && p.id != id
    ensures |r| <= |ps|
  {
    if ps == [] then []
    else
      var front, last := Remove(ps[..|ps| - 1], id), ps[|ps| - 1];
      if last.id == id then front else front + [last]
  }

  /** A promise takes the first result it is given. */
  function Fulfil(l: Link, id: AskId, r: Result): Link {
    if id in l.promises && l.promises[id].Some? then l
    else l.(promises := l.promises[id := Some(r)],
            history := l.history.(settled := l.history.settled + [Settled(id, r)]))
  }

  /** The `settle` of one pending request. */
  function Settle(l: Link, id: AskId, r: Result): Link {
    Fulfil(l.(pending := Remove(l.pending, id)), id, r)
  }

  /** `finish`: the daemon hears how the request ended, then the asker does. */
  function Finish(l: Link, id: AskId, outcome: Outcome, who: Answerer, why: Failure): Link {
    Settle(Send(l, Note(Resolved(id, outcome, who))), id, Failed(why))
  }

  // ---------- ask ----------

  function CountClass(ps: seq<Pending>, c: PromptClass): (n: nat)
    ensures n <= |ps|
  {
    if ps == [] then 0
    else CountClass(ps[..|ps| - 1], c) + if ps[|ps| - 1].cls == c then 1 else 0
  }

  function CountSession(ps: seq<Pending>, c: PromptClass, s: Text): (n: nat)
    ensures n <= CountClass(ps, c)
  {
    if ps == [] then 0
    else CountSession(ps[..|ps| - 1], c, s)
         + if ps[|ps| - 1].cls == c && ps[|ps| - 1].session == s then 1 else 0
  }

  predicate HasRoom(ps: seq<Pending>, c: PromptClass, s: Text) {
    |ps| < MAX_PENDING && CountClass(ps, c) < ClassLimit(c) && CountSession(ps, c, s) < SessionLimit(c)
  }

  function Reject(l: Link, id: AskId, why: Failure): Link { Fulfil(l, id, Failed(why)) }

  /** `#join`: a repeat waits on the first prompt's promise. */
  function JoinFirst(l: Link, id: AskId, first: AskId, signal: Signal): Link {
    var h := l.history.(joined := l.history.joined[id := first]);
    if signal.AbortedSignal? then
      Reject(l.(history := h.(aborted := h.aborted + {id})), id, Detached)
    else
      l.(promises := l.promises[id := None], joins := l.joins[id := Join(first, signal)], history := h)
  }

  function Enqueue(l: Link, p: Pending): Link {
    var q := l.(pending := l.pending + [p], promises := l.promises[p.id := None]);
    if p.signal.AbortedSignal? then Finish(q, p.id, Aborted, ByBrowxai, Detached)
    else if q.state.Ready? then Send(q, Line.Ask(p.frame))
    else q
  }

  /** What is recorded of an ask that reached the channel. */
  function Noted(l: Link, id: AskId, prompt: Prompt, key: Option<Key>): Link {
    l.(history := l.history.(
         prompts := l.history.prompts[id := prompt],
         keys := if key.None? then l.history.keys else l.history.keys[id := key.value]))
  }

  function OnAsk(l: Link, id: AskId, ask: OperatorFrames.Ask, now: Number, signal: Signal): Link {
    if l.state.Closed? then Reject(l, id, ChannelClosed)
    else
      var frame, rules := RequestOf(id, ask, now), RulesOf(ask.prompt);
      if LineBytes(RequestPairs(frame)) > MAX_FRAME_BYTES then Reject(l, id, TooLarge)
      else
        var cls := ClassOf(ask.prompt);
        var key := DedupeKey(cls, frame);
        AskedOnce(Noted(l, id, ask.prompt, key),
                  Pending(id, cls, frame.session, frame, rules, signal), key)
  }

  function AskedOnce(l: Link, p: Pending, key: Option<Key>): Link {
    if key.Some? && key.value in l.pageAsks then JoinFirst(l, p.id, l.pageAsks[key.value], p.signal)
    else AskedFirst(l, p, key)
  }

  function AskedFirst(l: Link, p: Pending, key: Option<Key>): Link {
    if !HasRoom(l.pending, p.cls, p.session) then Reject(l, p.id, TooMany)
    else
      var e := Enqueue(l, p);
      if key.None? then e else e.(pageAsks := e.pageAsks[key.value := p.id])
  }

  /** The microtask that forgets a settled page prompt. */
  function OnDropKey(l: Link, key: Key): Link { l.(pageAsks := l.pageAsks - {key}) }

  function OnJoinDelivered(l: Link, id: AskId): Link
    requires id in l.joins && l.joins[id].first in l.promises && l.promises[l.joins[id].first].Some?
  {
    Fulfil(l.(joins := l.joins - {id}), id, l.promises[l.joins[id].first].value)
  }

  function OnJoinAborted(l: Link, id: AskId): Link {
    Reject(l.(joins := l.joins - {id}, history := l.history.(aborted := l.history.aborted + {id})), id, Detached)
  }

  // ---------- the connection ----------

  /** Every request is denied, in the order they were made. */
  function SettleAll(l: Link, ps: seq<Pending>): Link
    decreases |ps|
  {
    if ps == [] then l else SettleAll(Settle(l, ps[0].id, Failed(ChannelClosed)), ps[1..])
  }

  function Close(l: Link): Link {
    if l.state.Closed? then l
    else SettleAll(Shut(l), l.pending)
  }

  /** No socket and no timer, for good. */
  function Shut(l: Link): Link {
    l.(state := Closed, handshake := false, retry := None, sock := None,
       destroyed := if l.sock.None? then l.destroyed else l.destroyed + {l.sock.value})
  }

  function ScheduleRetry(l: Link): Link {
    if l.state.Closed? || l.retry.Some? then l
    else l.(retry := Some(l.backoff),
            backoff := if 2 * l.backoff <= BACKOFF_MAX_MS then 2 * l.backoff else BACKOFF_MAX_MS)
  }

  datatype SocketCheck = SocketOk | SocketMissing | SocketUnsafe

  function Connect(l: Link, check: SocketCheck, nonce: Text): Link {
    if l.state.Closed? then l
    else if !check.SocketOk? then ScheduleRetry(l)
    else Opened(l, nonce)
  }

  /** A new socket, with a nonce of its own. */
  function Opened(l: Link, nonce: Text): Link {
    Created(l, nonce).(state := HelloSent, buf := [], helloNonce := nonce, handshake := true)
  }

  function Created(l: Link, nonce: Text): Link {
    l.(sock := Some(l.nextConn), nextConn := l.nextConn + 1,
       history := l.history.(nonces := l.history.nonces[l.nextConn := nonce]))
  }

  function OnRetry(l: Link, check: SocketCheck, nonce: Text): Link {
    Connect(l.(retry := None), check, nonce)
  }

  function OnConnected(c: Config, l: Link, conn: Conn): Link {
    Send(l.(history := l.history.(greeted := l.history.greeted + {conn})),
         Note(Hello(l.helloNonce, c.version, c.pid)))
  }

  function OnSocketClosed(l: Link, conn: Conn): Link {
    if l.sock != Some(conn) then l
    else
      var d := l.(sock := None, handshake := false, destroyed := l.destroyed + {conn});
      if d.state.Closed? then d else ScheduleRetry(d.(state := Down))
  }

  // ---------- inbound ----------

  /** Requests made while the channel was down go out again under their own ids. */
  function ResendAll(l: Link, ps: seq<Pending>): Link
    decreases |ps|
  {
    if ps == [] then l else ResendAll(Send(l, Line.Ask(ps[0].frame)), ps[1..])
  }

  function OnWelcome(c: Config, l: Link, conn: Conn, f: Fields): Link {
    if !Is(f, "type", "welcome") || "nonce" !in f || !f["nonce"].Str? || |f["nonce"].s| > 128 then
      Destroy(l, conn)
    else
      var nonce := f["nonce"].s;
      if Field(f, "proof") != Some(Str(c.proof(c.token, DaemonRole, l.helloNonce, nonce))) then Close(l)
      else Authenticated(c, l, conn, nonce, Field(f, "proof"))
  }

  /** The daemon has proved itself; the channel does the same. */
  function Authenticated(c: Config, l: Link, conn: Conn, nonce: Text, proof: Option<Json>): Link {
    Send(l.(daemonNonce := nonce, state := AuthSent,
            history := l.history.(proven := l.history.proven[conn := Proven(nonce, proof)])),
         Note(Auth(c.proof(c.token, BrowxaiRole, l.helloNonce, nonce))))
  }

  function OnReady(l: Link, conn: Conn, f: Fields): Link {
    if !Is(f, "type", "ready") then Destroy(l, conn)
    else
      var r := l.(handshake := false, state := Ready, backoff := BACKOFF_START_MS);
      ResendAll(r, r.pending)
  }

  function IdOf(f: Fields): Text { if "id" in f && f["id"].Str? then f["id"].s else [] }

  function OnAnswer(l: Link, f: Fields): Link {
    var id := IdOf(f);
    match Find(l.pending, id)
    case None => Send(l, Note(UnknownRequest(Prefix(id, 64))))
    case Some(p) =>
      match CheckAnswer(p.rules, f)
      case Rejected(code) => Send(l, Note(BadAnswer(id, code)))
      case Accepted(decision, value, grant) => AcceptAnswer(l, id, f, Answer(decision, value, grant))
  }

  /** The daemon hears that its answer stands, then the asker gets it. */
  function AcceptAnswer(l: Link, id: AskId, f: Fields, a: Answer): Link {
    var s := Send(l, Note(Resolved(id, OutcomeOf(a.decision), ByOperator)));
    var n := s.(history := s.history.(readings := s.history.readings + [Reading(id, l.sock, l.state, f)]));
    Settle(n, id, Answered(a))
  }

  function OnView(c: Config, l: Link, f: Fields): Link {
    if c.views then l.(history := l.history.(handed := l.history.handed + [f]))
    else if Is(f, "type", "view.start") then
      var named := "session" in f && f["session"].Str?;
      Send(l, Note(ViewDisabled(if named then Some(Prefix(f["session"].s, 128)) else None)))
    else l
  }

  /** The fields of a line that is a frame of this protocol version. */
  function FrameOf(c: Config, line: Text): Option<Fields> {
    match c.parse(line)
    case None => None
    case Some(j) => if j.Obj? && Field(j.fields, "v") == Some(Num(1.0)) then Some(j.fields) else None
  }

  function OnFrame(c: Config, l: Link, conn: Conn, f: Fields): Link {
    match l.state
    case HelloSent => OnWelcome(c, l, conn, f)
    case AuthSent => OnReady(l, conn, f)
    case Ready =>
      if Is(f, "type", "answer") then OnAnswer(l, f)
      else if Is(f, "type", "view.start") || Is(f, "type", "view.stop") || Is(f, "type", "frame.ack") then
        OnView(c, l, f)
      else l
    case _ => l
  }

  function OnLine(c: Config, l: Link, conn: Conn, line: Text): Link {
    match FrameOf(c, line)
    case None => l
    case Some(f) => OnFrame(c, l, conn, f)
  }

  const NEWLINE: Unit := 0x0A

  /** `indexOf("\n")`, or the length when there is none. */
  function LineEnd(t: Text): (n: nat)
    ensures n <= |t|
    ensures NEWLINE !in t[..n]
    ensures n < |t| ==> t[n] == NEWLINE
  {
    if t == [] || t[0] == NEWLINE then 0 else 1 + LineEnd(t[1..])
  }

  lemma {:induction false} SettleAllKeepsBuf(l: Link, ps: seq<Pending>)
    ensures SettleAll(l, ps).buf == l.buf
    decreases |ps|
  {
    if ps != [] { SettleAllKeepsBuf(Settle(l, ps[0].id, Failed(ChannelClosed)), ps[1..]); }
  }

  lemma {:induction false} ResendKeepsBuf(l: Link, ps: seq<Pending>)
    ensures ResendAll(l, ps).buf == l.buf
    decreases |ps|
  {
    if ps != [] { ResendKeepsBuf(Send(l, Line.Ask(ps[0].frame)), ps[1..]); }
  }

  lemma CloseKeepsBuf(l: Link)
    ensures Close(l).buf == l.buf
  {
    SettleAllKeepsBuf(Shut(l), l.pending);
  }

  lemma AcceptedKeepsBuf(l: Link, id: AskId, f: Fields, a: Answer)
    ensures AcceptAnswer(l, id, f, a).buf == l.buf
  {
  }

  lemma AnswerKeepsBuf(l: Link, f: Fields)
    ensures OnAnswer(l, f).buf == l.buf
  {
    var p := Find(l.pending, IdOf(f));
    if p.Some? && CheckAnswer(p.value.rules, f).Accepted? {
      var a := CheckAnswer(p.value.rules, f);
      AcceptedKeepsBuf(l, IdOf(f), f, Answer(a.decision, a.value, a.grant));
    }
  }

  lemma HandshakeKeepsBuf(c: Config, l: Link, conn: Conn, f: Fields)
    ensures OnWelcome(c, l, conn, f).buf == l.buf && OnReady(l, conn, f).buf == l.buf
  {
    CloseKeepsBuf(l);
    var r := l.(handshake := false, state := Ready, backoff := BACKOFF_START_MS);
    ResendKeepsBuf(r, r.pending);
  }

  lemma LineKeepsBuf(c: Config, l: Link, conn: Conn, line: Text)
    ensures OnLine(c, l, conn, line).buf == l.buf
  {
    var f := FrameOf(c, line);
    if f.Some? {
      HandshakeKeepsBuf(c, l, conn, f.value);
      AnswerKeepsBuf(l, f.value);
    }
  }

  /** The first line has left the buffer. */
  function Rest(l: Link, conn: Conn): Link
    requires LineEnd(l.buf) < |l.buf|
  {
    l.(buf := l.buf[LineEnd(l.buf) + 1..],
       history := l.history.(heard := l.history.heard + [Heard(conn, l.buf[..LineEnd(l.buf)])]))
  }

  /** The channel after its first line. */
  function Turned(c: Config, l: Link, conn: Conn): Link
    requires LineEnd(l.buf) < |l.buf|
  {
    OnLine(c, Rest(l, conn), conn, l.buf[..LineEnd(l.buf)])
  }

  lemma TurnShrinks(c: Config, l: Link, conn: Conn)
    requires LineEnd(l.buf) < |l.buf|
    ensures |Turned(c, l, conn).buf| < |l.buf|
  {
    LineKeepsBuf(c, Rest(l, conn), conn, l.buf[..LineEnd(l.buf)]);
  }

  /** The loop of `#onData`: whole lines leave the buffer while the socket is the
      current one. A line or a remainder over the limit ends the connection. */
  function Consume(c: Config, l: Link, conn: Conn): Link
    decreases |l.buf|
  {
    if LineEnd(l.buf) == |l.buf| || l.sock != Some(conn) then
      if |l.buf| > MAX_FRAME_BYTES then Destroy(l, conn) else l
    else if LineEnd(l.buf) > MAX_FRAME_BYTES then Destroy(Rest(l, conn), conn)
    else
      TurnShrinks(c, l, conn);
      Consume(c, Turned(c, l, conn), conn)
  }

  function OnData(c: Config, l: Link, conn: Conn, chunk: Text): Link {
    if l.sock != Some(conn) then l else Consume(c, l.(buf := l.buf + chunk), conn)
  }

  // ---------- the class ----------

  class LinkObject {
    const cfg: Config
    var state: State
    var sock: Option<Conn>
    var nextConn: Conn
    var destroyed: set<Conn>
    var buf: Text
    var helloNonce: Text
    var daemonNonce: Text
    var retry: Option<nat>
    var handshake: bool
    var backoff: nat
    var pending: seq<Pending>
    var promises: map<AskId, Option<Result>>
    var pageAsks: map<Key, AskId>
    var joins: map<AskId, Join>
    ghost var history: History

    ghost function St(): Link
      reads this
    {
      Link(state, sock, nextConn, destroyed, buf, helloNonce, daemonNonce, retry, handshake, backoff,
           pending, promises, pageAsks, joins, history)
    }

    constructor (c: Config)
      ensures St() == FRESH && cfg == c
    {
      cfg := c;
      state, sock, nextConn, destroyed, buf := Down, None, 0, {}, [];
      helloNonce, daemonNonce, retry, handshake, backoff := [], [], None, false, BACKOFF_START_MS;
      pending, promises, pageAsks, joins := [], map[], map[], map[];
      history := History(map[], map[], map[], map[], {}, [], [], [], map[], {}, [], [], []);
    }

    method Write(line: Line)
      modifies this`history
      ensures St() == Send(old(St()), line)
    {
      if sock.Some? && sock.value !in destroyed {
        if LineBytes(PairsOf(line)) <= MAX_FRAME_BYTES {
          history := history.(wire := history.wire + [Written(sock.value, line)]);
        } else {
          history := history.(refused := history.refused + [line]);
        }
      }
    }

    method DestroySocket(conn: Conn)
      modifies this`destroyed
      ensures St() == Destroy(old(St()), conn)
    {
      destroyed := destroyed + {conn};
    }

    /** Resolve or reject a promise; only the first call counts. */
    method FulfilPromise(id: AskId, r: Result)
      modifies this`promises, this`history
      ensures St() == Fulfil(old(St()), id, r)
    {
      if id !in promises || promises[id].None? {
        promises := promises[id := Some(r)];
        history := history.(settled := history.settled + [Settled(id, r)]);
      }
    }

    method SettleRequest(id: AskId, r: Result)
      modifies this`pending, this`promises, this`history
      ensures St() == Settle(old(St()), id, r)
    {
      pending := Remove(pending, id);
      FulfilPromise(id, r);
    }

    method FinishRequest(id: AskId, outcome: Outcome, who: Answerer, why: Failure)
      modifies this`pending, this`promises, this`history
      ensures St() == Finish(old(St()), id, outcome, who, why)
    {
      Write(Note(Resolved(id, outcome, who)));
      SettleRequest(id, Failed(why));
    }

    /** `#hasRoom`: one pass over the pending requests. */
    method Room(cls: PromptClass, session: Text) returns (room: bool)
      ensures room == HasRoom(pending, cls, session)
    {
      var total, inClass, inSession := 0, 0, 0;
      for i := 0 to |pending|
        invariant total == i
        invariant inClass == CountClass(pending[..i], cls)
        invariant inSession == CountSession(pending[..i], cls, session)
      {
        var p := pending[i];
        assert pending[..i + 1][..i] == pending[..i];
        total := total + 1;
        if p.cls == cls {
          inClass := inClass + 1;
          if p.session == session { inSession := inSession + 1; }
        }
      }
      assert pending[..|pending|] == pending;
      room := total < MAX_PENDING && inClass < ClassLimit(cls) && inSession < SessionLimit(cls);
    }

    method JoinPrompt(id: AskId, first: AskId, signal: Signal)
      modifies this`promises, this`joins, this`history
      ensures St() == JoinFirst(old(St()), id, first, signal)
    {
      history := history.(joined := history.joined[id := first]);
      if signal.AbortedSignal? {
        history := history.(aborted := history.aborted + {id});
        FulfilPromise(id, Failed(Detached));
      } else {
        promises := promises[id := None];
        joins := joins[id := Join(first, signal)];
      }
    }

    method EnqueueRequest(p: Pending)
      modifies this`pending, this`promises, this`history
      ensures St() == Enqueue(old(St()), p)
    {
      pending := pending + [p];
      promises := promises[p.id := None];
      if p.signal.AbortedSignal? {
        FinishRequest(p.id, Aborted, ByBrowxai, Detached);
      } else if state.Ready? {
        Write(Line.Ask(p.frame));
      }
    }

    method AskOperator(id: AskId, ask: OperatorFrames.Ask, now: Number, signal: Signal)
      modifies this`pending, this`promises, this`pageAsks, this`joins, this`history
      ensures St() == OnAsk(old(St()), id, ask, now, signal)
    {
      if state.Closed? {
        FulfilPromise(id, Failed(ChannelClosed));
      } else {
        var frame, rules := BuildRequest(id, ask, now);
        if LineBytes(RequestPairs(frame)) > MAX_FRAME_BYTES {
          FulfilPromise(id, Failed(TooLarge));
        } else {
          var cls := ClassOf(ask.prompt);
          AskOnce(Pending(id, cls, frame.session, frame, rules, signal), DedupeKey(cls, frame), ask.prompt);
        }
      }
    }

    /** A prompt joins the one it repeats, if that is still out. */
    method AskOnce(p: Pending, key: Option<Key>, ghost prompt: Prompt)
      modifies this`pending, this`promises, this`pageAsks, this`joins, this`history
      ensures St() == AskedOnce(Noted(old(St()), p.id, prompt, key), p, key)
    {
      history := Noted(St(), p.id, prompt, key).history;
      if key.Some? && key.value in pageAsks {
        JoinPrompt(p.id, pageAsks[key.value], p.signal);
      } else {
        AskFirst(p, key);
      }
    }

    /** A prompt that is not a repeat: pending if there is room. */
    method AskFirst(p: Pending, key: Option<Key>)
      modifies this`pending, this`promises, this`pageAsks, this`history
      ensures St() == AskedFirst(old(St()), p, key)
    {
      var room := Room(p.cls, p.session);
      if !room {
        FulfilPromise(p.id, Failed(TooMany));
      } else {
        EnqueueRequest(p);
        if key.Some? { pageAsks := pageAsks[key.value := p.id]; }
      }
    }

    method DropKey(key: Key)
      modifies this`pageAsks
      ensures St() == OnDropKey(old(St()), key)
    {
      pageAsks := pageAsks - {key};
    }

    method DeliverJoin(id: AskId)
      requires id in joins && joins[id].first in promises && promises[joins[id].first].Some?
      modifies this`promises, this`joins, this`history
      ensures St() == OnJoinDelivered(old(St()), id)
    {
      var r := promises[joins[id].first].value;
      joins := joins - {id};
      FulfilPromise(id, r);
    }

    method AbortJoin(id: AskId)
      modifies this`promises, this`joins, this`history
      ensures St() == OnJoinAborted(old(St()), id)
    {
      joins := joins - {id};
      history := history.(aborted := history.aborted + {id});
      FulfilPromise(id, Failed(Detached));
    }

    method CloseChannel()
      modifies this
      ensures St() == Close(old(St()))
    {
      if !state.Closed? {
        ShutDown();
        DenyAll(pending);
      }
    }

    method ShutDown()
      modifies this`state, this`handshake, this`retry, this`destroyed, this`sock
      ensures St() == Shut(old(St()))
    {
      state, handshake, retry := Closed, false, None;
      destroyed := if sock.Some? then destroyed + {sock.value} else destroyed;
      sock := None;
    }

    method DenyAll(all: seq<Pending>)
      modifies this`pending, this`promises, this`history
      ensures St() == SettleAll(old(St()), all)
    {
      for i := 0 to |all|
        invariant SettleAll(St(), all[i..]) == SettleAll(old(St()), all)
      {
        assert all[i..][0] == all[i] && all[i..][1..] == all[i + 1..];
        SettleRequest(all[i].id, Failed(ChannelClosed));
      }
    }

    method Schedule()
      modifies this`retry, this`backoff
      ensures St() == ScheduleRetry(old(St()))
    {
      if !state.Closed? && retry.None? {
        retry := Some(backoff);
        backoff := if backoff * 2 <= BACKOFF_MAX_MS then backoff * 2 else BACKOFF_MAX_MS;
      }
    }

    method Dial(check: SocketCheck, nonce: Text)
      modifies this
      ensures St() == Connect(old(St()), check, nonce)
    {
      if !state.Closed? {
        if check.SocketOk? { OpenSocket(nonce); } else { Schedule(); }
      }
    }

    method OpenSocket(nonce: Text)
      modifies this
      ensures St() == Opened(old(St()), nonce)
    {
      NewSocket(nonce);
      state, buf, helloNonce, handshake := HelloSent, [], nonce, true;
    }

    method NewSocket(nonce: Text)
      modifies this`sock, this`nextConn, this`history
      ensures St() == Created(old(St()), nonce)
    {
      history := history.(nonces := history.nonces[nextConn := nonce]);
      sock := Some(nextConn);
      nextConn := nextConn + 1;
    }

    method RetryFires(check: SocketCheck, nonce: Text)
      modifies this
      ensures St() == OnRetry(old(St()), check, nonce)
    {
      retry := None;
      Dial(check, nonce);
    }

    method Connected(conn: Conn)
      modifies this`history
      ensures St() == OnConnected(cfg, old(St()), conn)
    {
      history := history.(greeted := history.greeted + {conn});
      Write(Note(Hello(helloNonce, cfg.version, cfg.pid)));
    }

    method SocketClosed(conn: Conn)
      modifies this
      ensures St() == OnSocketClosed(old(St()), conn)
    {
      if sock == Some(conn) {
        sock, handshake, destroyed := None, false, destroyed + {conn};
        if !state.Closed? {
          state := Down;
          Schedule();
        }
      }
    }

    method Welcome(conn: Conn, f: Fields)
      requires ValidConfig(cfg)
      modifies this
      ensures St() == OnWelcome(cfg, old(St()), conn, f)
    {
      if !Is(f, "type", "welcome") || "nonce" !in f || !f["nonce"].Str? || |f["nonce"].s| > 128 {
        DestroySocket(conn);
      } else {
        var nonce := f["nonce"].s;
        var expected := cfg.proof(cfg.token, DaemonRole, helloNonce, nonce);
        if !ProofMatches(expected, Field(f, "proof")) {
          CloseChannel();
        } else {
          Authenticate(conn, nonce, Field(f, "proof"));
        }
      }
    }

    method Authenticate(conn: Conn, nonce: Text, proof: Option<Json>)
      modifies this
      ensures St() == Authenticated(cfg, old(St()), conn, nonce, proof)
    {
      daemonNonce, state := nonce, AuthSent;
      history := history.(proven := history.proven[conn := Proven(nonce, proof)]);
      Write(Note(Auth(cfg.proof(cfg.token, BrowxaiRole, helloNonce, daemonNonce))));
    }

    method DaemonReady(conn: Conn, f: Fields)
      modifies this
      ensures St() == OnReady(old(St()), conn, f)
    {
      if !Is(f, "type", "ready") {
        DestroySocket(conn);
      } else {
        handshake, state, backoff := false, Ready, BACKOFF_START_MS;
        ResendEach(pending);
      }
    }

    method ResendEach(all: seq<Pending>)
      modifies this`history
      ensures St() == ResendAll(old(St()), all)
    {
      for i := 0 to |all|
        invariant ResendAll(St(), all[i..]) == ResendAll(old(St()), all)
      {
        assert all[i..][0] == all[i] && all[i..][1..] == all[i + 1..];
        Write(Line.Ask(all[i].frame));
      }
    }

    method AnswerArrives(f: Fields)
      modifies this
      ensures St() == OnAnswer(old(St()), f)
    {
      var id := IdOf(f);
      var p := Find(pending, id);
      if p.None? {
        Write(Note(UnknownRequest(Prefix(id, 64))));
      } else {
        var check := CheckAnswer(p.value.rules, f);
        match check {
          case Rejected(code) => Write(Note(BadAnswer(id, code)));
          case Accepted(decision, value, grant) =>
            Write(Note(Resolved(id, OutcomeOf(decision), ByOperator)));
            history := history.(readings := history.readings + [Reading(id, sock, state, f)]);
            SettleRequest(id, Answered(Answer(decision, value, grant)));
        }
      }
    }

    method ViewArrives(f: Fields)
      modifies this`history
      ensures St() == OnView(cfg, old(St()), f)
    {
      if cfg.views {
        history := history.(handed := history.handed + [f]);
      } else if Is(f, "type", "view.start") {
        var session := if "session" in f && f["session"].Str? then Some(Prefix(f["session"].s, 128)) else None;
        Write(Note(ViewDisabled(session)));
      }
    }

    method LineArrives(conn: Conn, line: Text)
      requires ValidConfig(cfg)
      modifies this
      ensures St() == OnLine(cfg, old(St()), conn, line)
    {
      var parsed := cfg.parse(line);
      if parsed.Some? && parsed.value.Obj? && Field(parsed.value.fields, "v") == Some(Num(1.0)) {
        FrameArrives(conn, parsed.value.fields);
      }
    }

    method FrameArrives(conn: Conn, f: Fields)
      requires ValidConfig(cfg)
      modifies this
      ensures St() == OnFrame(cfg, old(St()), conn, f)
    {
      if state.HelloSent? {
        Welcome(conn, f);
      } else if state.AuthSent? {
        DaemonReady(conn, f);
      } else if state.Ready? {
        if Is(f, "type", "answer") {
          AnswerArrives(f);
        } else if Is(f, "type", "view.start") || Is(f, "type", "view.stop") || Is(f, "type", "frame.ack") {
          ViewArrives(f);
        }
      }
    }

    /** The first line leaves the buffer and is read, unless it is too long. */
    method TakeLine(conn: Conn) returns (oversized: bool)
      requires ValidConfig(cfg) && LineEnd(buf) < |buf|
      modifies this
      ensures oversized == (LineEnd(old(buf)) > MAX_FRAME_BYTES)
      ensures St() == if oversized then Destroy(Rest(old(St()), conn), conn) else Turned(cfg, old(St()), conn)
    {
      var n := LineEnd(buf);
      var line := buf[..n];
      buf := buf[n + 1..];
      history := history.(heard := history.heard + [Heard(conn, line)]);
      oversized := |line| > MAX_FRAME_BYTES;
      if oversized { DestroySocket(conn); } else { LineArrives(conn, line); }
    }

    method DataArrives(conn: Conn, chunk: Text)
      requires ValidConfig(cfg)
      modifies this
      ensures St() == OnData(cfg, old(St()), conn, chunk)
    {
      if sock == Some(conn) {
        buf := buf + chunk;
        ghost var goal := Consume(cfg, St(), conn);
        var oversized := false;
        while LineEnd(buf) < |buf| && sock == Some(conn) && !oversized
          invariant oversized ==> St() == goal
          invariant !oversized ==> Consume(cfg, St(), conn) == goal
          decreases !oversized, |buf|
        {
          TurnShrinks(cfg, St(), conn);
          oversized := TakeLine(conn);
        }
        if !oversized && |buf| > MAX_FRAME_BYTES {
          DestroySocket(conn);
        }
      }
    }
  }
}

/** The lines of the live view as bytes: what the hub tells the daemon and the parts of
    every frame fit the line limit, over every run.
    (src/helper/operator-view-hub.ts, src/helper/operator-view.ts:218-237) */
module ViewLines {
  import opened Json
  import opened OperatorProtocol
  import opened OperatorFrames
  import opened ViewRules
  import VS = ViewStream
  import Stream = ViewStreamRuns
  import opened ViewHub
  import opened ViewHubRuns

  function ReasonWord(r: VS.StopReason): (w: string)
    ensures |w| <= 14
  {
    match r
    case Daemon => "daemon"
    case SessionClosed => "session-closed"
    case ChannelDown => "channel-down"
    case ChannelClosed => "channel-closed"
    case Stalled => "stalled"
    case PageClosed => "page-closed"
    case SourceError => "source-error"
  }

  function CodeWord(c: ViewHub.Code): (w: string)
    ensures |w| <= 16
  {
    match c
    case InvalidView => "invalid-view"
    case UnknownSession => "unknown-session"
    case ViewUnsupported => "view-unsupported"
    case ViewLimit => "view-limit"
    case ViewFailed => "view-failed"
  }

  /** What goes on the wire for a frame of the hub; `show` is how JSON spells a number. */
  function FramePairs(f: Frame, show: real -> OperatorFrames.Number): Pairs {
    match f
    case Started(s, p, _) =>
      [VERSION, ("type", VWord("view.started")), ("session", VText(s)), ("format", VWord("jpeg")),
       ("maxFps", VNum(show(p.maxFps))), ("maxWidth", VNum(show(p.maxWidth as real))),
       ("quality", VNum(show(p.quality)))]
    case Stopped(s, reason, _) =>
      [VERSION, ("type", VWord("view.stopped")), ("session", VText(s)), ("reason", VWord(ReasonWord(reason)))]
    case Refusal(code, to) =>
      [VERSION, ("type", VWord("error")), ("code", VWord(CodeWord(code)))]
      + if to.None? then [] else [("session", VText(to.value))]
  }

  predicate ShortName(s: Session) { |s| <= MAX_SESSION_CHARS }

  predicate ShortFrame(f: Frame) {
    match f
    case Started(s, _, _) => ShortName(s)
    case Stopped(s, _, _) => ShortName(s)
    case Refusal(_, to) => to.Some? ==> ShortName(to.value)
  }

  lemma ShortFrameFits(f: Frame, show: real -> OperatorFrames.Number)
    requires ShortFrame(f)
    ensures LineBytes(FramePairs(f, show)) <= 2_000 < MAX_FRAME_BYTES
  {
    match f
    case Started(_, _, _) =>
      PairsBound(FramePairs(f, show), [50, 50, 800, 50, 50, 50, 50]);
      assert Sum([50, 50, 800, 50, 50, 50, 50]) == 1_100;
    case Stopped(_, _, _) =>
      PairsBound(FramePairs(f, show), [50, 50, 800, 50]);
      assert Sum([50, 50, 800, 50]) == 950;
    case Refusal(_, _) => RefusalFits(f, show);
  }

  lemma RefusalFits(f: Frame, show: real -> OperatorFrames.Number)
    requires f.Refusal? && ShortFrame(f)
    ensures LineBytes(FramePairs(f, show)) <= 2_000
  {
    if f.to.None? {
      PairsBound(FramePairs(f, show), [50, 50, 50]);
      assert Sum([50, 50, 50]) == 150;
    } else {
      PairsBound(FramePairs(f, show), [50, 50, 50, 800]);
      assert Sum([50, 50, 50, 800]) == 950;
    }
  }

  // ---------- the hub ----------

  /** Only an `unregister` can name a session of any length, and it says nothing: every
      other task, every stream and every frame is of a session that a frame named. */
  ghost predicate NamesInv(h: Hub) {
    && (forall s, t :: t in ChainOf(h, s) && !t.Close? ==> ShortName(s))
    && (forall id :: id in h.infos ==> ShortName(h.infos[id].session))
    && (forall f :: f in h.history.wire ==> ShortFrame(f))
  }

  /** What a step says and makes is of sessions with short names. */
  ghost predicate SaysShort(h: Hub, h': Hub) {
    && (forall id :: id in h'.infos ==>
          ShortName(h'.infos[id].session) || (id in h.infos && h'.infos[id].session == h.infos[id].session))
    && (forall f :: f in h'.history.wire ==> f in h.history.wire || ShortFrame(f))
  }

  lemma EnqueueNames(h: Hub, g: Hub, s: Session, t: Task)
    requires NamesInv(h) && g.chains == h.chains && g.infos == h.infos && g.history == h.history
    requires t.Close? || ShortName(s)
    ensures NamesInv(Enqueue(g, s, t))
  {
    var h' := Enqueue(g, s, t);
    forall u, v | v in ChainOf(h', u) && !v.Close? ensures ShortName(u) {
      if v in ChainOf(h, u) {}
    }
  }

  lemma HeadIsNamed(h: Hub, s: Session)
    requires NamesInv(h) && s in h.chains && h.chains[s] != [] && !h.chains[s][0].Close?
    ensures ShortName(s)
  {
    assert h.chains[s][0] in ChainOf(h, s);
  }

  /** The head of a chain ends or is suspended. */
  lemma MovesSayShort(h: Hub, g: Hub, s: Session, t: Task)
    requires SaysShort(h, g) && s in g.chains && g.chains[s] != []
    ensures SaysShort(h, Dequeue(g, s)) && SaysShort(h, Suspend(g, s, t))
  {
  }

  lemma SendSaysShort(h: Hub, f: Frame)
    requires ShortFrame(f)
    ensures SaysShort(h, Send(h, f)) && SaysShort(h, h)
  {
  }

  lemma FinishSaysShort(h: Hub, id: StreamId, tell: bool)
    requires MapInv(h) && id in h.infos
    ensures SaysShort(h, Finish(h, id, tell)) && Finish(h, id, tell).chains == h.chains
  {
    FinishShape(h, id, tell);
  }

  lemma LaunchSaysShort(h: Hub, s: Session, params: Params, source: Source)
    requires s in h.chains && h.chains[s] != [] && ShortName(s)
    ensures SaysShort(h, Launch(h, s, params, source))
  {
  }

  lemma RefusalSaysShort(h: Hub, s: Session, code: ViewHub.Code)
    requires s in h.chains && h.chains[s] != [] && ShortName(s)
    ensures SaysShort(h, Dequeue(Send(h, Refusal(code, Some(s))), s))
  {
    SendSaysShort(h, Refusal(code, Some(s)));
    MovesSayShort(h, Send(h, Refusal(code, Some(s))), s, Stop);
  }

  lemma StopSaysShort(h: Hub, s: Session, reason: VS.StopReason, answer: bool)
    requires Inv(h) && Ready(h, s) && h.chains[s][0].Queued() && (answer ==> ShortName(s))
    ensures SaysShort(h, RunStop(h, s, reason, answer))
  {
    if s in h.streams {
      var id := h.streams[s];
      FinishSaysShort(h, id, true);
      MovesSayShort(h, Finish(h, id, true), s, Finishing(id, reason));
    } else {
      SendSaysShort(h, Refusal(UnknownSession, None));
      if answer { SendSaysShort(h, Stopped(s, reason, None)); }
      MovesSayShort(h, if answer then Send(h, Stopped(s, reason, None)) else h, s, Stop);
    }
  }

  lemma StartSaysShort(h: Hub, s: Session, params: Params, epoch: nat)
    requires Inv(h) && Ready(h, s) && h.chains[s][0] == Start(params, epoch) && ShortName(s)
    ensures SaysShort(h, RunStart(h, s, params, epoch))
  {
    RefusalSaysShort(h, s, UnknownSession);
    RefusalSaysShort(h, s, ViewUnsupported);
    RefusalSaysShort(h, s, ViewLimit);
    SendSaysShort(h, Refusal(UnknownSession, None));
    MovesSayShort(h, h, s, Stop);
    if epoch == h.epoch && s in h.sources && h.sources[s].Some? {
      var source := h.sources[s].value;
      if s in h.streams {
        FinishSaysShort(h, h.streams[s], false);
        MovesSayShort(h, Finish(h, h.streams[s], false), s, Restarting(params, epoch, source));
      } else {
        LaunchSaysShort(h, s, params, source);
      }
    }
  }

  lemma BegunSaysShort(h: Hub, s: Session, params: Params, source: Source, id: StreamId, ok: bool)
    requires Inv(h) && Ready(h, s) && h.chains[s][0] == Beginning(params, source, id) && ShortName(s)
    ensures SaysShort(h, Begun(h, s, params, source, id, ok))
  {
    SendSaysShort(h, Started(s, params, id));
    MovesSayShort(h, h, s, Stop);
    if !ok || (!h.infos[id].stopped && !HasSource(h, s, source)) {
      FinishSaysShort(h, id, ok);
      MovesSayShort(h, Finish(h, id, ok), s, if ok then Finishing(id, VS.SessionClosed) else Failing(id));
    }
  }

  lemma ResumeSaysShort(h: Hub, s: Session, ok: bool)
    requires Inv(h) && NamesInv(h) && Ready(h, s)
    ensures SaysShort(h, Resume(h, s, ok))
  {
    if !h.chains[s][0].Close? { HeadIsNamed(h, s); }
    match h.chains[s][0]
    case Start(params, epoch) => StartSaysShort(h, s, params, epoch);
    case Restarting(params, epoch, source) =>
      RefusalSaysShort(h, s, UnknownSession);
      LaunchSaysShort(h, s, params, source);
    case Beginning(params, source, id) => BegunSaysShort(h, s, params, source, id, ok);
    case Failing(id) => RefusalSaysShort(h, s, ViewFailed);
    case Stop => StopSaysShort(h, s, VS.Daemon, true);
    case Close => StopSaysShort(h, s, VS.SessionClosed, false);
    case Finishing(id, reason) => MovesSayShort(h, Tells(h, id, reason), s, Stop);
  }

  /** A session whose chain has more than a `Close` left was named by a frame. */
  lemma ResumeNames(h: Hub, s: Session, ok: bool)
    requires Inv(h) && NamesInv(h) && Ready(h, s)
    ensures NamesInv(Resume(h, s, ok))
  {
    var h' := Resume(h, s, ok);
    ResumeSaysShort(h, s, ok);
    ResumeMoves(h, s, ok);
    forall u, t | t in ChainOf(h', u) && !t.Close? ensures ShortName(u) {
      if t in ChainOf(h, u) {
      } else {
        assert u == s;
        CloseSuspendsNamed(h, s, ok);
      }
    }
  }

  /** A `Close` is suspended only on behalf of a stream. */
  lemma CloseSuspendsNamed(h: Hub, s: Session, ok: bool)
    requires Inv(h) && NamesInv(h) && Ready(h, s)
    ensures ShortName(s) || ChainOf(Resume(h, s, ok), s) == h.chains[s][1..]
  {
    assert h.chains[s][0] in ChainOf(h, s);
    if h.chains[s][0].Close? && s in h.streams {
      assert h.infos[h.streams[s]].session == s;
    }
  }

  lemma NamesStay(h: Hub, h': Hub)
    requires NamesInv(h) && SaysShort(h, h')
    requires forall s :: ChainOf(h', s) == ChainOf(h, s)
    ensures NamesInv(h')
  {
    forall s, t | t in ChainOf(h', s) && !t.Close? ensures ShortName(s) {
      assert t in ChainOf(h, s);
    }
  }

  lemma NamesStep(h: Hub, e: Event)
    requires Inv(h) && NamesInv(h)
    ensures NamesInv(Step(h, e))
  {
    if Enabled(h, e) {
      match e
      case Unregistered(s) => EnqueueNames(h, h.(sources := h.sources - {s}), s, Close);
      case StartFrame(f) =>
        match ParseViewStart(f) {
          case Accepted(s, params) => EnqueueNames(h, h, s, Start(params, h.epoch));
          case Refused => NamesStay(h, Step(h, e));
        }
      case StopFrame(f) => if SessionOf(f).Some? { EnqueueNames(h, h, SessionOf(f).value, Stop); }
      case Resumed(s, ok) => ResumeNames(h, s, ok);
      case _ => OthersNames(h, e);
    }
  }

  lemma OthersNames(h: Hub, e: Event)
    requires Inv(h) && NamesInv(h) && Enabled(h, e)
    requires e.Registered? || e.StreamEnded? || e.LooseDone? || e.Disconnected?
    ensures NamesInv(Step(h, e))
  {
    if e.StreamEnded? { FinishShape(h, e.id, true); }
    NamesStay(h, Step(h, e));
  }

  lemma {:induction false} NamesRun(events: seq<Event>)
    ensures NamesInv(Run(EMPTY, events))
  {
    if events != [] {
      var front := events[..|events| - 1];
      NamesRun(front);
      ReachableInv(front);
      NamesStep(Run(EMPTY, front), events[|events| - 1]);
    }
  }

  /** Whatever sessions come and go and whatever the daemon asks, every frame the hub
      has for it is a line of at most 2,000 bytes. */
  lemma {:induction false} HubLinesFit(events: seq<Event>, f: Frame, show: real -> OperatorFrames.Number)
    requires f in Run(EMPTY, events).history.wire
    ensures LineBytes(FramePairs(f, show)) <= 2_000 < MAX_FRAME_BYTES
  {
    NamesRun(events);
    ShortFrameFits(f, show);
  }

  // ---------- the streams ----------

  /** The screencast's data is base64. */
  predicate SendsBase64(events: seq<Stream.Event>) {
    forall i :: 0 <= i < |events| && events[i].FrameAt? ==> IsBase64(events[i].base64)
  }

  predicate ShortPart(p: Part, session: Text) {
    p.session == session && |p.data| <= PART_CHARS && IsBase64(p.data)
  }

  predicate CarriesBase64(sends: seq<VS.Send>) {
    forall i :: 0 <= i < |sends| ==> IsBase64(sends[i].data)
  }

  lemma {:induction false} PiecesAreShort(session: Text, seqNo: nat, at: real, data: Text, parts: nat, n: nat)
    requires n <= parts == PartCount(|data|) && IsBase64(data)
    ensures forall p :: p in Pieces(session, seqNo, at, data, parts, n) ==> ShortPart(p, session)
  {
    if n > 0 {
      PiecesAreShort(session, seqNo, at, data, parts, n - 1);
      PartCountFits(|data|);
      PieceLength(data, n - 1);
    }
  }

  lemma {:induction false} AllPartsAreShort(session: Text, sends: seq<VS.Send>)
    requires CarriesBase64(sends)
    ensures forall p :: p in Stream.AllParts(session, sends) ==> ShortPart(p, session)
  {
    if sends != [] {
      var f := sends[|sends| - 1];
      AllPartsAreShort(session, sends[..|sends| - 1]);
      PiecesAreShort(session, f.seqNo, f.at, f.data, PartCount(|f.data|), PartCount(|f.data|));
    }
  }

  lemma SentIsBase64(s: VS.Stream, e: Stream.Event)
    requires s.adapter.Valid() && CarriesBase64(s.history.sends) && (e.FrameAt? ==> IsBase64(e.base64))
    ensures CarriesBase64(Stream.Step(s, e).history.sends)
  {
    if Stream.Enabled(s, e) {
      match e
      case FrameAt(now, canWrite, base64) =>
        Stream.OfferShape(VS.Released(VS.At(s, now), now), now, canWrite, base64);
      case AckAt(_, _) =>
      case ReleaseFires(_) =>
      case _ => Stream.OthersAreQuiet(s, e);
    }
  }

  lemma {:induction false} RunSendsBase64(s: VS.Stream, events: seq<Stream.Event>)
    requires s.adapter.Valid() && CarriesBase64(s.history.sends) && SendsBase64(events)
    ensures CarriesBase64(Stream.Run(s, events).history.sends)
  {
    if events != [] {
      RunSendsBase64(s, events[..|events| - 1]);
      SentIsBase64(Stream.Run(s, events[..|events| - 1]), events[|events| - 1]);
    }
  }

  /** Every part a stream ever sends is a line of at most 42 KiB, with whatever numbers
      and picture size go with it. */
  lemma {:induction false} StreamLinesFit(
    session: Text, p: ViewParams, start: real, events: seq<Stream.Event>, part: Part,
    seqNo: OperatorFrames.Number, at: OperatorFrames.Number,
    size: Option<(OperatorFrames.Number, OperatorFrames.Number)>,
    index: OperatorFrames.Number, parts: OperatorFrames.Number)
    requires InCeiling(p) && |session| <= MAX_SESSION_CHARS && SendsBase64(events)
    ensures Stream.Fresh(session, p, start).adapter.Valid()
    ensures part in Stream.Run(Stream.Fresh(session, p, start), events).history.out ==>
              LineBytes(PartPairs(part, seqNo, at, size, index, parts)) <= 42 * 1024 < MAX_FRAME_BYTES
  {
    Stream.WireIsWholeFrames(session, p, start, events);
    var f := Stream.Fresh(session, p, start);
    RunSendsBase64(f, events);
    AllPartsAreShort(session, Stream.Run(f, events).history.sends);
    if part in Stream.Run(f, events).history.out { PartFits(part, seqNo, at, size, index, parts); }
  }
}

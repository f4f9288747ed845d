/** The channel, the hub and the streams that the hub makes, run together: a screencast is
    open only for a stream of the hub on a standing connection, pictures go to the daemon
    alone, and no line is too long. (src/helper/operator-view-hub.ts,
    src/helper/operator-channel.ts:119-135,296-306,331-339) */
module LiveView {
  import opened Collections
  import opened Json
  import opened OperatorProtocol
  import Frames = OperatorFrames
  import Rules = ViewRules
  import VS = ViewStream
  import StreamRuns = ViewStreamRuns
  import Lines = ViewLines
  import Link = OperatorLink
  import LinkRuns = OperatorLinkRuns
  import LinkHistory = OperatorLinkHistory
  import Talk = OperatorLinkTalk
  import Hub = ViewHub
  import HubRuns = ViewHubRuns
  import View = OperatorView

  /** The channel's setup, and how the size of a part's picture is written, if it is known. */
  datatype Setup = Setup(v: View.Setup, size: Rules.Part -> Option<(Frames.Number, Frames.Number)>)

  /** A stream that the hub made, and all that has happened to it. */
  datatype Screen = Screen(session: Text, p: Rules.Params, start: real, events: seq<StreamRuns.Event>)

  function Now(x: Screen): (st: VS.Stream)
    ensures st.adapter.Valid()
  {
    Rules.NewAdapterValid(x.p);
    StreamRuns.Run(StreamRuns.Fresh(x.session, x.p, x.start), x.events)
  }

  /** All that has happened to channel and hub, and the hub's streams. */
  datatype World = World(log: seq<View.Event>, screens: map<Hub.StreamId, Screen>)

  function ViewOf(s: Setup, w: World): View.View { View.Run(s.v, w.log) }

  /** An event of channel or hub, with the time of a stream it makes, or one of a stream. */
  datatype Event = Outside(x: View.Event, now: real) | Inside(id: Hub.StreamId, e: StreamRuns.Event)

  /** `canWrite` of the sink is no more than this. */
  predicate CanWrite(l: Link.Link) { l.state.Ready? && l.sock.Some? }

  /** Only a stream sends parts and ends itself; only the hub calls its `end`. */
  predicate Enabled(s: Setup, w: World, e: Event) {
    match e
    case Outside(x, _) => !(x.Channel? && x.e.ViewSends?) && !(x.Live? && x.of.StreamEnded?)
    case Inside(id, x) =>
      && id in w.screens && StreamRuns.Enabled(Now(w.screens[id]), x) && !x.EndCalled?
      && (x.Finish? ==> x.reason == VS.PageClosed)
      && (x.FrameAt? && x.canWrite ==> CanWrite(ViewOf(s, w).link))
  }

  /** The stream was made in this step: its session's chain is suspended on it. */
  predicate IsBegun(h: Hub.Hub, id: Hub.StreamId)
    requires id in h.infos
  {
    var s := h.infos[id].session;
    s in h.chains && h.chains[s] != [] && h.chains[s][0].Beginning? && h.chains[s][0].id == id
  }

  /** What the start asked for that the new stream came from. */
  function AskedFor(h: Hub.Hub, id: Hub.StreamId): Rules.Params
    requires id in h.infos
  {
    if IsBegun(h, id) then h.chains[h.infos[id].session][0].params else Rules.DEFAULTS
  }

  /** A stream that the hub has stopped is ended; one that runs goes on. */
  function Followed(x: Screen, stopped: bool): Screen {
    if stopped && !Now(x).stopped then Next(x, StreamRuns.EndCalled) else x
  }

  function Next(x: Screen, e: StreamRuns.Event): Screen { x.(events := x.events + [e]) }

  /** The streams that the hub has made since begin, and those it has stopped end. */
  function Follow(h: Hub.Hub, screens: map<Hub.StreamId, Screen>, now: real): map<Hub.StreamId, Screen> {
    map id | id in h.infos ::
      if id !in screens then Screen(h.infos[id].session, AskedFor(h, id), now, [])
      else Followed(screens[id], h.infos[id].stopped)
  }

  function PartLine(s: Setup, p: Rules.Part): Frames.Pairs {
    var show := s.v.show;
    Frames.PartPairs(p, show(p.seqNo as real), show(p.at), s.size(p), show(p.part as real), show(p.parts as real))
  }

  function SendOf(s: Setup, p: Rules.Part): View.Event { View.Channel(LinkRuns.ViewSends(PartLine(s, p))) }

  function Sends(s: Setup, parts: seq<Rules.Part>): seq<View.Event> {
    seq(|parts|, i requires 0 <= i < |parts| => SendOf(s, parts[i]))
  }

  /** `onEnd`: the hub hears of a stream that has ended by itself. */
  function Over(id: Hub.StreamId, before: VS.Stream, after: VS.Stream): seq<View.Event> {
    if !before.stopped && after.stopped && after.history.endReason.Some?
    then [View.Live(HubRuns.StreamEnded(id, after.history.endReason.value))] else []
  }

  /** What channel and hub see of a stream's step. */
  function Seen(s: Setup, w: World, id: Hub.StreamId, e: StreamRuns.Event): seq<View.Event>
    requires id in w.screens
  {
    var before, after := Now(w.screens[id]), Now(Next(w.screens[id], e));
    Over(id, before, after) + Sends(s, View.Since(before.history.out, after.history.out))
  }

  /** An event that cannot happen now changes nothing. */
  function Step(s: Setup, w: World, e: Event): World {
    if !Enabled(s, w, e) then w
    else match e
      case Outside(x, now) => World(w.log + [x], Follow(View.Run(s.v, w.log + [x]).hub, w.screens, now))
      case Inside(id, x) => World(w.log + Seen(s, w, id, x), w.screens[id := Next(w.screens[id], x)])
  }

  function Run(s: Setup, events: seq<Event>): World {
    if events == [] then World([], map[]) else Step(s, Run(s, events[..|events| - 1]), events[|events| - 1])
  }

  // ---------- what a step of the hub does to its streams ----------

  predicate BegunAt(h: Hub.Hub, s: Hub.Session) { s in h.chains && h.chains[s] != [] && h.chains[s][0].Beginning? }

  /** The same streams, at most stopped; no chain is newly suspended on one, and none is
      said to have started. */
  ghost predicate Quiet(h: Hub.Hub, h': Hub.Hub) {
    && h'.infos.Keys == h.infos.Keys
    && (forall id :: id in h.infos ==>
          h'.infos[id].session == h.infos[id].session && (h.infos[id].stopped ==> h'.infos[id].stopped))
    && (forall s :: BegunAt(h', s) ==> BegunAt(h, s) && h'.chains[s][0] == h.chains[s][0])
    && (forall f :: f in h'.history.wire && f.Started? ==> f in h.history.wire)
  }

  lemma QuietTwice(h: Hub.Hub, g: Hub.Hub, h': Hub.Hub)
    requires Quiet(h, g) && Quiet(g, h')
    ensures Quiet(h, h')
  {
  }

  lemma EnqueueIsQuiet(h: Hub.Hub, g: Hub.Hub, s: Hub.Session, t: Hub.Task)
    requires g.infos == h.infos && g.chains == h.chains && g.history == h.history && t.Queued()
    ensures Quiet(h, Hub.Enqueue(g, s, t))
  {
  }

  lemma FramesAreQuiet(h: Hub.Hub, e: HubRuns.Event)
    requires e.StartFrame? || e.StopFrame? || e.Unregistered? || e.Registered?
    ensures Quiet(h, HubRuns.Step(h, e))
  {
    match e
    case StartFrame(f) =>
      if Rules.ParseViewStart(f).Accepted? {
        var a := Rules.ParseViewStart(f);
        EnqueueIsQuiet(h, h, a.session, Hub.Start(a.params, h.epoch));
      }
    case StopFrame(f) => if Hub.SessionOf(f).Some? { EnqueueIsQuiet(h, h, Hub.SessionOf(f).value, Hub.Stop); }
    case Unregistered(s) => EnqueueIsQuiet(h, h.(sources := h.sources - {s}), s, Hub.Close);
    case Registered(_, _) =>
  }

  lemma EndedIsQuiet(h: Hub.Hub, id: Hub.StreamId, reason: VS.StopReason)
    requires HubRuns.MapInv(h) && id in h.infos
    ensures Quiet(h, Hub.FinishLoose(h, id, reason))
  {
    HubRuns.FinishShape(h, id, true);
  }

  lemma StopAllIsQuiet(h: Hub.Hub, reason: VS.StopReason)
    ensures Quiet(h, Hub.StopAll(h, reason))
  {
  }

  lemma TellIsQuiet(h: Hub.Hub, id: Hub.StreamId)
    requires id in h.loose && id in h.infos
    ensures Quiet(h, Hub.LooseReturned(h, id))
  {
  }

  lemma EndsAreQuiet(h: Hub.Hub, e: HubRuns.Event)
    requires HubRuns.MapInv(h) && (e.Disconnected? || e.StreamEnded? || e.LooseDone?)
    ensures Quiet(h, HubRuns.Step(h, e))
  {
    if HubRuns.Enabled(h, e) {
      match e
      case Disconnected(reason) => StopAllIsQuiet(h, reason);
      case StreamEnded(id, reason) => EndedIsQuiet(h, id, reason);
      case LooseDone(id) => TellIsQuiet(h, id);
    }
  }

  lemma {:induction false} ToldIsQuiet(h: Hub.Hub, told: seq<HubRuns.Event>)
    requires HubRuns.Inv(h)
    requires forall e :: e in told ==> e.StartFrame? || e.StopFrame? || e.Disconnected?
    ensures HubRuns.Inv(HubRuns.Run(h, told)) && Quiet(h, HubRuns.Run(h, told))
  {
    if told != [] {
      var front, e := told[..|told| - 1], told[|told| - 1];
      ToldIsQuiet(h, front);
      var g := HubRuns.Run(h, front);
      assert e in told;
      HubRuns.StepKeeps(g, e);
      if e.Disconnected? { EndsAreQuiet(g, e); } else { FramesAreQuiet(g, e); }
      QuietTwice(h, g, HubRuns.Step(g, e));
    }
  }

  /** A resumed task makes at most one stream, which its chain is then suspended on, and
      says of no stream that it started but of the one it was suspended on. */
  ghost predicate Advances(h: Hub.Hub, h': Hub.Hub, s: Hub.Session)
    requires s in h.chains && h.chains[s] != []
  {
    && (forall id :: id in h.infos ==>
          && id in h'.infos && h'.infos[id].session == h.infos[id].session
          && (h.infos[id].stopped ==> h'.infos[id].stopped))
    && (forall id :: id in h'.infos && id !in h.infos ==>
          !h'.infos[id].stopped && h'.infos[id].session == s && IsBegun(h', id))
    && (forall u :: BegunAt(h', u) ==>
          || (BegunAt(h, u) && h'.chains[u][0] == h.chains[u][0])
          || (u == s && h'.chains[s][0].id in h'.infos && h'.chains[s][0].id !in h.infos))
    && (forall f :: f in h'.history.wire && f.Started? ==>
          || f in h.history.wire
          || (BegunAt(h, s) && f.session == s && f.id == h.chains[s][0].id && f.params == h.chains[s][0].params))
  }

  /** Before the head of a chain moves: the streams are the same, at most stopped, and at
      most the one it was suspended on is said to have started. */
  ghost predicate Readies(h: Hub.Hub, g: Hub.Hub, s: Hub.Session) {
    && g.chains == h.chains && g.infos.Keys == h.infos.Keys
    && (forall id :: id in h.infos ==>
          g.infos[id].session == h.infos[id].session && (h.infos[id].stopped ==> g.infos[id].stopped))
    && (forall f :: f in g.history.wire && f.Started? ==>
          || f in h.history.wire
          || (BegunAt(h, s) && f.session == s && f.id == h.chains[s][0].id && f.params == h.chains[s][0].params))
  }

  lemma DequeueAdvances(h: Hub.Hub, g: Hub.Hub, s: Hub.Session)
    requires s in h.chains && h.chains[s] != [] && Readies(h, g, s)
    requires |h.chains[s]| > 1 ==> h.chains[s][1].Queued()
    ensures Advances(h, Hub.Dequeue(g, s), s)
  {
    assert |h.chains[s]| > 1 ==> h.chains[s][1..][0] == h.chains[s][1];
  }

  lemma SuspendAdvances(h: Hub.Hub, g: Hub.Hub, s: Hub.Session, t: Hub.Task)
    requires s in h.chains && h.chains[s] != [] && Readies(h, g, s) && !t.Beginning?
    ensures Advances(h, Hub.Suspend(g, s, t), s)
  {
  }

  lemma LaunchAdvances(h: Hub.Hub, s: Hub.Session, params: Rules.Params, source: Hub.Source)
    requires HubRuns.MapInv(h) && s in h.chains && h.chains[s] != []
    ensures Advances(h, Hub.Launch(h, s, params, source), s)
  {
  }

  lemma FinishAdvances(h: Hub.Hub, s: Hub.Session, id: Hub.StreamId, tell: bool, t: Hub.Task)
    requires HubRuns.MapInv(h) && s in h.chains && h.chains[s] != [] && id in h.infos && !t.Beginning?
    ensures Advances(h, Hub.Suspend(Hub.Finish(h, id, tell), s, t), s)
  {
    HubRuns.FinishShape(h, id, tell);
    SuspendAdvances(h, Hub.Finish(h, id, tell), s, t);
  }

  lemma SaysAdvances(h: Hub.Hub, s: Hub.Session, f: Hub.Frame)
    requires HubRuns.ChainsInv(h) && s in h.chains && !f.Started?
    ensures Advances(h, Hub.Dequeue(Hub.Send(h, f), s), s)
  {
    DequeueAdvances(h, Hub.Send(h, f), s);
  }

  lemma StartAdvances(h: Hub.Hub, s: Hub.Session, params: Rules.Params, epoch: nat)
    requires HubRuns.MapInv(h) && HubRuns.ChainsInv(h)
    requires Hub.Ready(h, s) && h.chains[s][0] == Hub.Start(params, epoch)
    ensures Advances(h, Hub.RunStart(h, s, params, epoch), s)
  {
    if epoch != h.epoch {
      DequeueAdvances(h, h, s);
    } else if s !in h.sources {
      SaysAdvances(h, s, Hub.Refusal(Hub.UnknownSession, Some(s)));
    } else if h.sources[s].None? {
      SaysAdvances(h, s, Hub.Refusal(Hub.ViewUnsupported, Some(s)));
    } else if s in h.streams {
      FinishAdvances(h, s, h.streams[s], false, Hub.Restarting(params, epoch, h.sources[s].value));
    } else if |h.streams| >= Rules.MAX_STREAMS {
      SaysAdvances(h, s, Hub.Refusal(Hub.ViewLimit, Some(s)));
    } else {
      LaunchAdvances(h, s, params, h.sources[s].value);
    }
  }

  lemma BegunAdvances(h: Hub.Hub, s: Hub.Session, params: Rules.Params, source: Hub.Source, id: Hub.StreamId, ok: bool)
    requires HubRuns.MapInv(h) && HubRuns.ChainsInv(h)
    requires Hub.Ready(h, s) && h.chains[s][0] == Hub.Beginning(params, source, id)
    ensures Advances(h, Hub.Begun(h, s, params, source, id, ok), s)
  {
    if !ok || (!h.infos[id].stopped && !Hub.HasSource(h, s, source)) {
      FinishAdvances(h, s, id, ok, if ok then Hub.Finishing(id, VS.SessionClosed) else Hub.Failing(id));
    } else if h.infos[id].stopped {
      DequeueAdvances(h, h, s);
    } else {
      var g := h.(history := h.history.(started := h.history.started + {id},
                                        wire := h.history.wire + [Hub.Started(s, params, id)]));
      DequeueAdvances(h, g, s);
    }
  }

  lemma StopAdvances(h: Hub.Hub, s: Hub.Session, reason: VS.StopReason, answer: bool)
    requires HubRuns.MapInv(h) && HubRuns.ChainsInv(h) && Hub.Ready(h, s) && h.chains[s][0].Queued()
    ensures Advances(h, Hub.RunStop(h, s, reason, answer), s)
  {
    if s in h.streams {
      FinishAdvances(h, s, h.streams[s], true, Hub.Finishing(h.streams[s], reason));
    } else if answer {
      SaysAdvances(h, s, Hub.Stopped(s, reason, None));
    } else {
      DequeueAdvances(h, h, s);
    }
  }

  lemma ResumeAdvances(h: Hub.Hub, s: Hub.Session, ok: bool)
    requires HubRuns.MapInv(h) && HubRuns.ChainsInv(h) && Hub.Ready(h, s)
    ensures Advances(h, Hub.Resume(h, s, ok), s)
  {
    match h.chains[s][0]
    case Start(params, epoch) => StartAdvances(h, s, params, epoch);
    case Restarting(params, epoch, source) =>
      SaysAdvances(h, s, Hub.Refusal(Hub.UnknownSession, Some(s)));
      LaunchAdvances(h, s, params, source);
    case Beginning(params, source, id) => BegunAdvances(h, s, params, source, id, ok);
    case Failing(_) => SaysAdvances(h, s, Hub.Refusal(Hub.ViewFailed, Some(s)));
    case Stop => StopAdvances(h, s, VS.Daemon, true);
    case Close => StopAdvances(h, s, VS.SessionClosed, false);
    case Finishing(id, reason) => DequeueAdvances(h, Hub.Tells(h, id, reason), s);
  }

  // ---------- streams and screens ----------

  /** A screen is of the stream's session and stopped when the stream is. */
  predicate Matches(x: Screen, i: Hub.Info) { x.session == i.session && (Now(x).stopped <==> i.stopped) }

  /** Each stream of the hub has its screen, which stops with it. */
  ghost predicate Tied(h: Hub.Hub, screens: map<Hub.StreamId, Screen>) {
    screens.Keys == h.infos.Keys && forall id :: id in screens ==> Matches(screens[id], h.infos[id])
  }

  /** A stream that a chain is suspended on, or that is said to have started, is of that
      session and runs with what was asked for. */
  ghost predicate AsAsked(h: Hub.Hub, screens: map<Hub.StreamId, Screen>) {
    && (forall s :: BegunAt(h, s) ==> OfScreen(screens, h.chains[s][0].id, s, h.chains[s][0].params))
    && (forall f :: f in h.history.wire && f.Started? ==> OfScreen(screens, f.id, f.session, f.params))
  }

  predicate OfScreen(screens: map<Hub.StreamId, Screen>, id: Hub.StreamId, s: Text, p: Rules.ViewParams) {
    id in screens && screens[id].session == s && screens[id].p == p
  }

  /** The same screens, with more behind them, and perhaps new ones. */
  ghost predicate Extends(screens: map<Hub.StreamId, Screen>, more: map<Hub.StreamId, Screen>) {
    forall id :: id in screens ==>
      id in more && more[id].session == screens[id].session && more[id].p == screens[id].p
  }

  lemma NextIsStep(x: Screen, e: StreamRuns.Event)
    ensures Now(Next(x, e)) == StreamRuns.Step(Now(x), e)
  {
    assert (x.events + [e])[..|x.events|] == x.events;
  }

  lemma FollowedMatches(x: Screen, i: Hub.Info, j: Hub.Info)
    requires Matches(x, i) && j.session == i.session && (i.stopped ==> j.stopped)
    ensures Matches(Followed(x, j.stopped), j)
  {
    if j.stopped && !Now(x).stopped { NextIsStep(x, StreamRuns.EndCalled); }
  }

  lemma NewMatches(x: Screen, i: Hub.Info)
    requires x.events == [] && x.session == i.session && !i.stopped
    ensures Matches(x, i)
  {
  }

  /** The streams are the old ones, at most stopped, and new ones that run. */
  ghost predicate Goes(h: Hub.Hub, h': Hub.Hub) {
    && (forall id :: id in h.infos ==>
          && id in h'.infos && h'.infos[id].session == h.infos[id].session
          && (h.infos[id].stopped ==> h'.infos[id].stopped))
    && (forall id :: id in h'.infos && id !in h.infos ==> !h'.infos[id].stopped)
  }

  lemma FollowedExtend(h': Hub.Hub, screens: map<Hub.StreamId, Screen>, now: real)
    requires forall id :: id in screens ==> id in h'.infos
    ensures Extends(screens, Follow(h', screens, now))
  {
  }

  /** After a step of the hub each stopped stream's screen is stopped, the others go on. */
  lemma FollowTies(h: Hub.Hub, h': Hub.Hub, screens: map<Hub.StreamId, Screen>, now: real)
    requires Tied(h, screens) && Goes(h, h')
    ensures Tied(h', Follow(h', screens, now))
  {
    forall id | id in h'.infos ensures Matches(Follow(h', screens, now)[id], h'.infos[id]) {
      FollowOne(h, h', screens, now, id);
    }
  }

  lemma FollowOne(h: Hub.Hub, h': Hub.Hub, screens: map<Hub.StreamId, Screen>, now: real, id: Hub.StreamId)
    requires Tied(h, screens) && Goes(h, h') && id in h'.infos
    ensures Matches(Follow(h', screens, now)[id], h'.infos[id])
  {
    if id in screens {
      FollowedMatches(screens[id], h.infos[id], h'.infos[id]);
    } else {
      NewMatches(Follow(h', screens, now)[id], h'.infos[id]);
    }
  }

  lemma QuietAsAsked(h: Hub.Hub, h': Hub.Hub, screens: map<Hub.StreamId, Screen>, more: map<Hub.StreamId, Screen>)
    requires AsAsked(h, screens) && Quiet(h, h') && Extends(screens, more)
    ensures AsAsked(h', more)
  {
    forall s | BegunAt(h', s) ensures OfScreen(more, h'.chains[s][0].id, s, h'.chains[s][0].params) {
      assert OfScreen(screens, h.chains[s][0].id, s, h.chains[s][0].params);
    }
    forall f | f in h'.history.wire && f.Started? ensures OfScreen(more, f.id, f.session, f.params) {
      assert OfScreen(screens, f.id, f.session, f.params);
    }
  }

  lemma ResumeAsAsked(h: Hub.Hub, h': Hub.Hub, s: Hub.Session, screens: map<Hub.StreamId, Screen>, now: real)
    requires AsAsked(h, screens) && Tied(h, screens) && s in h.chains && h.chains[s] != [] && Advances(h, h', s)
    requires Extends(screens, Follow(h', screens, now))
    ensures AsAsked(h', Follow(h', screens, now))
  {
    var more := Follow(h', screens, now);
    forall u | BegunAt(h', u) ensures OfScreen(more, h'.chains[u][0].id, u, h'.chains[u][0].params) {
      if BegunAt(h, u) && h'.chains[u][0] == h.chains[u][0] {
        assert OfScreen(screens, h.chains[u][0].id, u, h.chains[u][0].params);
      }
    }
    forall f | f in h'.history.wire && f.Started? ensures OfScreen(more, f.id, f.session, f.params) {
      if f in h.history.wire {
        assert OfScreen(screens, f.id, f.session, f.params);
      } else {
        assert OfScreen(screens, h.chains[s][0].id, s, h.chains[s][0].params);
      }
    }
  }

  // ---------- pictures ----------

  /** A line with a part of a frame. */
  predicate IsPicture(l: Link.Line) {
    l.View? && |l.pairs| > 1 && l.pairs[1] == ("type", Frames.VWord("frame"))
  }

  /** Pictures went out only where the daemon had proved itself. */
  ghost predicate PicturesProven(l: Link.Link) {
    forall w :: w in l.history.wire && IsPicture(w.line) ==> w.conn in l.history.proven
  }

  lemma HubSaysNoPicture(f: Hub.Frame, show: real -> Frames.Number)
    ensures !IsPicture(Link.View(Lines.FramePairs(f, show)))
  {
    var said := Lines.FramePairs(f, show)[1].1;
    var word := if f.Started? then "view.started" else if f.Stopped? then "view.stopped" else "error";
    assert said == Frames.VWord(word) && word[0] != 'f';
    assert "frame"[0] == 'f';
  }

  /** Lines that are no pictures change nothing of where pictures went. */
  lemma {:induction false} WordsStayProven(c: Link.Config, l: Link.Link, es: seq<LinkRuns.Event>)
    requires PicturesProven(l)
    requires forall e :: e in es ==> e.ViewSends? && !IsPicture(Link.View(e.pairs))
    ensures PicturesProven(LinkRuns.Run(c, l, es))
  {
    if es != [] {
      WordsStayProven(c, l, es[..|es| - 1]);
      assert es[|es| - 1] in es;
      LinkHistory.SendCases(LinkRuns.Run(c, l, es[..|es| - 1]), Link.View(es[|es| - 1].pairs));
    }
  }

  lemma AnswersAreWords(s: View.Setup, v: View.View, told: seq<HubRuns.Event>)
    ensures forall e :: e in View.Answers(s, v, told) ==> e.ViewSends? && !IsPicture(Link.View(e.pairs))
  {
    var fs := View.Since(v.hub.history.wire, HubRuns.Run(v.hub, told).history.wire);
    forall i | 0 <= i < |fs| ensures !IsPicture(Link.View(Lines.FramePairs(fs[i], s.show))) {
      HubSaysNoPicture(fs[i], s.show);
    }
  }

  lemma OwnLinesStayProven(l: Link.Link, l': Link.Link)
    requires PicturesProven(l) && Talk.OnlyOwn(l, l')
    requires forall k :: k in l.history.proven ==> k in l'.history.proven
    ensures PicturesProven(l')
  {
  }

  lemma LinkStepStaysProven(c: Link.Config, l: Link.Link, e: LinkRuns.Event)
    requires LinkRuns.Inv(c, l) && PicturesProven(l) && !e.ViewSends?
    ensures PicturesProven(LinkRuns.Step(c, l, e))
  {
    Talk.StepMeans(c, l, e);
    LinkHistory.StepGrows(c, l, e);
    OwnLinesStayProven(l, LinkRuns.Step(c, l, e));
  }

  /** A step of channel or hub that sends no part. */
  lemma StepStaysProven(s: View.Setup, v: View.View, x: View.Event)
    requires View.ValidSetup(s) && View.IsRun(s, v) && PicturesProven(v.link)
    requires !(x.Channel? && x.e.ViewSends?)
    ensures PicturesProven(View.Step(s, v, x).link)
  {
    View.RunsHoldApart(s, v);
    match x
    case Channel(e) =>
      var l := LinkRuns.Step(s.c, v.link, e);
      var told := View.Told(View.Since(v.link.history.handed, l.history.handed)) + View.Ends(Talk.LossOf(v.link, e, l));
      LinkStepStaysProven(s.c, v.link, e);
      AnswersAreWords(s, v, told);
      WordsStayProven(s.c, l, View.Answers(s, v, told));
    case Live(e) =>
      if View.OfHub(e) {
        AnswersAreWords(s, v, [e]);
        WordsStayProven(s.c, v.link, View.Answers(s, v, [e]));
      }
  }

  // ---------- sending a frame's parts ----------

  lemma ViewRunNext(s: View.Setup, log: seq<View.Event>, x: View.Event)
    ensures View.Run(s, log + [x]) == View.Step(s, View.Run(s, log), x)
  {
    assert (log + [x])[..|log|] == log;
  }

  /** Sending a part changes nothing but what is on the wire, or kept back. */
  lemma SendLeaves(s: Setup, v: View.View, p: Rules.Part)
    ensures var v' := View.Step(s.v, v, SendOf(s, p));
            v'.hub == v.hub && v'.link == Link.Send(v.link, Link.View(PartLine(s, p)))
  {
    var e := LinkRuns.ViewSends(PartLine(s, p));
    LinkHistory.SendCases(v.link, Link.View(e.pairs));
    var l := LinkRuns.Step(s.v.c, v.link, e);
    assert View.Since(v.link.history.handed, l.history.handed) == [] && Talk.LossOf(v.link, e, l) == None;
    assert [] + View.Ends(None) == [];
    NothingSaid(s.v, v);
  }

  lemma NothingSaid(s: View.Setup, v: View.View)
    ensures View.Answers(s, v, []) == [] && HubRuns.Run(v.hub, []) == v.hub
  {
  }

  lemma PartStaysProven(l: Link.Link, pairs: Frames.Pairs)
    requires PicturesProven(l) && l.sock.Some? && l.sock.value in l.history.proven
    ensures var l' := Link.Send(l, Link.View(pairs));
            PicturesProven(l') && l'.sock == l.sock && l'.state == l.state && l'.history.proven == l.history.proven
  {
    LinkHistory.SendCases(l, Link.View(pairs));
  }

  lemma SendsSplit(s: Setup, log: seq<View.Event>, parts: seq<Rules.Part>)
    requires parts != []
    ensures log + Sends(s, parts) == (log + Sends(s, parts[..|parts| - 1])) + [SendOf(s, parts[|parts| - 1])]
  {
  }

  lemma {:induction false} SendsLeave(s: Setup, log: seq<View.Event>, parts: seq<Rules.Part>)
    ensures View.Run(s.v, log + Sends(s, parts)).hub == View.Run(s.v, log).hub
    ensures var l, l' := View.Run(s.v, log).link, View.Run(s.v, log + Sends(s, parts)).link;
            PicturesProven(l) && l.sock.Some? && l.sock.value in l.history.proven ==>
              PicturesProven(l') && l'.sock == l.sock && l'.history.proven == l.history.proven
  {
    if parts == [] {
      assert log + Sends(s, parts) == log;
    } else {
      var front := log + Sends(s, parts[..|parts| - 1]);
      SendsLeave(s, log, parts[..|parts| - 1]);
      SendsSplit(s, log, parts);
      ViewRunNext(s.v, front, SendOf(s, parts[|parts| - 1]));
      SendLeaves(s, View.Run(s.v, front), parts[|parts| - 1]);
      var l := View.Run(s.v, front).link;
      if PicturesProven(l) && l.sock.Some? && l.sock.value in l.history.proven {
        PartStaysProven(l, PartLine(s, parts[|parts| - 1]));
      }
    }
  }

  // ---------- the steps of a stream ----------

  lemma NewlyStoppedSays(st: VS.Stream, e: StreamRuns.Event)
    requires st.adapter.Valid() && !st.stopped && StreamRuns.Step(st, e).stopped && !e.EndCalled?
    ensures StreamRuns.Step(st, e).history.endReason.Some?
  {
    if e.StopReturned? && StreamRuns.Enabled(st, e) {
      var r := VS.NoteReturned(st, e.task);
      assert VS.AfterStop(r, e.task, e.ok).stopped ==> VS.AfterStop(r, e.task, e.ok).history.endReason.Some?;
    }
  }

  lemma FrameGoesOn(st: VS.Stream, e: StreamRuns.Event)
    requires st.adapter.Valid() && e.FrameAt?
    ensures var after := StreamRuns.Step(st, e);
            after.stopped == st.stopped && (!e.canWrite ==> after.history.out == st.history.out)
  {
    if StreamRuns.Enabled(st, e) && !st.stopped && !st.retuning {
      StreamRuns.OfferShape(VS.Released(VS.At(st, e.now), e.now), e.now, e.canWrite, e.base64);
    }
  }

  lemma OthersSendNothing(st: VS.Stream, e: StreamRuns.Event)
    requires st.adapter.Valid() && !e.FrameAt?
    ensures StreamRuns.Step(st, e).history.out == st.history.out
  {
    if StreamRuns.Enabled(st, e) && !e.AckAt? && !e.ReleaseFires? { StreamRuns.OthersAreQuiet(st, e); }
  }

  /** A stopped screen stays stopped. */
  lemma StaysStopped(x: Screen, e: StreamRuns.Event)
    ensures Now(x).stopped ==> Now(Next(x, e)).stopped
  {
    NextIsStep(x, e);
    StreamRuns.RunInv(x.session, x.p, x.start, x.events);
    if Now(x).stopped { StreamRuns.StoppedStaysSilent(Now(x), e); }
  }

  /** The hub after it heard that a stream of its own ended. */
  lemma EndedInfos(h: Hub.Hub, id: Hub.StreamId, reason: VS.StopReason)
    requires HubRuns.MapInv(h) && id in h.infos && !h.infos[id].stopped
    ensures HubRuns.Step(h, HubRuns.StreamEnded(id, reason)).infos == h.infos[id := h.infos[id].(stopped := true)]
  {
    HubRuns.FinishShape(h, id, true);
  }

  lemma HubRunOne(h: Hub.Hub, e: HubRuns.Event)
    ensures HubRuns.Run(h, [e]) == HubRuns.Step(h, e)
  {
    assert [e][..0] == [] && HubRuns.Run(h, []) == h;
  }

  // ---------- what every run keeps ----------

  ghost predicate WorldInv(s: Setup, w: World) {
    var v := ViewOf(s, w);
    View.IsRun(s.v, v) && Tied(v.hub, w.screens) && AsAsked(v.hub, w.screens) && PicturesProven(v.link)
  }

  lemma QuietGoes(h: Hub.Hub, h': Hub.Hub, screens: map<Hub.StreamId, Screen>, now: real)
    requires Tied(h, screens) && AsAsked(h, screens) && Quiet(h, h')
    ensures Tied(h', Follow(h', screens, now)) && AsAsked(h', Follow(h', screens, now))
  {
    FollowTies(h, h', screens, now);
    FollowedExtend(h', screens, now);
    QuietAsAsked(h, h', screens, Follow(h', screens, now));
  }

  lemma HubStepGoes(h: Hub.Hub, e: HubRuns.Event, screens: map<Hub.StreamId, Screen>, now: real)
    requires HubRuns.Inv(h) && Tied(h, screens) && AsAsked(h, screens)
    ensures var h' := HubRuns.Step(h, e);
            Tied(h', Follow(h', screens, now)) && AsAsked(h', Follow(h', screens, now))
  {
    var h' := HubRuns.Step(h, e);
    if !HubRuns.Enabled(h, e) {
      QuietGoes(h, h', screens, now);
    } else if e.Resumed? {
      ResumeAdvances(h, e.session, e.ok);
      FollowTies(h, h', screens, now);
      FollowedExtend(h', screens, now);
      ResumeAsAsked(h, h', e.session, screens, now);
    } else {
      if e.Disconnected? || e.StreamEnded? || e.LooseDone? { EndsAreQuiet(h, e); } else { FramesAreQuiet(h, e); }
      QuietGoes(h, h', screens, now);
    }
  }

  lemma ToldGoes(h: Hub.Hub, told: seq<HubRuns.Event>, screens: map<Hub.StreamId, Screen>, now: real)
    requires HubRuns.Inv(h) && Tied(h, screens) && AsAsked(h, screens)
    requires forall e :: e in told ==> e.StartFrame? || e.StopFrame? || e.Disconnected?
    ensures var h' := HubRuns.Run(h, told);
            Tied(h', Follow(h', screens, now)) && AsAsked(h', Follow(h', screens, now))
  {
    ToldIsQuiet(h, told);
    QuietGoes(h, HubRuns.Run(h, told), screens, now);
  }

  lemma OutsideGoes(s: View.Setup, v: View.View, x: View.Event, screens: map<Hub.StreamId, Screen>, now: real)
    requires View.ValidSetup(s) && View.IsRun(s, v) && Tied(v.hub, screens) && AsAsked(v.hub, screens)
    ensures var h := View.Step(s, v, x).hub;
            Tied(h, Follow(h, screens, now)) && AsAsked(h, Follow(h, screens, now))
  {
    View.RunsHoldApart(s, v);
    match x
    case Channel(e) =>
      var l := LinkRuns.Step(s.c, v.link, e);
      var told := View.Told(View.Since(v.link.history.handed, l.history.handed)) + View.Ends(Talk.LossOf(v.link, e, l));
      ToldGoes(v.hub, told, screens, now);
    case Live(e) =>
      if View.OfHub(e) {
        HubRunOne(v.hub, e);
        HubStepGoes(v.hub, e, screens, now);
      } else {
        QuietGoes(v.hub, v.hub, screens, now);
      }
  }

  lemma OutsideKeeps(s: Setup, w: World, e: Event)
    requires View.ValidSetup(s.v) && WorldInv(s, w) && e.Outside? && Enabled(s, w, e)
    ensures WorldInv(s, Step(s, w, e))
  {
    var v := ViewOf(s, w);
    ViewRunNext(s.v, w.log, e.x);
    View.RunInv(s.v, w.log + [e.x]);
    OutsideGoes(s.v, v, e.x, w.screens, e.now);
    StepStaysProven(s.v, v, e.x);
  }

  /** What holds of channel and hub after `log`, with these screens. */
  ghost predicate Sound(s: Setup, log: seq<View.Event>, screens: map<Hub.StreamId, Screen>) {
    var v := View.Run(s.v, log);
    Tied(v.hub, screens) && AsAsked(v.hub, screens) && PicturesProven(v.link)
  }

  /** One screen has gone on, as its stream has. */
  lemma TiedWith(h: Hub.Hub, h': Hub.Hub, screens: map<Hub.StreamId, Screen>, id: Hub.StreamId, y: Screen)
    requires Tied(h, screens) && id in screens && h'.infos.Keys == h.infos.Keys
    requires Matches(y, h'.infos[id]) && forall k :: k in h.infos && k != id ==> h'.infos[k] == h.infos[k]
    ensures Tied(h', screens[id := y])
  {
  }

  lemma ExtendsWith(screens: map<Hub.StreamId, Screen>, id: Hub.StreamId, e: StreamRuns.Event)
    requires id in screens
    ensures Extends(screens, screens[id := Next(screens[id], e)])
  {
  }

  lemma EndTies(h: Hub.Hub, screens: map<Hub.StreamId, Screen>, id: Hub.StreamId, y: Screen, reason: VS.StopReason)
    requires HubRuns.MapInv(h) && Tied(h, screens) && id in screens && !h.infos[id].stopped
    requires Matches(y, h.infos[id].(stopped := true))
    ensures Tied(HubRuns.Step(h, HubRuns.StreamEnded(id, reason)), screens[id := y])
  {
    EndedInfos(h, id, reason);
    TiedWith(h, HubRuns.Step(h, HubRuns.StreamEnded(id, reason)), screens, id, y);
  }

  lemma EndAsAsked(h: Hub.Hub, screens: map<Hub.StreamId, Screen>, id: Hub.StreamId, e: StreamRuns.Event,
                   reason: VS.StopReason)
    requires HubRuns.MapInv(h) && AsAsked(h, screens) && id in screens
    ensures AsAsked(HubRuns.Step(h, HubRuns.StreamEnded(id, reason)), screens[id := Next(screens[id], e)])
  {
    var ended := HubRuns.StreamEnded(id, reason);
    EndsAreQuiet(h, ended);
    ExtendsWith(screens, id, e);
    QuietAsAsked(h, HubRuns.Step(h, ended), screens, screens[id := Next(screens[id], e)]);
  }

  /** A screen that was stopped, or runs on, stands for its stream as it did. */
  lemma MatchesOn(x: Screen, e: StreamRuns.Event, i: Hub.Info)
    requires Matches(x, i)
    ensures Now(Next(x, e)).stopped == Now(x).stopped ==> Matches(Next(x, e), i)
    ensures Now(Next(x, e)).stopped ==> Matches(Next(x, e), i.(stopped := true))
    ensures i.stopped == Now(x).stopped
  {
  }

  /** A stream goes on, or had stopped before. */
  lemma NoEndIsHeard(h: Hub.Hub, screens: map<Hub.StreamId, Screen>, id: Hub.StreamId, e: StreamRuns.Event)
    requires Tied(h, screens) && AsAsked(h, screens) && id in screens
    requires Now(Next(screens[id], e)).stopped == Now(screens[id]).stopped
    ensures var more := screens[id := Next(screens[id], e)]; Tied(h, more) && AsAsked(h, more)
  {
    MatchesOn(screens[id], e, h.infos[id]);
    TiedWith(h, h, screens, id, Next(screens[id], e));
    ExtendsWith(screens, id, e);
    QuietAsAsked(h, h, screens, screens[id := Next(screens[id], e)]);
  }

  /** A stream of the hub has ended by itself, and the hub hears of it. */
  lemma EndIsHeard(s: Setup, w: World, id: Hub.StreamId, e: StreamRuns.Event, reason: VS.StopReason)
    requires View.ValidSetup(s.v) && WorldInv(s, w) && id in w.screens
    requires !Now(w.screens[id]).stopped && Now(Next(w.screens[id], e)).stopped
    ensures Sound(s, w.log + [View.Live(HubRuns.StreamEnded(id, reason))], w.screens[id := Next(w.screens[id], e)])
  {
    var v, ended := ViewOf(s, w), HubRuns.StreamEnded(id, reason);
    View.RunsHoldApart(s.v, v);
    MatchesOn(w.screens[id], e, v.hub.infos[id]);
    ViewRunNext(s.v, w.log, View.Live(ended));
    StepStaysProven(s.v, v, View.Live(ended));
    HubRunOne(v.hub, ended);
    EndTies(v.hub, w.screens, id, Next(w.screens[id], e), reason);
    EndAsAsked(v.hub, w.screens, id, e, reason);
  }

  /** When the hub hears of an end. */
  lemma OverIs(x: Screen, id: Hub.StreamId, e: StreamRuns.Event)
    requires !e.EndCalled?
    ensures var before, after := Now(x), Now(Next(x, e));
            if !before.stopped && after.stopped
            then after.history.endReason.Some?
                 && Over(id, before, after) == [View.Live(HubRuns.StreamEnded(id, after.history.endReason.value))]
            else Over(id, before, after) == [] && after.stopped == before.stopped
  {
    StaysStopped(x, e);
    NextIsStep(x, e);
    if !Now(x).stopped && Now(Next(x, e)).stopped { NewlyStoppedSays(Now(x), e); }
  }

  /** The hub and the screens after a stream's own step, and after the hub heard of it. */
  lemma OverGoes(s: Setup, w: World, id: Hub.StreamId, e: StreamRuns.Event)
    requires View.ValidSetup(s.v) && WorldInv(s, w) && id in w.screens && !e.EndCalled?
    ensures var over := Over(id, Now(w.screens[id]), Now(Next(w.screens[id], e)));
            Sound(s, w.log + over, w.screens[id := Next(w.screens[id], e)])
  {
    var before, after := Now(w.screens[id]), Now(Next(w.screens[id], e));
    OverIs(w.screens[id], id, e);
    if !before.stopped && after.stopped {
      EndIsHeard(s, w, id, e, after.history.endReason.value);
    } else {
      assert w.log + [] == w.log;
      NoEndIsHeard(ViewOf(s, w).hub, w.screens, id, e);
    }
  }

  lemma SendsStaySound(s: Setup, log: seq<View.Event>, screens: map<Hub.StreamId, Screen>, parts: seq<Rules.Part>)
    requires Sound(s, log, screens)
    requires var l := View.Run(s.v, log).link;
             parts != [] ==> l.sock.Some? && l.sock.value in l.history.proven
    ensures Sound(s, log + Sends(s, parts), screens)
  {
    SendsLeave(s, log, parts);
    if parts == [] { assert log + Sends(s, parts) == log; }
  }

  lemma CanWriteIsProven(c: Link.Config, l: Link.Link)
    requires LinkRuns.ConnInv(c, l) && CanWrite(l)
    ensures l.sock.value in l.history.proven
  {
  }

  /** Parts are sent only by a frame, with the socket ready, and by no end. */
  lemma PartsNeedSocket(x: Screen, e: StreamRuns.Event)
    requires Now(Next(x, e)).history.out != Now(x).history.out
    ensures e.FrameAt? && e.canWrite && Now(Next(x, e)).stopped == Now(x).stopped
  {
    NextIsStep(x, e);
    if e.FrameAt? { FrameGoesOn(Now(x), e); } else { OthersSendNothing(Now(x), e); }
  }

  lemma PartsGo(s: Setup, w: World, id: Hub.StreamId, e: StreamRuns.Event, over: seq<View.Event>,
                parts: seq<Rules.Part>)
    requires View.ValidSetup(s.v) && WorldInv(s, w) && id in w.screens
    requires e.FrameAt? && e.canWrite ==> CanWrite(ViewOf(s, w).link)
    requires over == Over(id, Now(w.screens[id]), Now(Next(w.screens[id], e)))
    requires parts != [] ==> Now(Next(w.screens[id], e)).history.out != Now(w.screens[id]).history.out
    requires Sound(s, w.log + over, w.screens[id := Next(w.screens[id], e)])
    ensures Sound(s, (w.log + over) + Sends(s, parts), w.screens[id := Next(w.screens[id], e)])
  {
    if parts != [] {
      PartsNeedSocket(w.screens[id], e);
      assert over == [] && w.log + over == w.log;
      View.RunsHoldApart(s.v, ViewOf(s, w));
      CanWriteIsProven(s.v.c, ViewOf(s, w).link);
    }
    SendsStaySound(s, w.log + over, w.screens[id := Next(w.screens[id], e)], parts);
  }

  lemma SeenIs(s: Setup, w: World, id: Hub.StreamId, e: StreamRuns.Event)
    requires id in w.screens
    ensures var before, after := Now(w.screens[id]), Now(Next(w.screens[id], e));
            w.log + Seen(s, w, id, e)
            == (w.log + Over(id, before, after)) + Sends(s, View.Since(before.history.out, after.history.out))
  {
    var before, after := Now(w.screens[id]), Now(Next(w.screens[id], e));
    Regroup(w.log, Over(id, before, after), Sends(s, View.Since(before.history.out, after.history.out)));
  }

  lemma SoundIsInv(s: Setup, log: seq<View.Event>, screens: map<Hub.StreamId, Screen>)
    requires View.ValidSetup(s.v) && Sound(s, log, screens)
    ensures WorldInv(s, World(log, screens))
  {
    View.RunInv(s.v, log);
  }

  lemma InsideKeeps(s: Setup, w: World, id: Hub.StreamId, e: StreamRuns.Event)
    requires View.ValidSetup(s.v) && WorldInv(s, w) && id in w.screens && !e.EndCalled?
    requires e.FrameAt? && e.canWrite ==> CanWrite(ViewOf(s, w).link)
    ensures WorldInv(s, World(w.log + Seen(s, w, id, e), w.screens[id := Next(w.screens[id], e)]))
  {
    var before, after := Now(w.screens[id]), Now(Next(w.screens[id], e));
    OverGoes(s, w, id, e);
    PartsGo(s, w, id, e, Over(id, before, after), View.Since(before.history.out, after.history.out));
    SeenIs(s, w, id, e);
    SoundIsInv(s, w.log + Seen(s, w, id, e), w.screens[id := Next(w.screens[id], e)]);
  }

  lemma {:induction false} RunInv(s: Setup, events: seq<Event>)
    requires View.ValidSetup(s.v)
    ensures WorldInv(s, Run(s, events))
  {
    if events == [] {
      View.RunInv(s.v, []);
    } else {
      var front, e := events[..|events| - 1], events[|events| - 1];
      RunInv(s, front);
      var w := Run(s, front);
      if Enabled(s, w, e) {
        if e.Outside? { OutsideKeeps(s, w, e); } else { InsideKeeps(s, w, e.id, e.e); }
      }
    }
  }

  // ---------- main results ----------

  /** Each stream that the hub ever made is a run of its own. It is stopped exactly when
      the hub has stopped it; every screencast that a stopped one opened has been asked to
      stop; one that has not is of a stream in the hub's map, on a connection that stands;
      and of the screencasts of a stream that have not stopped or are on their way there is
      one at the most. A lost connection so ends every screencast. */
  lemma {:induction false} ScreencastsKeepToTheirStreams(s: Setup, events: seq<Event>)
    requires View.ValidSetup(s.v)
    ensures var w := Run(s, events);
            var v := ViewOf(s, w);
            && w.screens.Keys == v.hub.infos.Keys
            && (forall id :: id in w.screens ==>
                  var st := Now(w.screens[id]);
                  && (st.stopped <==> v.hub.infos[id].stopped)
                  && |StreamRuns.Unreturned(st)| + |StreamRuns.Opening(st)| <= 1
                  && (StreamRuns.Live(st) != {} ==>
                        !st.stopped && id in v.hub.streams.Values && v.link.sock.Some?))
  {
    RunInv(s, events);
    var w := Run(s, events);
    var v := ViewOf(s, w);
    View.StreamsKeepToTheirConnection(s.v, w.log);
    View.RunsHoldApart(s.v, v);
    forall id | id in w.screens
      ensures var st := Now(w.screens[id]);
              && (st.stopped <==> v.hub.infos[id].stopped)
              && |StreamRuns.Unreturned(st)| + |StreamRuns.Opening(st)| <= 1
              && (StreamRuns.Live(st) != {} ==>
                    !st.stopped && id in v.hub.streams.Values && v.link.sock.Some?)
    {
      ScreenIsSound(w.screens[id]);
      assert Matches(w.screens[id], v.hub.infos[id]);
      if !v.hub.infos[id].stopped { RunningIsMapped(v.hub, id); }
    }
  }

  lemma ScreenIsSound(x: Screen)
    ensures var st := Now(x);
            && |StreamRuns.Unreturned(st)| + |StreamRuns.Opening(st)| <= 1
            && (st.stopped ==> StreamRuns.Live(st) == {})
  {
    StreamRuns.OneScreencast(x.session, x.p, x.start, x.events);
  }

  lemma RunningIsMapped(h: Hub.Hub, id: Hub.StreamId)
    requires HubRuns.MapInv(h) && id in h.infos && !h.infos[id].stopped
    ensures id in h.streams.Values && id in h.history.born
  {
    assert HubRuns.Lives(h.infos, id);
  }

  /** A `view.started` is of a stream that runs, for that session, with just what it says. */
  lemma {:induction false} StartedAsSaid(s: Setup, events: seq<Event>, f: Hub.Frame)
    requires View.ValidSetup(s.v)
    requires f in ViewOf(s, Run(s, events)).hub.history.wire && f.Started?
    ensures OfScreen(Run(s, events).screens, f.id, f.session, f.params)
  {
    RunInv(s, events);
  }

  /** Pictures of a page go out on no connection but one on which the daemon has answered
      that connection's own nonce. */
  lemma {:induction false} PicturesGoToTheDaemon(s: Setup, events: seq<Event>, x: Link.Written)
    requires View.ValidSetup(s.v)
    requires x in ViewOf(s, Run(s, events)).link.history.wire && IsPicture(x.line)
    ensures LinkRuns.Proved(s.v.c, ViewOf(s, Run(s, events)).link.history, x.conn)
  {
    RunInv(s, events);
    var v := ViewOf(s, Run(s, events));
    View.RunsHoldApart(s.v, v);
    assert x.conn in v.link.history.proven;
  }

  // ---------- the size of every line ----------

  /** What the screencasts hand over is base64. */
  ghost predicate AllBase64(events: seq<Event>) {
    forall k :: 0 <= k < |events| && events[k].Inside? && events[k].e.FrameAt? ==> Frames.IsBase64(events[k].e.base64)
  }

  ghost predicate ScreensBase64(screens: map<Hub.StreamId, Screen>) {
    forall id :: id in screens ==> Lines.SendsBase64(screens[id].events)
  }

  lemma FollowStaysBase64(h: Hub.Hub, screens: map<Hub.StreamId, Screen>, now: real)
    requires ScreensBase64(screens)
    ensures ScreensBase64(Follow(h, screens, now))
  {
    forall id | id in h.infos && id in screens ensures Lines.SendsBase64(Follow(h, screens, now)[id].events) {
      assert Lines.SendsBase64(screens[id].events);
    }
  }

  lemma PartIsOfItsStream(s: Setup, x: Screen, p: Rules.Part)
    requires p in Now(x).history.out && |x.session| <= Rules.MAX_SESSION_CHARS && Lines.SendsBase64(x.events)
    ensures View.IsPartLine(PartLine(s, p))
  {
    var show := s.v.show;
    Rules.NewAdapterValid(x.p);
    var o := View.Origin(x.session, x.p, x.start, x.events, p, show(p.seqNo as real), show(p.at), s.size(p),
                         show(p.part as real), show(p.parts as real));
    assert View.Makes(o, PartLine(s, p));
  }

  lemma PartsAreOfTheirStream(s: Setup, x: Screen, parts: seq<Rules.Part>)
    requires |x.session| <= Rules.MAX_SESSION_CHARS && Lines.SendsBase64(x.events)
    requires forall p :: p in parts ==> p in Now(x).history.out
    ensures forall i :: 0 <= i < |parts| ==> View.IsPartLine(PartLine(s, parts[i]))
  {
    forall i | 0 <= i < |parts| ensures View.IsPartLine(PartLine(s, parts[i])) {
      assert parts[i] in parts;
      PartIsOfItsStream(s, x, parts[i]);
    }
  }

  lemma NamesAreShort(s: Setup, w: World, id: Hub.StreamId)
    requires View.ValidSetup(s.v) && WorldInv(s, w) && id in w.screens
    ensures |w.screens[id].session| <= Rules.MAX_SESSION_CHARS
  {
    var h := ViewOf(s, w).hub;
    View.RunsHoldApart(s.v, ViewOf(s, w));
    assert Matches(w.screens[id], h.infos[id]) && Lines.ShortName(h.infos[id].session);
  }

  lemma SeenAreParts(s: Setup, w: World, id: Hub.StreamId, e: StreamRuns.Event)
    requires id in w.screens && |w.screens[id].session| <= Rules.MAX_SESSION_CHARS
    requires Lines.SendsBase64(w.screens[id].events) && (e.FrameAt? ==> Frames.IsBase64(e.base64))
    requires View.OnlyParts(w.log)
    ensures View.OnlyParts(w.log + Seen(s, w, id, e))
  {
    var before, after := Now(w.screens[id]), Now(Next(w.screens[id], e));
    NextIsBase64(w.screens[id], e);
    PartsAreOfTheirStream(s, Next(w.screens[id], e), View.Since(before.history.out, after.history.out));
    LogGrows(w.log, Over(id, before, after), Sends(s, View.Since(before.history.out, after.history.out)));
  }

  lemma NextIsBase64(x: Screen, e: StreamRuns.Event)
    requires Lines.SendsBase64(x.events) && (e.FrameAt? ==> Frames.IsBase64(e.base64))
    ensures Lines.SendsBase64(Next(x, e).events)
  {
  }

  lemma LogGrows(log: seq<View.Event>, over: seq<View.Event>, sends: seq<View.Event>)
    requires View.OnlyParts(log) && forall i :: 0 <= i < |over| ==> over[i].Live?
    requires forall i :: 0 <= i < |sends| ==>
               sends[i].Channel? && sends[i].e.ViewSends? && View.IsPartLine(sends[i].e.pairs)
    ensures View.OnlyParts(log + (over + sends))
  {
    var all := log + (over + sends);
    forall k | 0 <= k < |all| && all[k].Channel? && all[k].e.ViewSends? ensures View.IsPartLine(all[k].e.pairs) {
      if k < |log| {
        assert all[k] == log[k];
      } else if k >= |log| + |over| {
        assert all[k] == sends[k - |log| - |over|];
      }
    }
  }

  ghost predicate Base64So(w: World) { View.OnlyParts(w.log) && ScreensBase64(w.screens) }

  lemma OutsideBase64(s: Setup, w: World, x: View.Event, now: real)
    requires Base64So(w) && !(x.Channel? && x.e.ViewSends?)
    ensures Base64So(World(w.log + [x], Follow(View.Run(s.v, w.log + [x]).hub, w.screens, now)))
  {
    FollowStaysBase64(View.Run(s.v, w.log + [x]).hub, w.screens, now);
  }

  lemma InsideBase64(s: Setup, w: World, id: Hub.StreamId, e: StreamRuns.Event)
    requires View.ValidSetup(s.v) && WorldInv(s, w) && Base64So(w) && id in w.screens
    requires e.FrameAt? ==> Frames.IsBase64(e.base64)
    ensures Base64So(World(w.log + Seen(s, w, id, e), w.screens[id := Next(w.screens[id], e)]))
  {
    assert Lines.SendsBase64(w.screens[id].events);
    NamesAreShort(s, w, id);
    SeenAreParts(s, w, id, e);
    NextIsBase64(w.screens[id], e);
  }

  lemma {:induction false} OnlyPartsAreSent(s: Setup, events: seq<Event>)
    requires View.ValidSetup(s.v) && AllBase64(events)
    ensures Base64So(Run(s, events))
  {
    if events != [] {
      var front, e := events[..|events| - 1], events[|events| - 1];
      OnlyPartsAreSent(s, front);
      RunInv(s, front);
      var w := Run(s, front);
      if Enabled(s, w, e) {
        match e
        case Outside(x, now) => OutsideBase64(s, w, x, now);
        case Inside(id, x) => InsideBase64(s, w, id, x);
      }
    }
  }

  /** With base64 from the screencasts the limit on a line keeps nothing back, whatever
      the daemon asks, the sessions do and the channel is asked. */
  lemma {:induction false} NothingIsKeptBack(s: Setup, events: seq<Event>)
    requires View.ValidSetup(s.v) && AllBase64(events)
    ensures ViewOf(s, Run(s, events)).link.history.refused == []
  {
    OnlyPartsAreSent(s, events);
    View.NothingIsTooLong(s.v, Run(s, events).log);
  }
}

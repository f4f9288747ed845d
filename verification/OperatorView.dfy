/** The channel and its live view hub, run together: on which connection a stream may
    run, who can have started it, and that no line of either is too long.
    (src/helper/operator-channel.ts:119-135,260-305,366-385, src/helper/operator-view-hub.ts) */
module OperatorView {
  import opened Json
  import opened OperatorProtocol
  import Frames = OperatorFrames
  import VS = ViewStream
  import StreamRuns = ViewStreamRuns
  import ViewRules
  import opened ViewLines
  import Link = OperatorLink
  import LinkRuns = OperatorLinkRuns
  import LinkHistory = OperatorLinkHistory
  import Talk = OperatorLinkTalk
  import Guarantees = OperatorLinkGuarantees
  import Hub = ViewHub
  import HubRuns = ViewHubRuns

  /** What the channel is set up with, its first dial, and how JSON spells a number. */
  datatype Setup = Setup(c: Link.Config, check: Link.SocketCheck, nonce: Text, show: real -> Frames.Number)

  ghost predicate ValidSetup(s: Setup) { Link.ValidConfig(s.c) && |s.nonce| == 32 }

  /** Both states, with the events each has seen; `origin` is the connection on which the
      hub's frames of an epoch were read. */
  datatype View = View(
    link: Link.Link, hub: Hub.Hub, origin: map<nat, Link.Conn>,
    log: seq<LinkRuns.Event>, seen: seq<HubRuns.Event>)

  /** An event of the channel, or of a session, a stream or an await of the hub. */
  datatype Event = Channel(e: LinkRuns.Event) | Live(of: HubRuns.Event)

  /** Only the channel hands frames to the hub and stops all its streams. */
  predicate OfHub(e: HubRuns.Event) { !e.StartFrame? && !e.StopFrame? && !e.Disconnected? }

  function Since<T>(before: seq<T>, now: seq<T>): (new_: seq<T>)
    ensures forall x :: x in new_ ==> x in now
    ensures before == now ==> new_ == []
  {
    if |before| <= |now| then now[|before|..] else []
  }

  /** `handle`: a `frame.ack` goes to its stream and not to the hub's queues. */
  function Told(fs: seq<Fields>): (es: seq<HubRuns.Event>)
    ensures forall e :: e in es ==> e.StartFrame? || e.StopFrame?
    ensures fs == [] ==> es == []
  {
    if fs == [] then []
    else
      var f := fs[|fs| - 1];
      Told(fs[..|fs| - 1])
      + if Is(f, "type", "view.start") then [HubRuns.StartFrame(f)]
        else if Is(f, "type", "view.stop") then [HubRuns.StopFrame(f)] else []
  }

  function Ends(loss: Option<VS.StopReason>): seq<HubRuns.Event> {
    match loss case None => [] case Some(reason) => [HubRuns.Disconnected(reason)]
  }

  /** Each frame of the hub's, sent by the channel. */
  function Says(show: real -> Frames.Number, fs: seq<Hub.Frame>): seq<LinkRuns.Event> {
    seq(|fs|, i requires 0 <= i < |fs| => LinkRuns.ViewSends(FramePairs(fs[i], show)))
  }

  /** What the hub then has to say. */
  function Answers(s: Setup, v: View, told: seq<HubRuns.Event>): seq<LinkRuns.Event> {
    Says(s.show, Since(v.hub.history.wire, HubRuns.Run(v.hub, told).history.wire))
  }

  /** The frames handed over in a step are of the hub's epoch, from the channel's socket. */
  function OriginAfter(v: View, l: Link.Link): map<nat, Link.Conn> {
    if Since(v.link.history.handed, l.history.handed) != [] && l.sock.Some?
    then v.origin[v.hub.epoch := l.sock.value] else v.origin
  }

  function ChannelStep(s: Setup, v: View, e: LinkRuns.Event): View {
    var l := LinkRuns.Step(s.c, v.link, e);
    var fs := Since(v.link.history.handed, l.history.handed);
    var told := Told(fs) + Ends(Talk.LossOf(v.link, e, l));
    View(LinkRuns.Run(s.c, l, Answers(s, v, told)), HubRuns.Run(v.hub, told),
         OriginAfter(v, l), v.log + [e] + Answers(s, v, told), v.seen + told)
  }

  function HubStep(s: Setup, v: View, e: HubRuns.Event): View {
    v.(link := LinkRuns.Run(s.c, v.link, Answers(s, v, [e])), hub := HubRuns.Run(v.hub, [e]),
       log := v.log + Answers(s, v, [e]), seen := v.seen + [e])
  }

  function Step(s: Setup, v: View, e: Event): View {
    match e
    case Channel(le) => ChannelStep(s, v, le)
    case Live(he) => if OfHub(he) then HubStep(s, v, he) else v
  }

  function Started(s: Setup): View {
    View(LinkRuns.Started(s.check, s.nonce), Hub.EMPTY, map[], [], [])
  }

  function Run(s: Setup, events: seq<Event>): View {
    if events == [] then Started(s) else Step(s, Run(s, events[..|events| - 1]), events[|events| - 1])
  }

  // ---------- each side of a run is a run ----------

  ghost predicate IsRun(s: Setup, v: View) {
    && v.link == LinkRuns.Run(s.c, LinkRuns.Started(s.check, s.nonce), v.log)
    && v.hub == HubRuns.Run(Hub.EMPTY, v.seen)
  }

  lemma OneMore(c: Link.Config, l: Link.Link, e: LinkRuns.Event)
    ensures LinkRuns.Run(c, l, [e]) == LinkRuns.Step(c, l, e)
  {
    assert [e][..0] == [] && LinkRuns.Run(c, l, []) == l;
  }

  lemma StepIsRun(s: Setup, v: View, e: Event)
    requires IsRun(s, v)
    ensures IsRun(s, Step(s, v, e))
  {
    var start := LinkRuns.Started(s.check, s.nonce);
    match e
    case Channel(le) =>
      var l := LinkRuns.Step(s.c, v.link, le);
      var told := Told(Since(v.link.history.handed, l.history.handed)) + Ends(Talk.LossOf(v.link, le, l));
      OneMore(s.c, v.link, le);
      LinkRuns.RunSplits(s.c, start, v.log, [le]);
      LinkRuns.RunSplits(s.c, start, v.log + [le], Answers(s, v, told));
      HubRuns.RunSplits(Hub.EMPTY, v.seen, told);
    case Live(he) =>
      LinkRuns.RunSplits(s.c, start, v.log, Answers(s, v, [he]));
      HubRuns.RunSplits(Hub.EMPTY, v.seen, [he]);
  }

  lemma RunsHoldApart(s: Setup, v: View)
    requires ValidSetup(s) && IsRun(s, v)
    ensures LinkRuns.Inv(s.c, v.link) && HubRuns.Inv(v.hub) && NamesInv(v.hub)
  {
    LinkRuns.RunInv(s.c, s.check, s.nonce, v.log);
    HubRuns.ReachableInv(v.seen);
    NamesRun(v.seen);
  }

  // ---------- the hub's part: each stream comes from a frame of its epoch ----------

  /** Every stream was made, and every start waits, in an epoch of `from`. */
  ghost predicate Traced(h: Hub.Hub, from: set<nat>) {
    && (forall id :: id in h.history.born ==> h.history.born[id] in from)
    && (forall s, t :: t in HubRuns.ChainOf(h, s) && (t.Start? || t.Restarting?) ==> t.epoch in from)
    && (forall e :: e in from ==> e <= h.epoch)
  }

  /** A stream is made in the current epoch, from a start of this epoch. */
  ghost predicate BornNow(h: Hub.Hub, h': Hub.Hub) {
    forall id :: id in h'.history.born ==>
      || (id in h.history.born && h'.history.born[id] == h.history.born[id])
      || (h'.history.born[id] == h.epoch && StartsNow(h))
  }

  /** A start of the current epoch is queued or half begun. */
  ghost predicate StartsNow(h: Hub.Hub) {
    exists s, t :: t in HubRuns.ChainOf(h, s) && (t.Start? || t.Restarting?) && t.epoch == h.epoch
  }

  /** A stream is made in the current epoch. */
  ghost predicate BearsNow(h: Hub.Hub, h': Hub.Hub) {
    forall id :: id in h'.history.born ==>
      || (id in h.history.born && h'.history.born[id] == h.history.born[id])
      || h'.history.born[id] == h.epoch
  }

  lemma LaunchBears(h: Hub.Hub, s: Hub.Session, params: ViewRules.Params, source: Hub.Source)
    requires s in h.chains && h.chains[s] != []
    ensures BearsNow(h, Hub.Launch(h, s, params, source))
  {
  }

  lemma RestartBearsNothing(h: Hub.Hub, s: Hub.Session, t: Hub.Task)
    requires HubRuns.MapInv(h) && s in h.streams && s in h.chains && h.chains[s] != []
    ensures Hub.Suspend(Hub.Finish(h, h.streams[s], false), s, t).history.born == h.history.born
  {
    HubRuns.FinishShape(h, h.streams[s], false);
  }

  lemma StartBears(h: Hub.Hub, s: Hub.Session, params: ViewRules.Params, epoch: nat)
    requires HubRuns.MapInv(h) && Hub.Ready(h, s) && h.chains[s][0] == Hub.Start(params, epoch)
    ensures BearsNow(h, Hub.RunStart(h, s, params, epoch))
    ensures epoch != h.epoch ==> Hub.RunStart(h, s, params, epoch).history.born == h.history.born
  {
    if epoch == h.epoch && s in h.sources && h.sources[s].Some? {
      var source := h.sources[s].value;
      LaunchBears(h, s, params, source);
      if s in h.streams { RestartBearsNothing(h, s, Hub.Restarting(params, epoch, source)); }
    }
  }

  lemma OthersBearNothing(h: Hub.Hub, s: Hub.Session, ok: bool)
    requires HubRuns.MapInv(h) && Hub.Ready(h, s) && !h.chains[s][0].Start? && !h.chains[s][0].Restarting?
    ensures Hub.Resume(h, s, ok).history.born == h.history.born
  {
    if h.chains[s][0].Beginning? { HubRuns.FinishShape(h, h.chains[s][0].id, ok); }
    if h.chains[s][0].Queued() && s in h.streams { HubRuns.FinishShape(h, h.streams[s], true); }
  }

  lemma ResumeBears(h: Hub.Hub, s: Hub.Session, ok: bool)
    requires HubRuns.Inv(h) && Hub.Ready(h, s)
    ensures BornNow(h, Hub.Resume(h, s, ok))
  {
    var head := h.chains[s][0];
    assert head in HubRuns.ChainOf(h, s);
    if head.Start? {
      StartBears(h, s, head.params, head.epoch);
    } else if !head.Restarting? {
      OthersBearNothing(h, s, ok);
    }
  }

  lemma ResumeTraced(h: Hub.Hub, s: Hub.Session, ok: bool, from: set<nat>)
    requires HubRuns.Inv(h) && Hub.Ready(h, s) && Traced(h, from)
    ensures Traced(Hub.Resume(h, s, ok), from)
  {
    var h' := Hub.Resume(h, s, ok);
    ResumeBears(h, s, ok);
    HubRuns.ResumeMoves(h, s, ok);
    forall u, t | t in HubRuns.ChainOf(h', u) && (t.Start? || t.Restarting?) ensures t.epoch in from {
      var after, rest := HubRuns.ChainOf(h', s), h.chains[s][1..];
      if u == s && after != rest && t == after[0] {
        assert h.chains[s][0] in HubRuns.ChainOf(h, s);
      } else if u == s {
        assert t in rest && t in HubRuns.ChainOf(h, s);
      } else {
        assert t in HubRuns.ChainOf(h, u);
      }
    }
  }

  lemma SameIsTraced(h: Hub.Hub, h': Hub.Hub, from: set<nat>)
    requires Traced(h, from) && h'.history.born == h.history.born && h.epoch <= h'.epoch
    requires forall s, t :: t in HubRuns.ChainOf(h', s) && (t.Start? || t.Restarting?) ==>
               t in HubRuns.ChainOf(h, s) || t.epoch in from
    ensures Traced(h', from)
  {
  }

  lemma EnqueueTraced(h: Hub.Hub, g: Hub.Hub, s: Hub.Session, t: Hub.Task, from: set<nat>)
    requires Traced(h, from) && g.history == h.history && g.chains == h.chains && g.epoch == h.epoch
    requires t.Queued() && (t.Start? ==> t.epoch in from)
    ensures Traced(Hub.Enqueue(g, s, t), from) && Hub.Enqueue(g, s, t).epoch == h.epoch
  {
    forall u, v | v in HubRuns.ChainOf(Hub.Enqueue(g, s, t), u) ensures v in HubRuns.ChainOf(h, u) || v == t {}
  }

  lemma FrameTraced(h: Hub.Hub, f: Fields, from: set<nat>)
    requires Traced(h, from) && h.epoch in from
    ensures Traced(Hub.OnViewStart(h, f), from) && Hub.OnViewStart(h, f).epoch == h.epoch
  {
    match ViewRules.ParseViewStart(f)
    case Accepted(s, params) => EnqueueTraced(h, h, s, Hub.Start(params, h.epoch), from);
    case Refused => SameIsTraced(h, Hub.OnViewStart(h, f), from);
  }

  lemma OthersTraced(h: Hub.Hub, e: HubRuns.Event, from: set<nat>)
    requires HubRuns.Inv(h) && Traced(h, from) && HubRuns.Enabled(h, e)
    requires e.Registered? || e.StreamEnded? || e.LooseDone? || e.Disconnected?
    ensures Traced(HubRuns.Step(h, e), from)
    ensures HubRuns.Step(h, e).epoch == if e.Disconnected? then h.epoch + 1 else h.epoch
  {
    if e.StreamEnded? { HubRuns.FinishShape(h, e.id, true); }
    SameIsTraced(h, HubRuns.Step(h, e), from);
  }

  lemma HubStepTraced(h: Hub.Hub, e: HubRuns.Event, from: set<nat>)
    requires HubRuns.Inv(h) && Traced(h, from) && (e.StartFrame? ==> h.epoch in from)
    ensures Traced(HubRuns.Step(h, e), from)
    ensures HubRuns.Step(h, e).epoch == if e.Disconnected? then h.epoch + 1 else h.epoch
  {
    if HubRuns.Enabled(h, e) {
      match e
      case Resumed(s, ok) => ResumeTraced(h, s, ok, from); HubRuns.ResumeMoves(h, s, ok);
      case StartFrame(f) => FrameTraced(h, f, from);
      case StopFrame(f) =>
        if Hub.SessionOf(f).Some? { EnqueueTraced(h, h, Hub.SessionOf(f).value, Hub.Stop, from); }
      case Unregistered(s) => EnqueueTraced(h, h.(sources := h.sources - {s}), s, Hub.Close, from);
      case _ => OthersTraced(h, e, from);
    }
  }

  lemma {:induction false} HubRunTraced(h: Hub.Hub, told: seq<HubRuns.Event>, from: set<nat>)
    requires HubRuns.Inv(h) && Traced(h, from)
    requires forall e :: e in told ==> !e.Disconnected? && (e.StartFrame? ==> h.epoch in from)
    ensures HubRuns.Inv(HubRuns.Run(h, told))
    ensures Traced(HubRuns.Run(h, told), from) && HubRuns.Run(h, told).epoch == h.epoch
  {
    if told != [] {
      HubRunTraced(h, told[..|told| - 1], from);
      HubRuns.StepKeeps(HubRuns.Run(h, told[..|told| - 1]), told[|told| - 1]);
      HubStepTraced(HubRuns.Run(h, told[..|told| - 1]), told[|told| - 1], from);
    }
  }

  lemma EndsTraced(h: Hub.Hub, loss: Option<VS.StopReason>, from: set<nat>)
    requires HubRuns.Inv(h) && Traced(h, from)
    ensures Traced(HubRuns.Run(h, Ends(loss)), from)
    ensures HubRuns.Run(h, Ends(loss)).epoch == if loss.Some? then h.epoch + 1 else h.epoch
  {
    if loss.Some? {
      assert Ends(loss)[..0] == [] && HubRuns.Run(h, []) == h;
      HubStepTraced(h, HubRuns.Disconnected(loss.value), from);
    }
  }

  // ---------- the channel's part: what the hub says changes no connection ----------

  /** Lines of the live view are the only events. */
  ghost predicate OnlySends(es: seq<LinkRuns.Event>) { forall e :: e in es ==> e.ViewSends? }

  lemma {:induction false} SendsStay(c: Link.Config, l: Link.Link, es: seq<LinkRuns.Event>)
    requires OnlySends(es)
    ensures var l' := LinkRuns.Run(c, l, es);
            l'.sock == l.sock && l'.state == l.state && l'.history.proven == l.history.proven
  {
    if es != [] {
      SendsStay(c, l, es[..|es| - 1]);
      LinkHistory.SendCases(LinkRuns.Run(c, l, es[..|es| - 1]), Link.View(es[|es| - 1].pairs));
      assert es[|es| - 1] in es;
    }
  }

  // ---------- streams and their connections ----------

  /** The frames of an epoch were read where the daemon is proven, and those of the current
      epoch on the connection the channel has. */
  ghost predicate OriginInv(v: View) {
    && Traced(v.hub, v.origin.Keys)
    && (forall e :: e in v.origin ==> v.origin[e] in v.link.history.proven)
    && (v.hub.epoch in v.origin ==> v.link.sock == Some(v.origin[v.hub.epoch]))
  }

  /** The hub after the frames it was handed, and the loss of the connection if any. */
  lemma ToldTraced(h: Hub.Hub, fs: seq<Fields>, loss: Option<VS.StopReason>, from: set<nat>)
    requires HubRuns.Inv(h) && Traced(h, from) && (fs != [] ==> h.epoch in from)
    ensures var h' := HubRuns.Run(h, Told(fs) + Ends(loss));
            Traced(h', from) && h'.epoch == if loss.Some? then h.epoch + 1 else h.epoch
  {
    HubRunTraced(h, Told(fs), from);
    HubRuns.RunSplits(h, Told(fs), Ends(loss));
    EndsTraced(HubRuns.Run(h, Told(fs)), loss, from);
  }

  /** The connection after a step, when the hub's epoch goes on. */
  lemma StepKeepsOrigin(v: View, e: LinkRuns.Event, l: Link.Link)
    requires OriginInv(v) && Talk.Means(v.link, e, l)
    requires forall k :: k in v.link.history.proven ==> k in l.history.proven
    requires l.state.Ready? ==> l.sock.Some? && l.sock.value in l.history.proven
    ensures var fs, origin := Since(v.link.history.handed, l.history.handed), OriginAfter(v, l);
            && v.origin.Keys <= origin.Keys <= v.origin.Keys + {v.hub.epoch}
            && (fs != [] ==> v.hub.epoch in origin && Talk.LossOf(v.link, e, l).None?)
            && (forall k :: k in origin ==> origin[k] in l.history.proven)
            && (v.hub.epoch in origin && Talk.LossOf(v.link, e, l).None? ==> l.sock == Some(origin[v.hub.epoch]))
  {
  }

  lemma LinkStepOrigin(s: Setup, v: View, e: LinkRuns.Event)
    requires LinkRuns.Inv(s.c, v.link) && OriginInv(v)
    ensures var l := LinkRuns.Step(s.c, v.link, e);
            var fs, origin := Since(v.link.history.handed, l.history.handed), OriginAfter(v, l);
            && v.origin.Keys <= origin.Keys <= v.origin.Keys + {v.hub.epoch}
            && (fs != [] ==> v.hub.epoch in origin && Talk.LossOf(v.link, e, l).None?)
            && (forall k :: k in origin ==> origin[k] in l.history.proven)
            && (v.hub.epoch in origin && Talk.LossOf(v.link, e, l).None? ==> l.sock == Some(origin[v.hub.epoch]))
  {
    LinkRuns.StepKeeps(s.c, v.link, e);
    LinkHistory.StepGrows(s.c, v.link, e);
    Talk.StepMeans(s.c, v.link, e);
    StepKeepsOrigin(v, e, LinkRuns.Step(s.c, v.link, e));
  }

  lemma MoreOrigins(h: Hub.Hub, from: set<nat>, more: set<nat>)
    requires Traced(h, from) && from <= more <= from + {h.epoch}
    ensures Traced(h, more)
  {
  }

  lemma ChannelKeepsOrigin(s: Setup, v: View, e: LinkRuns.Event)
    requires ValidSetup(s) && IsRun(s, v) && OriginInv(v)
    ensures OriginInv(ChannelStep(s, v, e))
  {
    RunsHoldApart(s, v);
    var l := LinkRuns.Step(s.c, v.link, e);
    LinkStepOrigin(s, v, e);
    var fs, loss := Since(v.link.history.handed, l.history.handed), Talk.LossOf(v.link, e, l);
    var v' := ChannelStep(s, v, e);
    MoreOrigins(v.hub, v.origin.Keys, v'.origin.Keys);
    ToldTraced(v.hub, fs, loss, v'.origin.Keys);
    AnswersSend(s, v, Told(fs) + Ends(loss));
    SendsStay(s.c, l, Answers(s, v, Told(fs) + Ends(loss)));
  }

  lemma AnswersSend(s: Setup, v: View, told: seq<HubRuns.Event>)
    ensures OnlySends(Answers(s, v, told))
  {
  }

  lemma OriginStays(v: View, v': View)
    requires OriginInv(v) && v'.origin == v.origin && v'.hub.epoch == v.hub.epoch
    requires Traced(v'.hub, v.origin.Keys)
    requires v'.link.sock == v.link.sock && v'.link.history.proven == v.link.history.proven
    ensures OriginInv(v')
  {
  }

  lemma HubKeepsOrigin(s: Setup, v: View, e: HubRuns.Event)
    requires ValidSetup(s) && IsRun(s, v) && OriginInv(v) && OfHub(e)
    ensures OriginInv(HubStep(s, v, e))
  {
    RunsHoldApart(s, v);
    HubRunTraced(v.hub, [e], v.origin.Keys);
    AnswersSend(s, v, [e]);
    SendsStay(s.c, v.link, Answers(s, v, [e]));
    OriginStays(v, HubStep(s, v, e));
  }

  lemma {:induction false} RunInv(s: Setup, events: seq<Event>)
    requires ValidSetup(s)
    ensures IsRun(s, Run(s, events)) && OriginInv(Run(s, events))
  {
    if events != [] {
      var front, e := events[..|events| - 1], events[|events| - 1];
      RunInv(s, front);
      StepIsRun(s, Run(s, front), e);
      if e.Channel? {
        ChannelKeepsOrigin(s, Run(s, front), e.e);
      } else if OfHub(e.of) {
        HubKeepsOrigin(s, Run(s, front), e.of);
      }
    }
  }

  /** Only the daemon starts a stream, and no stream outlives the connection it started
      on: each stream ever made comes from frames read on a connection whose own fresh
      nonce the daemon had answered, and it is stopped unless that is still the channel's
      connection. Either side of the run is a run of its own, with all that it keeps. */
  lemma {:induction false} StreamsKeepToTheirConnection(s: Setup, events: seq<Event>)
    requires ValidSetup(s)
    ensures var v := Run(s, events);
            && IsRun(s, v)
            && (forall id :: id in v.hub.history.born ==>
                  var epoch := v.hub.history.born[id];
                  && epoch in v.origin && LinkRuns.Proved(s.c, v.link.history, v.origin[epoch])
                  && id in v.hub.infos
                  && (v.hub.infos[id].stopped || v.link.sock == Some(v.origin[epoch])))
  {
    RunInv(s, events);
    var v := Run(s, events);
    RunsHoldApart(s, v);
    forall id | id in v.hub.history.born
      ensures id in v.hub.infos
      ensures v.hub.infos[id].stopped || v.hub.history.born[id] == v.hub.epoch
    {
      assert id in v.hub.infos;
      if !v.hub.infos[id].stopped { assert HubRuns.Lives(v.hub.infos, id); }
    }
  }

  // ---------- the size of every line ----------

  /** Where a part of a frame comes from: a stream's run, and the numbers beside it. */
  datatype Origin = Origin(
    session: Text, p: ViewRules.ViewParams, start: real, events: seq<StreamRuns.Event>, part: ViewRules.Part,
    seqNo: Frames.Number, at: Frames.Number, size: Option<(Frames.Number, Frames.Number)>,
    index: Frames.Number, parts: Frames.Number)

  ghost predicate Makes(o: Origin, pairs: Frames.Pairs) {
    && ViewRules.InCeiling(o.p) && |o.session| <= ViewRules.MAX_SESSION_CHARS && SendsBase64(o.events)
    && StreamRuns.Fresh(o.session, o.p, o.start).adapter.Valid()
    && o.part in StreamRuns.Run(StreamRuns.Fresh(o.session, o.p, o.start), o.events).history.out
    && pairs == Frames.PartPairs(o.part, o.seqNo, o.at, o.size, o.index, o.parts)
  }

  /** A part that some stream of an accepted `view.start` sends. */
  ghost predicate IsPartLine(pairs: Frames.Pairs) { exists o :: Makes(o, pairs) }

  /** What the channel is told to send besides the hub's frames are parts of frames. */
  ghost predicate OnlyParts(events: seq<Event>) {
    forall k :: 0 <= k < |events| && events[k].Channel? && events[k].e.ViewSends? ==> IsPartLine(events[k].e.pairs)
  }

  lemma PartLineFits(pairs: Frames.Pairs)
    requires IsPartLine(pairs)
    ensures Frames.LineBytes(pairs) <= MAX_FRAME_BYTES
  {
    var o :| Makes(o, pairs);
    StreamLinesFit(o.session, o.p, o.start, o.events, o.part, o.seqNo, o.at, o.size, o.index, o.parts);
  }

  lemma AnswersFit(s: Setup, v: View, told: seq<HubRuns.Event>)
    requires NamesInv(HubRuns.Run(v.hub, told))
    ensures OnlySends(Answers(s, v, told))
    ensures forall e :: e in Answers(s, v, told) ==> Frames.LineBytes(e.pairs) <= MAX_FRAME_BYTES
  {
    var fs := Since(v.hub.history.wire, HubRuns.Run(v.hub, told).history.wire);
    forall i | 0 <= i < |fs| ensures Frames.LineBytes(FramePairs(fs[i], s.show)) <= MAX_FRAME_BYTES {
      assert fs[i] in fs;
      ShortFrameFits(fs[i], s.show);
    }
  }

  lemma StepFits(s: Setup, v: View, e: Event)
    requires ValidSetup(s) && IsRun(s, v) && Guarantees.ViewLinesFit(v.log)
    requires e.Channel? && e.e.ViewSends? ==> Frames.LineBytes(e.e.pairs) <= MAX_FRAME_BYTES
    ensures Guarantees.ViewLinesFit(Step(s, v, e).log)
  {
    StepIsRun(s, v, e);
    RunsHoldApart(s, Step(s, v, e));
    match e
    case Channel(le) =>
      var l := LinkRuns.Step(s.c, v.link, le);
      AnswersFit(s, v, Told(Since(v.link.history.handed, l.history.handed)) + Ends(Talk.LossOf(v.link, le, l)));
    case Live(he) => if OfHub(he) { AnswersFit(s, v, [he]); }
  }

  lemma {:induction false} LogFits(s: Setup, events: seq<Event>)
    requires ValidSetup(s) && OnlyParts(events)
    ensures Guarantees.ViewLinesFit(Run(s, events).log)
  {
    if events != [] {
      var front, e := events[..|events| - 1], events[|events| - 1];
      LogFits(s, front);
      RunInv(s, front);
      if e.Channel? && e.e.ViewSends? { PartLineFits(e.e.pairs); }
      StepFits(s, Run(s, front), e);
    }
  }

  /** The limit on a line never keeps anything back: not a request, not a notice, not what
      the hub says, and not a part of a frame. */
  lemma {:induction false} NothingIsTooLong(s: Setup, events: seq<Event>)
    requires ValidSetup(s) && OnlyParts(events)
    ensures Run(s, events).link.history.refused == []
  {
    RunInv(s, events);
    LogFits(s, events);
    Guarantees.NothingOwnIsTooLong(s.c, s.check, s.nonce, Run(s, events).log);
  }
}

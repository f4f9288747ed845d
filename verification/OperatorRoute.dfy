/** A session's bridge and the channel it asks, run together: which of its own requests a
    wait hangs on, and what detaching does to them.
    (src/helper/bridge.ts:269-280,334-368, src/helper/operator-channel.ts:141-257) */
module OperatorRoute {
  import opened Json
  import opened OperatorProtocol
  import Frames = OperatorFrames
  import Link = OperatorLink
  import LinkRuns = OperatorLinkRuns
  import LinkHistory = OperatorLinkHistory
  import Guarantees = OperatorLinkGuarantees
  import Bridge
  import BridgeRuns

  type WaitId = Bridge.WaitId
  type AskId = Link.AskId

  /** What the two are set up with: the channel, its first dial, and the bridge's world. */
  datatype Setup = Setup(c: Link.Config, check: Link.SocketCheck, nonce: Text, world: Text)

  ghost predicate ValidSetup(s: Setup) { Link.ValidConfig(s.c) && |s.nonce| == 32 }

  /** The request that a wait of this bridge made. */
  datatype Made = Made(ask: AskId, prompt: Frames.Prompt)

  /** Both states, the requests of this bridge in the order they were made, and the events
      that each side has seen. */
  datatype Route = Route(
    bridge: Bridge.State, link: Link.Link, asks: map<WaitId, Made>, order: seq<AskId>,
    waits: seq<BridgeRuns.Event>, log: seq<LinkRuns.Event>)

  const DEFAULT_TIMEOUT_MS := 300_000

  /** How long a request waits: as asked, or five minutes. */
  function AskTimeout(timeoutMs: int): int { if timeoutMs > 0 then timeoutMs else DEFAULT_TIMEOUT_MS }

  datatype Event =
    | Awaits(id: WaitId, name: Option<Text>, timeoutMs: int, ticket: Option<Text>, prompt: Option<Frames.Prompt>,
             ask: AskId, session: Text, clean: Text -> Text, now: Frames.Number, expires: Frames.Number)
    | Delivers(id: WaitId)
    | Detaches
    | Channel(e: LinkRuns.Event)
    | Page(p: BridgeRuns.Event)

  /** The event of the channel that the wait's ask is. */
  function AskOf(e: Event): LinkRuns.Event
    requires e.Awaits? && e.prompt.Some?
  {
    LinkRuns.Asked(e.ask, Frames.Ask(e.session, e.expires, e.clean, e.prompt.value), e.now, Link.LiveSignal)
  }

  /** This bridge's signal reaches its own requests through `Detaches` alone; everything
      else on the channel, and the requests of other bridges, come in any order. */
  predicate Enabled(r: Route, e: Event) {
    match e
    case Awaits(id, _, timeoutMs, _, prompt, _, _, _, now, expires) =>
      && id !in r.bridge.results && expires.n == now.n + AskTimeout(timeoutMs) as real
      && (prompt.Some? && !r.bridge.detached ==> LinkRuns.Enabled(r.link, AskOf(e)))
    case Delivers(id) =>
      && id in r.bridge.asked && id in r.asks
      && r.asks[id].ask in r.link.promises && r.link.promises[r.asks[id].ask].Some?
    case Detaches => true
    case Channel(x) =>
      !(x.AbortFires? && x.id in r.order) && !(x.JoinAborted? && x.id in r.order)
    case Page(p) => !p.Awaits? && !p.OperatorAnswers? && !p.Detaches?
  }

  /** The abort of each request, in the order in which they listened. */
  function Aborts(ids: seq<AskId>): seq<LinkRuns.Event> {
    if ids == [] then [] else [LinkRuns.AbortFires(ids[0]), LinkRuns.JoinAborted(ids[0])] + Aborts(ids[1..])
  }

  function OnBridge(s: Setup, r: Route, e: BridgeRuns.Event): Route {
    r.(bridge := BridgeRuns.Step(true, s.world, r.bridge, e), waits := r.waits + [e])
  }

  function OnChannel(s: Setup, r: Route, events: seq<LinkRuns.Event>): Route {
    r.(link := LinkRuns.Run(s.c, r.link, events), log := r.log + events)
  }

  function OnAwaits(s: Setup, r: Route, e: Event): Route
    requires e.Awaits?
  {
    var b := OnBridge(s, r, BridgeRuns.Awaits(e.id, e.name, e.timeoutMs, e.ticket, e.prompt));
    if e.prompt.None? || r.bridge.detached then b
    else OnChannel(s, b, [AskOf(e)]).(asks := r.asks[e.id := Made(e.ask, e.prompt.value)], order := r.order + [e.ask])
  }

  /** An event that cannot happen now changes nothing. */
  function Step(s: Setup, r: Route, e: Event): Route {
    if !Enabled(r, e) then r
    else match e
      case Awaits(_, _, _, _, _, _, _, _, _, _) => OnAwaits(s, r, e)
      case Delivers(id) =>
        OnBridge(s, r, BridgeRuns.OperatorAnswers(id, r.link.promises[r.asks[id].ask].value))
      case Detaches => OnChannel(s, OnBridge(s, r, BridgeRuns.Detaches), Aborts(r.order))
      case Channel(x) => OnChannel(s, r, [x])
      case Page(p) => OnBridge(s, r, p)
  }

  function Start(s: Setup): Route {
    Route(Bridge.FRESH, LinkRuns.Started(s.check, s.nonce), map[], [], [], [])
  }

  function Run(s: Setup, r: Route, events: seq<Event>): Route {
    if events == [] then r else Step(s, Run(s, r, events[..|events| - 1]), events[|events| - 1])
  }

  // ---------- each side is a run of its own ----------

  ghost predicate Runs(s: Setup, r: Route) {
    && r.bridge == BridgeRuns.Run(true, s.world, Bridge.FRESH, r.waits)
    && r.link == LinkRuns.Run(s.c, LinkRuns.Started(s.check, s.nonce), r.log)
  }

  lemma BridgeRunsOn(s: Setup, r: Route, e: BridgeRuns.Event)
    requires Runs(s, r)
    ensures Runs(s, OnBridge(s, r, e))
  {
    assert (r.waits + [e])[..|r.waits|] == r.waits;
  }

  lemma ChannelRunsOn(s: Setup, r: Route, events: seq<LinkRuns.Event>)
    requires Runs(s, r)
    ensures Runs(s, OnChannel(s, r, events))
  {
    LinkRuns.RunSplits(s.c, LinkRuns.Started(s.check, s.nonce), r.log, events);
  }

  // ---------- what every run keeps ----------

  /** What a wait gets for what its request got. */
  function Outcome(prompt: Frames.Prompt, x: Link.Result): Bridge.Result {
    match x
    case Failed(why) => Bridge.Failed(Bridge.Operator(why))
    case Answered(a) => Bridge.SignalOf(prompt, a)
  }

  /** Each wait with a request waits on that request alone and ends as it did; a wait
      without one was refused. */
  ghost predicate WaitsOn(b: Bridge.State, l: Link.Link, asks: map<WaitId, Made>) {
    && (forall id :: id in asks ==> id in b.results && asks[id].ask in l.promises)
    && (forall id :: id in b.asked ==> id in asks && b.asked[id] == asks[id].prompt)
    && (forall id :: id in b.results ==> WaitOk(b, l, asks, id))
    && (forall i, j :: i in asks && j in asks && i != j ==> asks[i].ask != asks[j].ask)
  }

  predicate WaitOk(b: Bridge.State, l: Link.Link, asks: map<WaitId, Made>, id: WaitId)
    requires id in b.results
  {
    if id !in asks then b.results[id].Some? && b.results[id].value.Failed?
    else if b.results[id].None? then id in b.asked
    else
      && asks[id].ask in l.promises && l.promises[asks[id].ask].Some?
      && b.results[id].value == Outcome(asks[id].prompt, l.promises[asks[id].ask].value)
  }

  /** The channel knows the prompt of each request; the requests in order are those of the
      waits, and each listens to this bridge's signal. */
  ghost predicate OwnAsks(l: Link.Link, asks: map<WaitId, Made>, order: seq<AskId>) {
    && (forall id :: id in asks ==> asks[id].ask in order)
    && (forall id :: id in asks && asks[id].ask in l.history.prompts ==>
          l.history.prompts[asks[id].ask] == asks[id].prompt)
    && (forall a :: a in order ==> a in l.promises)
    && Listening(l, order)
  }

  ghost predicate Listening(l: Link.Link, order: seq<AskId>) {
    && (forall p :: p in l.pending && p.id in order ==> p.signal.LiveSignal?)
    && (forall j :: j in l.joins && j in order ==> l.joins[j].signal.LiveSignal?)
  }

  ghost predicate RouteInv(s: Setup, r: Route) {
    && Runs(s, r) && LinkRuns.Inv(s.c, r.link)
    && WaitsOn(r.bridge, r.link, r.asks) && OwnAsks(r.link, r.asks, r.order)
    && (r.bridge.detached ==> AllSettled(r.link, r.order))
    && r.bridge.waiters == []
  }

  ghost predicate AllSettled(l: Link.Link, order: seq<AskId>) {
    forall a :: a in order ==> a in l.promises && l.promises[a].Some?
  }

  // ---------- the channel moves ----------

  /** The channel went on: settled promises and known prompts are as they were. */
  ghost predicate Onward(l: Link.Link, l': Link.Link, order: seq<AskId>) {
    && (forall a :: a in l.promises ==> a in l'.promises && (l.promises[a].Some? ==> l'.promises[a] == l.promises[a]))
    && (forall a :: a in order && a in l'.history.prompts ==>
          a in l.history.prompts && l'.history.prompts[a] == l.history.prompts[a])
    && (Listening(l, order) ==> Listening(l', order))
  }

  lemma OnwardTwice(l: Link.Link, m: Link.Link, n: Link.Link, order: seq<AskId>)
    requires Onward(l, m, order) && Onward(m, n, order)
    ensures Onward(l, n, order)
  {
  }

  lemma SettledOnward(c: Link.Config, l: Link.Link, e: LinkRuns.Event)
    requires LinkRuns.Inv(c, l)
    ensures var l' := LinkRuns.Step(c, l, e);
            forall a :: a in l.promises ==>
              a in l'.promises && (l.promises[a].Some? ==> l'.promises[a] == l.promises[a])
  {
    LinkHistory.StepGrows(c, l, e);
    forall a | a in l.promises && l.promises[a].Some?
      ensures a in LinkRuns.Step(c, l, e).promises && LinkRuns.Step(c, l, e).promises[a] == l.promises[a]
    {
      LinkHistory.SettledStays(c, l, e, a);
    }
  }

  /** Any event of the channel but the ask of one of these. */
  lemma StepOnward(c: Link.Config, l: Link.Link, e: LinkRuns.Event, order: seq<AskId>)
    requires LinkRuns.Inv(c, l) && forall a :: a in order ==> a in l.promises
    ensures Onward(l, LinkRuns.Step(c, l, e), order)
  {
    SettledOnward(c, l, e);
    LinkHistory.StepGrows(c, l, e);
    WaitsOnward(c, l, LinkRuns.Step(c, l, e), e, order);
  }

  lemma WaitsOnward(c: Link.Config, l: Link.Link, l': Link.Link, e: LinkRuns.Event, order: seq<AskId>)
    requires LinkHistory.Waits(l, l', e) && LinkHistory.Grows(l.history, l'.history)
    requires forall a :: a in order ==> a in l.promises
    requires e.Asked? && !LinkRuns.Enabled(l, e) ==> l' == l
    ensures Listening(l, order) ==> Listening(l', order)
    ensures forall a :: a in order && a in l'.history.prompts ==>
              a in l.history.prompts && l'.history.prompts[a] == l.history.prompts[a]
  {
  }

  // ---------- the abort of a detach ----------

  /** What an abort makes of a promise. */
  function Ended(x: Option<Link.Result>): Option<Link.Result> {
    if x.None? then Some(Link.Failed(Link.Detached)) else x
  }

  /** What the abort of a request makes of the promises, if the request is pending. */
  function Aborted(l: Link.Link, id: AskId): map<AskId, Option<Link.Result>>
    requires id in l.promises
  {
    if Link.Find(l.pending, id).Some? then l.promises[id := Ended(l.promises[id])] else l.promises
  }

  lemma FinishEnds(l: Link.Link, id: AskId)
    requires id in l.promises && l.promises[id].None?
    ensures Link.Finish(l, id, Frames.Aborted, Frames.ByBrowxai, Link.Detached).promises
         == l.promises[id := Some(Link.Failed(Link.Detached))]
  {
    LinkHistory.SendCases(l, Link.Note(Frames.Resolved(id, Frames.Aborted, Frames.ByBrowxai)));
  }

  lemma AbortFiresEnds(c: Link.Config, l: Link.Link, id: AskId)
    requires LinkRuns.PendInv(l) && id in l.promises && Listening(l, [id])
    ensures var m := LinkRuns.Step(c, l, LinkRuns.AbortFires(id));
            m.promises == Aborted(l, id)
  {
    var p := Link.Find(l.pending, id);
    if p.Some? {
      assert id in [id] && p.value.signal.LiveSignal?;
      FinishEnds(l, id);
    }
  }

  lemma RejectEnds(l: Link.Link, id: AskId)
    requires id in l.promises
    ensures Link.OnJoinAborted(l, id).promises == l.promises[id := Ended(l.promises[id])]
  {
  }

  lemma JoinAbortedEnds(c: Link.Config, l: Link.Link, id: AskId)
    requires id in l.promises && Listening(l, [id])
    ensures var m := LinkRuns.Step(c, l, LinkRuns.JoinAborted(id));
            m.promises == if id in l.joins then l.promises[id := Ended(l.promises[id])] else l.promises
  {
    if id in l.joins {
      assert id in [id] && l.joins[id].signal.LiveSignal?;
      RejectEnds(l, id);
      assert LinkRuns.Step(c, l, LinkRuns.JoinAborted(id)) == Link.OnJoinAborted(l, id);
    }
  }

  lemma AbortFiresFirst(c: Link.Config, l: Link.Link, id: AskId, order: seq<AskId>)
    requires LinkRuns.Inv(c, l) && id in l.promises && Listening(l, [id])
    requires forall a :: a in order ==> a in l.promises
    ensures var m := LinkRuns.Step(c, l, LinkRuns.AbortFires(id));
            && LinkRuns.Inv(c, m) && Onward(l, m, order) && Listening(m, [id]) && id in m.promises
            && m.promises == Aborted(l, id)
  {
    LinkRuns.StepKeeps(c, l, LinkRuns.AbortFires(id));
    StepOnward(c, l, LinkRuns.AbortFires(id), order);
    StepOnward(c, l, LinkRuns.AbortFires(id), [id]);
    AbortFiresEnds(c, l, id);
  }

  lemma JoinAbortsNext(c: Link.Config, m: Link.Link, id: AskId, order: seq<AskId>)
    requires LinkRuns.Inv(c, m) && id in m.promises && Listening(m, [id])
    requires forall a :: a in order ==> a in m.promises
    ensures var n := LinkRuns.Step(c, m, LinkRuns.JoinAborted(id));
            && LinkRuns.Inv(c, n) && Onward(m, n, order)
            && n.promises == if id in m.joins then m.promises[id := Ended(m.promises[id])] else m.promises
  {
    LinkRuns.StepKeeps(c, m, LinkRuns.JoinAborted(id));
    StepOnward(c, m, LinkRuns.JoinAborted(id), order);
    JoinAbortedEnds(c, m, id);
  }

  /** A promise that is open is of a request that is pending, or of a repeat. */
  lemma OpenWaits(l: Link.Link, id: AskId)
    requires LinkRuns.PromiseInv(l) && id in l.promises && l.promises[id].None?
    ensures Link.Find(l.pending, id).Some? || id in l.joins
  {
  }

  /** The two steps of an abort come to the end of the promise, whichever it listens to. */
  lemma AbortTwice(l: Link.Link, m: Link.Link, n: Link.Link, id: AskId)
    requires id in l.promises && id in m.promises
    requires m.promises == Aborted(l, id)
    requires n.promises == if id in m.joins then m.promises[id := Ended(m.promises[id])] else m.promises
    requires m.promises[id].None? ==> Link.Find(m.pending, id).Some? || id in m.joins
    requires Link.Find(m.pending, id).Some? ==> Link.Find(l.pending, id).Some?
    ensures n.promises == l.promises[id := Ended(l.promises[id])]
  {
    assert l.promises[id].Some? ==> l.promises[id := Ended(l.promises[id])] == l.promises;
  }

  lemma AbortOne(c: Link.Config, l: Link.Link, id: AskId, order: seq<AskId>)
    requires LinkRuns.Inv(c, l) && id in l.promises && Listening(l, [id])
    requires forall a :: a in order ==> a in l.promises
    ensures var l' := LinkRuns.Run(c, l, [LinkRuns.AbortFires(id), LinkRuns.JoinAborted(id)]);
            && LinkRuns.Inv(c, l') && Onward(l, l', order)
            && l'.promises == l.promises[id := Ended(l.promises[id])]
  {
    var m := LinkRuns.Step(c, l, LinkRuns.AbortFires(id));
    var n := LinkRuns.Step(c, m, LinkRuns.JoinAborted(id));
    AbortFiresFirst(c, l, id, order);
    JoinAbortsNext(c, m, id, order);
    LinkRuns.RunTwo(c, l, LinkRuns.AbortFires(id), LinkRuns.JoinAborted(id));
    OnwardTwice(l, m, n, order);
    if m.promises[id].None? { OpenWaits(m, id); }
    AbortTwice(l, m, n, id);
  }

  /** Every request that is open ends in failure; the others are as they were. */
  ghost predicate AllEnded(l: Link.Link, l': Link.Link, ids: seq<AskId>) {
    forall a :: a in l.promises ==>
      a in l'.promises && l'.promises[a] == if a in ids then Ended(l.promises[a]) else l.promises[a]
  }

  lemma ListeningLess(l: Link.Link, ids: seq<AskId>, some: seq<AskId>)
    requires Listening(l, ids) && forall a :: a in some ==> a in ids
    ensures Listening(l, some)
  {
  }

  lemma AbortFirst(c: Link.Config, l: Link.Link, ids: seq<AskId>, order: seq<AskId>)
    requires LinkRuns.Inv(c, l) && Listening(l, ids) && ids != []
    requires forall a :: a in order || a in ids ==> a in l.promises
    ensures var m := LinkRuns.Run(c, l, [LinkRuns.AbortFires(ids[0]), LinkRuns.JoinAborted(ids[0])]);
            && LinkRuns.Inv(c, m) && Onward(l, m, order) && Listening(m, ids[1..])
            && ids[0] in l.promises && m.promises == l.promises[ids[0] := Ended(l.promises[ids[0]])]
  {
    assert ids[0] in ids && forall a :: a in ids[1..] || a in [ids[0]] ==> a in ids;
    ListeningLess(l, ids, [ids[0]]);
    ListeningLess(l, ids, ids[1..]);
    AbortOne(c, l, ids[0], order);
    AbortOne(c, l, ids[0], ids[1..]);
  }

  lemma {:induction false} AbortsEnd(c: Link.Config, l: Link.Link, ids: seq<AskId>, order: seq<AskId>)
    requires LinkRuns.Inv(c, l) && Listening(l, ids)
    requires forall a :: a in order || a in ids ==> a in l.promises
    ensures var l' := LinkRuns.Run(c, l, Aborts(ids));
            LinkRuns.Inv(c, l') && Onward(l, l', order) && AllEnded(l, l', ids)
    decreases |ids|
  {
    if ids != [] {
      var two := [LinkRuns.AbortFires(ids[0]), LinkRuns.JoinAborted(ids[0])];
      var m := LinkRuns.Run(c, l, two);
      AbortFirst(c, l, ids, order);
      LinkRuns.RunSplits(c, l, two, Aborts(ids[1..]));
      assert forall a :: a in ids[1..] ==> a in ids;
      AbortsEnd(c, m, ids[1..], order);
      var n := LinkRuns.Run(c, m, Aborts(ids[1..]));
      OnwardTwice(l, m, n, order);
      AllEndedNext(l, m, n, ids);
    }
  }

  lemma AllEndedNext(l: Link.Link, m: Link.Link, n: Link.Link, ids: seq<AskId>)
    requires ids != [] && ids[0] in l.promises && m.promises == l.promises[ids[0] := Ended(l.promises[ids[0]])]
    requires AllEnded(m, n, ids[1..])
    ensures AllEnded(l, n, ids)
  {
    assert forall a :: a in ids <==> a == ids[0] || a in ids[1..];
  }

  // ---------- steps ----------

  lemma StartInv(s: Setup)
    requires ValidSetup(s)
    ensures RouteInv(s, Start(s))
  {
    LinkRuns.StartedInv(s.c, s.check, s.nonce);
  }

  /** The waits stand as the channel moves on. */
  lemma WaitsStand(b: Bridge.State, l: Link.Link, l': Link.Link, asks: map<WaitId, Made>, order: seq<AskId>)
    requires WaitsOn(b, l, asks) && OwnAsks(l, asks, order) && Onward(l, l', order)
    ensures WaitsOn(b, l', asks) && OwnAsks(l', asks, order)
    ensures AllSettled(l, order) ==> AllSettled(l', order)
  {
    forall id | id in b.results ensures WaitOk(b, l', asks, id) { assert WaitOk(b, l, asks, id); }
  }

  lemma ChannelKeeps(s: Setup, r: Route, x: LinkRuns.Event)
    requires RouteInv(s, r)
    ensures RouteInv(s, OnChannel(s, r, [x]))
  {
    ChannelRunsOn(s, r, [x]);
    assert [x][..0] == [] && LinkRuns.Run(s.c, r.link, [x]) == LinkRuns.Step(s.c, LinkRuns.Run(s.c, r.link, []), x);
    LinkRuns.StepKeeps(s.c, r.link, x);
    StepOnward(s.c, r.link, x, r.order);
    WaitsStand(r.bridge, r.link, LinkRuns.Step(s.c, r.link, x), r.asks, r.order);
  }

  /** With no DevTools waiter a page can change nothing about the waits. */
  lemma PageLeaves(world: Text, b: Bridge.State, p: BridgeRuns.Event)
    requires b.waiters == [] && !p.Awaits? && !p.OperatorAnswers? && !p.Detaches?
    ensures var b' := BridgeRuns.Step(true, world, b, p);
            b'.waiters == [] && b'.results == b.results && b'.asked == b.asked && b'.detached == b.detached
  {
  }

  lemma PageKeeps(s: Setup, r: Route, p: BridgeRuns.Event)
    requires RouteInv(s, r) && !p.Awaits? && !p.OperatorAnswers? && !p.Detaches?
    ensures RouteInv(s, OnBridge(s, r, p))
  {
    PageLeaves(s.world, r.bridge, p);
    SameWaits(r.bridge, BridgeRuns.Step(true, s.world, r.bridge, p), r.link, r.asks);
    BridgeMoves(s, r, p);
  }

  lemma SameWaits(b: Bridge.State, b': Bridge.State, l: Link.Link, asks: map<WaitId, Made>)
    requires WaitsOn(b, l, asks) && b'.results == b.results && b'.asked == b.asked
    ensures WaitsOn(b', l, asks)
  {
    forall id | id in b'.results ensures WaitOk(b', l, asks, id) { assert WaitOk(b, l, asks, id); }
  }

  lemma DetachLeaves(world: Text, b: Bridge.State)
    requires b.waiters == []
    ensures var b' := BridgeRuns.Step(true, world, b, BridgeRuns.Detaches);
            b'.waiters == [] && b'.results == b.results && b'.asked == b.asked && b'.detached
  {
  }

  lemma DetachKeeps(s: Setup, r: Route)
    requires RouteInv(s, r)
    ensures RouteInv(s, Step(s, r, Detaches)) && AllEnded(r.link, Step(s, r, Detaches).link, r.order)
  {
    var b := OnBridge(s, r, BridgeRuns.Detaches);
    BridgeRunsOn(s, r, BridgeRuns.Detaches);
    DetachLeaves(s.world, r.bridge);
    SameWaits(r.bridge, b.bridge, r.link, r.asks);
    ChannelRunsOn(s, b, Aborts(r.order));
    AbortsStand(s, r, b.bridge);
  }

  lemma AbortsStand(s: Setup, r: Route, b: Bridge.State)
    requires LinkRuns.Inv(s.c, r.link) && OwnAsks(r.link, r.asks, r.order) && WaitsOn(b, r.link, r.asks)
    ensures var l := LinkRuns.Run(s.c, r.link, Aborts(r.order));
            && LinkRuns.Inv(s.c, l) && WaitsOn(b, l, r.asks) && OwnAsks(l, r.asks, r.order)
            && AllSettled(l, r.order) && AllEnded(r.link, l, r.order)
  {
    AbortsEnd(s.c, r.link, r.order, r.order);
    WaitsStand(b, r.link, LinkRuns.Run(s.c, r.link, Aborts(r.order)), r.asks, r.order);
  }

  lemma DeliverKeeps(s: Setup, r: Route, id: WaitId)
    requires RouteInv(s, r) && Enabled(r, Delivers(id))
    ensures RouteInv(s, Step(s, r, Delivers(id)))
  {
    var x := r.link.promises[r.asks[id].ask].value;
    Delivered(s.world, r.bridge, r.link, r.asks, id, x);
    BridgeMoves(s, r, BridgeRuns.OperatorAnswers(id, x));
  }

  /** The bridge alone has gone on, and its waits hang on the same requests. */
  lemma BridgeMoves(s: Setup, r: Route, e: BridgeRuns.Event)
    requires RouteInv(s, r)
    requires var b := BridgeRuns.Step(true, s.world, r.bridge, e);
             WaitsOn(b, r.link, r.asks) && b.waiters == [] && b.detached == r.bridge.detached
    ensures RouteInv(s, OnBridge(s, r, e))
  {
    BridgeRunsOn(s, r, e);
  }

  lemma Delivered(world: Text, b: Bridge.State, l: Link.Link, asks: map<WaitId, Made>, id: WaitId, x: Link.Result)
    requires WaitsOn(b, l, asks) && id in b.asked && b.waiters == []
    requires id in asks && asks[id].ask in l.promises && l.promises[asks[id].ask] == Some(x)
    ensures var b' := BridgeRuns.Step(true, world, b, BridgeRuns.OperatorAnswers(id, x));
            WaitsOn(b', l, asks) && b'.waiters == [] && b'.detached == b.detached
  {
    AnsweredShape(b, id, x);
    WaitsDelivered(b, Bridge.OnAnswered(b, id, x), l, asks, id, x);
  }

  lemma AnsweredShape(b: Bridge.State, id: WaitId, x: Link.Result)
    requires id in b.asked
    ensures var b' := Bridge.OnAnswered(b, id, x);
            && b'.results == b.results[id := Some(Outcome(b.asked[id], x))]
            && b'.asked == b.asked - {id} && b'.waiters == b.waiters && b'.detached == b.detached
  {
  }

  lemma WaitsDelivered(b: Bridge.State, b': Bridge.State, l: Link.Link, asks: map<WaitId, Made>,
                       id: WaitId, x: Link.Result)
    requires WaitsOn(b, l, asks) && id in b.asked
    requires id in asks && asks[id].ask in l.promises && l.promises[asks[id].ask] == Some(x)
    requires b'.results == b.results[id := Some(Outcome(b.asked[id], x))] && b'.asked == b.asked - {id}
    ensures WaitsOn(b', l, asks)
  {
    forall k | k in b'.results ensures WaitOk(b', l, asks, k) {
      if k != id { assert WaitOk(b, l, asks, k); }
    }
  }

  // ---------- a wait that asks ----------

  lemma RefusedKeeps(s: Setup, r: Route, e: BridgeRuns.Event)
    requires RouteInv(s, r) && e.Awaits? && e.id !in r.bridge.results && (e.prompt.None? || r.bridge.detached)
    ensures RouteInv(s, OnBridge(s, r, e))
  {
    BridgeRunsOn(s, r, e);
    var b, b' := r.bridge, BridgeRuns.Step(true, s.world, r.bridge, e);
    var why := if b.detached then Bridge.Detached else Bridge.NoOperatorForm;
    assert b'.results == b.results[e.id := Some(Bridge.Failed(why))];
    assert b'.asked == b.asked && b'.waiters == [] && b'.detached == b.detached;
    forall k | k in b'.results ensures WaitOk(b', r.link, r.asks, k) {
      if k != e.id { assert WaitOk(b, r.link, r.asks, k); }
    }
  }

  /** The channel after the ask of this bridge: the promise is there, the prompt is known
      if at all as its own, and it listens. */
  lemma AskOnward(c: Link.Config, l: Link.Link, x: LinkRuns.Event, order: seq<AskId>)
    requires LinkRuns.Inv(c, l) && x.Asked? && LinkRuns.Enabled(l, x) && x.signal.LiveSignal?
    requires (forall a :: a in order ==> a in l.promises) && Listening(l, order)
    ensures var l' := LinkRuns.Step(c, l, x);
            && Onward(l, l', order) && Listening(l', order + [x.id]) && x.id in l'.promises
            && (x.id in l'.history.prompts ==> l'.history.prompts[x.id] == x.ask.prompt)
  {
    StepOnward(c, l, x, order);
    LinkHistory.StepGrows(c, l, x);
    LinkRuns.NewIsNowhere(l, x.id);
    assert x.id !in l.joins;
    ListeningOneMore(l, LinkRuns.Step(c, l, x), x, order);
  }

  lemma ListeningOneMore(l: Link.Link, l': Link.Link, x: LinkRuns.Event, order: seq<AskId>)
    requires LinkHistory.Waits(l, l', x) && x.Asked? && x.signal.LiveSignal?
    requires Listening(l', order) && x.id !in l.joins && forall p :: p in l.pending ==> p.id != x.id
    ensures Listening(l', order + [x.id])
  {
  }

  lemma AskedWaits(b: Bridge.State, b': Bridge.State, l: Link.Link, asks: map<WaitId, Made>, id: WaitId, m: Made)
    requires WaitsOn(b, l, asks) && id !in b.results && m.ask in l.promises
    requires forall k :: k in asks ==> asks[k].ask != m.ask
    requires b'.results == b.results[id := None] && b'.asked == b.asked[id := m.prompt]
    ensures WaitsOn(b', l, asks[id := m])
  {
    forall k | k in b'.results ensures WaitOk(b', l, asks[id := m], k) {
      if k != id { assert WaitOk(b, l, asks, k); }
    }
  }

  lemma AwaitKeeps(s: Setup, r: Route, e: Event)
    requires RouteInv(s, r) && e.Awaits? && Enabled(r, e)
    ensures RouteInv(s, Step(s, r, e))
  {
    var w := BridgeRuns.Awaits(e.id, e.name, e.timeoutMs, e.ticket, e.prompt);
    if e.prompt.None? || r.bridge.detached {
      RefusedKeeps(s, r, w);
    } else {
      var b, x := OnBridge(s, r, w), AskOf(e);
      BridgeRunsOn(s, r, w);
      ChannelRunsOn(s, b, [x]);
      assert [x][..0] == [] && LinkRuns.Run(s.c, r.link, [x]) == LinkRuns.Step(s.c, LinkRuns.Run(s.c, r.link, []), x);
      AwaitMade(s, r, e, b.bridge, LinkRuns.Step(s.c, r.link, x));
    }
  }

  lemma AwaitMade(s: Setup, r: Route, e: Event, b: Bridge.State, l: Link.Link)
    requires RouteInv(s, r) && e.Awaits? && Enabled(r, e) && e.prompt.Some? && !r.bridge.detached
    requires l == LinkRuns.Step(s.c, r.link, AskOf(e))
    requires b == Bridge.OnAwait(r.bridge, true, e.id, e.name, e.timeoutMs, e.ticket, e.prompt)
    ensures var asks := r.asks[e.id := Made(e.ask, e.prompt.value)];
            LinkRuns.Inv(s.c, l) && WaitsOn(b, l, asks) && OwnAsks(l, asks, r.order + [e.ask])
  {
    LinkRuns.StepKeeps(s.c, r.link, AskOf(e));
    AskOnward(s.c, r.link, AskOf(e), r.order);
    WaitsStand(r.bridge, r.link, l, r.asks, r.order);
    AskedWaits(r.bridge, b, l, r.asks, e.id, Made(e.ask, e.prompt.value));
    OwnOneMore(l, r.asks, r.order, e.id, Made(e.ask, e.prompt.value));
  }

  lemma OwnOneMore(l: Link.Link, asks: map<WaitId, Made>, order: seq<AskId>, id: WaitId, m: Made)
    requires OwnAsks(l, asks, order) && m.ask in l.promises && Listening(l, order + [m.ask])
    requires m.ask in l.history.prompts ==> l.history.prompts[m.ask] == m.prompt
    ensures OwnAsks(l, asks[id := m], order + [m.ask])
  {
  }

  lemma StepKeeps(s: Setup, r: Route, e: Event)
    requires RouteInv(s, r)
    ensures RouteInv(s, Step(s, r, e))
  {
    if Enabled(r, e) {
      match e
      case Awaits(_, _, _, _, _, _, _, _, _, _) => AwaitKeeps(s, r, e);
      case Delivers(id) => DeliverKeeps(s, r, id);
      case Detaches => DetachKeeps(s, r);
      case Channel(x) => ChannelKeeps(s, r, x);
      case Page(p) => PageKeeps(s, r, p);
    }
  }

  lemma {:induction false} RunInv(s: Setup, events: seq<Event>)
    requires ValidSetup(s)
    ensures RouteInv(s, Run(s, Start(s), events))
  {
    StartInv(s);
    if events != [] {
      RunInv(s, events[..|events| - 1]);
      StepKeeps(s, Run(s, Start(s), events[..|events| - 1]), events[|events| - 1]);
    }
  }

  // ---------- main results ----------

  /** The daemon sent this approve, naming the request behind `ask`, on a connection whose
      own fresh nonce it had answered, within the rules of that request's prompt. */
  predicate Approved(c: Link.Config, h: Link.History, ask: AskId, a: Link.Answer, r: Link.Reading, s: Bridge.Signal) {
    var root := LinkRuns.Root(h, ask);
    && Link.Settled(ask, Link.Answered(a)) in h.settled
    && r in h.readings && LinkRuns.Backs(h, root, a, r) && LinkRuns.Proved(c, h, r.conn.value)
    && LinkHistory.IsHeard(c, h, r)
    && Link.IdOf(r.fields) == root && DecisionOf(r.fields) == Some(Approve)
    && s.grant == a.grant && Guarantees.GrantAllowed(h.prompts[root], a)
  }

  /** A confirmation of true that a wait of the run ended in. */
  predicate SaysTrue(r: Route, id: WaitId, s: Bridge.Signal) {
    id in r.bridge.results && r.bridge.results[id] == Some(Bridge.Resolved(s)) && s.data == Bridge.Confirmed(true)
  }

  /** Only a page's prompt is ever answered for another. */
  lemma HooksStandAlone(s: Setup, r: Route, id: WaitId)
    requires RouteInv(s, r) && id in r.asks && Frames.ClassOf(r.asks[id].prompt).Hook?
    ensures LinkRuns.Root(r.link.history, r.asks[id].ask) == r.asks[id].ask
  {
    if r.asks[id].ask in r.link.history.joined { RepeatsArePages(r.link, r.asks[id].ask); }
  }

  lemma RepeatsArePages(l: Link.Link, ask: AskId)
    requires LinkRuns.KeyInv(l) && LinkRuns.JoinInv(l) && ask in l.history.joined
    ensures ask in l.history.prompts && Frames.ClassOf(l.history.prompts[ask]).Page?
  {
    assert LinkRuns.JoinOk(l.promises, l.history, ask);
  }

  lemma AnswerIsApproved(s: Setup, log: seq<LinkRuns.Event>, ask: AskId, a: Link.Answer, signal: Bridge.Signal)
    requires ValidSetup(s) && a.decision == Approve && signal.grant == a.grant
    requires Link.Settled(ask, Link.Answered(a))
             in LinkRuns.Run(s.c, LinkRuns.Started(s.check, s.nonce), log).history.settled
    ensures var h := LinkRuns.Run(s.c, LinkRuns.Started(s.check, s.nonce), log).history;
            exists x :: Approved(s.c, h, ask, a, x, signal)
  {
    Guarantees.NothingApprovesOnItsOwn(s.c, s.check, s.nonce, log, ask, a);
    var h := LinkRuns.Run(s.c, LinkRuns.Started(s.check, s.nonce), log).history;
    var x :| x in h.readings && LinkRuns.Backs(h, LinkRuns.Root(h, ask), a, x)
          && LinkRuns.Proved(s.c, h, x.conn.value) && LinkHistory.IsHeard(s.c, h, x)
          && DecisionOf(x.fields) == Some(a.decision)
          && Guarantees.GrantAllowed(h.prompts[LinkRuns.Root(h, ask)], a);
    assert Approved(s.c, h, ask, a, x, signal);
  }

  lemma AnswerIsSettled(l: Link.Link, ask: AskId)
    requires LinkRuns.SettledInv(l) && ask in l.promises && l.promises[ask].Some?
    ensures Link.Settled(ask, l.promises[ask].value) in l.history.settled
  {
  }

  /** A prompt is confirmed by an approve of it and by nothing else. */
  lemma ConfirmedIsApprove(prompt: Frames.Prompt, x: Link.Result, signal: Bridge.Signal)
    requires Outcome(prompt, x) == Bridge.Resolved(signal) && signal.data == Bridge.Confirmed(true)
    ensures x.Answered? && x.answer.decision == Approve && signal.grant == x.answer.grant
  {
  }

  /** What a wait that says true hangs on. */
  lemma TrueIsAnApprove(s: Setup, r: Route, id: WaitId, signal: Bridge.Signal) returns (a: Link.Answer)
    requires RouteInv(s, r) && SaysTrue(r, id, signal)
    ensures id in r.asks && Link.Settled(r.asks[id].ask, Link.Answered(a)) in r.link.history.settled
    ensures a.decision == Approve && signal.grant == a.grant
  {
    assert WaitOk(r.bridge, r.link, r.asks, id);
    var m := r.asks[id];
    var x := r.link.promises[m.ask].value;
    ConfirmedIsApprove(m.prompt, x, signal);
    AnswerIsSettled(r.link, m.ask);
    a := x.answer;
  }

  /** Over every run of the bridge and the channel together, a wait that ends in a
      confirmation of true hangs on a request it made itself, and for that very request,
      or for the page's prompt it repeats, the daemon sent an approve. A confirm hook is
      never answered by the answer to another. */
  lemma {:induction false} TrueMeansApproved(s: Setup, events: seq<Event>, id: WaitId, signal: Bridge.Signal)
    requires ValidSetup(s) && SaysTrue(Run(s, Start(s), events), id, signal)
    ensures var r := Run(s, Start(s), events);
            && id in r.asks
            && (exists a, x :: Approved(s.c, r.link.history, r.asks[id].ask, a, x, signal))
            && (Frames.ClassOf(r.asks[id].prompt).Hook? ==>
                  LinkRuns.Root(r.link.history, r.asks[id].ask) == r.asks[id].ask)
  {
    RunInv(s, events);
    var r := Run(s, Start(s), events);
    var a := TrueIsAnApprove(s, r, id, signal);
    AnswerIsApproved(s, r.log, r.asks[id].ask, a, signal);
    if Frames.ClassOf(r.asks[id].prompt).Hook? { HooksStandAlone(s, r, id); }
  }

  /** Two confirm hooks that both end in true were approved by two different answers, each
      naming its own request. */
  lemma {:induction false} TwoHooksTwoApprovals(
    s: Setup, events: seq<Event>, i: WaitId, j: WaitId, si: Bridge.Signal, sj: Bridge.Signal)
    requires ValidSetup(s) && i != j
    requires var r := Run(s, Start(s), events);
             && SaysTrue(r, i, si) && SaysTrue(r, j, sj)
             && i in r.asks && Frames.ClassOf(r.asks[i].prompt).Hook?
             && j in r.asks && Frames.ClassOf(r.asks[j].prompt).Hook?
    ensures var r := Run(s, Start(s), events);
            exists a, x, b, y :: Approved(s.c, r.link.history, r.asks[i].ask, a, x, si)
                                 && Approved(s.c, r.link.history, r.asks[j].ask, b, y, sj)
                                 && Link.IdOf(x.fields) == r.asks[i].ask && Link.IdOf(y.fields) == r.asks[j].ask
                                 && x != y
  {
    RunInv(s, events);
    TrueMeansApproved(s, events, i, si);
    TrueMeansApproved(s, events, j, sj);
    var r := Run(s, Start(s), events);
    var a, x :| Approved(s.c, r.link.history, r.asks[i].ask, a, x, si);
    var b, y :| Approved(s.c, r.link.history, r.asks[j].ask, b, y, sj);
    assert r.asks[i].ask != r.asks[j].ask;
  }

  /** A settled promise of this bridge's requests, and the request of a wait, stay. */
  lemma {:induction false} RequestsStay(s: Setup, r: Route, events: seq<Event>, id: WaitId)
    requires RouteInv(s, r) && id in r.asks && r.link.promises[r.asks[id].ask].Some?
    ensures var n := Run(s, r, events);
            && RouteInv(s, n) && id in n.asks && n.asks[id] == r.asks[id]
            && n.link.promises[n.asks[id].ask] == r.link.promises[r.asks[id].ask]
  {
    if events != [] {
      var front, e := events[..|events| - 1], events[|events| - 1];
      RequestsStay(s, r, front, id);
      StepKeeps(s, Run(s, r, front), e);
      StepStays(s, Run(s, r, front), e, id);
    }
  }

  lemma StepStays(s: Setup, r: Route, e: Event, id: WaitId)
    requires RouteInv(s, r) && id in r.asks && r.link.promises[r.asks[id].ask].Some?
    ensures var n := Step(s, r, e);
            && id in n.asks && n.asks[id] == r.asks[id] && n.asks[id].ask in n.link.promises
            && n.link.promises[n.asks[id].ask] == r.link.promises[r.asks[id].ask]
  {
    if Enabled(r, e) {
      match e
      case Awaits(_, _, _, _, _, _, _, _, _, _) => AwaitStays(s, r, e, id);
      case Delivers(_) =>
      case Detaches => DetachKeeps(s, r);
      case Channel(x) => OneEventStays(s, r, x, r.asks[id].ask);
      case Page(_) =>
    }
  }

  lemma AwaitStays(s: Setup, r: Route, e: Event, id: WaitId)
    requires RouteInv(s, r) && id in r.asks && r.link.promises[r.asks[id].ask].Some?
    requires e.Awaits? && Enabled(r, e)
    ensures var n := OnAwaits(s, r, e);
            && id in n.asks && n.asks[id] == r.asks[id] && n.asks[id].ask in n.link.promises
            && n.link.promises[n.asks[id].ask] == r.link.promises[r.asks[id].ask]
  {
    if e.prompt.Some? && !r.bridge.detached { OneEventStays(s, r, AskOf(e), r.asks[id].ask); }
  }

  lemma OneEventStays(s: Setup, r: Route, x: LinkRuns.Event, ask: AskId)
    requires RouteInv(s, r) && ask in r.link.promises && r.link.promises[ask].Some?
    ensures var l := LinkRuns.Run(s.c, r.link, [x]);
            ask in l.promises && l.promises[ask] == r.link.promises[ask]
  {
    assert [x][..0] == [] && LinkRuns.Run(s.c, r.link, [x]) == LinkRuns.Step(s.c, LinkRuns.Run(s.c, r.link, []), x);
    SettledOnward(s.c, r.link, x);
  }

  lemma {:induction false} RouteSplits(s: Setup, r: Route, a: seq<Event>, b: seq<Event>)
    ensures Run(s, r, a + b) == Run(s, Run(s, r, a), b)
  {
    if b == [] {
      assert a + b == a;
    } else {
      assert (a + b)[..|a + b| - 1] == a + b[..|b| - 1];
      RouteSplits(s, r, a, b[..|b| - 1]);
    }
  }

  /** Detaching ends every wait whose request was still open in failure, whatever comes
      after, an answer included; a request that had been answered keeps its answer. */
  lemma {:induction false} DetachEndsEveryWait(s: Setup, before: seq<Event>, after: seq<Event>, id: WaitId)
    requires ValidSetup(s) && id in Run(s, Start(s), before).asks
    ensures var r, n := Run(s, Start(s), before), Run(s, Start(s), before + [Detaches] + after);
            && r.asks[id].ask in r.link.promises && id in n.bridge.results
            && (n.bridge.results[id] == None ==> Enabled(n, Delivers(id)))
            && (r.link.promises[r.asks[id].ask].None? ==>
                  n.bridge.results[id] == None
                  || n.bridge.results[id] == Some(Bridge.Failed(Bridge.Operator(Link.Detached))))
            && (r.link.promises[r.asks[id].ask].Some? ==>
                  n.bridge.results[id] == None
                  || n.bridge.results[id] == Some(Outcome(r.asks[id].prompt, r.link.promises[r.asks[id].ask].value)))
  {
    RunInv(s, before);
    DetachedRun(s, before, after);
    AfterDetach(s, Run(s, Start(s), before), after, id);
  }

  lemma DetachedRun(s: Setup, before: seq<Event>, after: seq<Event>)
    ensures Run(s, Start(s), before + [Detaches] + after) == Run(s, Step(s, Run(s, Start(s), before), Detaches), after)
  {
    assert (before + [Detaches])[..|before|] == before;
    RouteSplits(s, Start(s), before + [Detaches], after);
  }

  lemma AfterDetach(s: Setup, r: Route, after: seq<Event>, id: WaitId)
    requires RouteInv(s, r) && id in r.asks
    ensures var n := Run(s, Step(s, r, Detaches), after);
            && r.asks[id].ask in r.link.promises && id in n.bridge.results
            && (n.bridge.results[id] == None ==> Enabled(n, Delivers(id)))
            && (n.bridge.results[id] == None || n.bridge.results[id]
                  == Some(Outcome(r.asks[id].prompt, Ended(r.link.promises[r.asks[id].ask]).value)))
  {
    DetachKeeps(s, r);
    var d := Step(s, r, Detaches);
    assert r.asks[id].ask in r.order;
    RequestsStay(s, d, after, id);
    var n := Run(s, d, after);
    assert id in n.bridge.results && WaitOk(n.bridge, n.link, n.asks, id);
  }
}

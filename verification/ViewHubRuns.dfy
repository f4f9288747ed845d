/** Runs of the live view hub, over any interleaving of the daemon's frames, sessions
    coming and going, disconnects, streams ending by themselves, and the awaits of every
    queued task; and the invariant that each event keeps.
    (src/helper/operator-view-hub.ts, `ViewHub`) */
module ViewHubRuns {
  import opened Json
  import opened ViewRules
  import VS = ViewStream
  import opened ViewHub

  datatype Event =
    | Registered(session: Session, source: Option<Source>)
    | Unregistered(session: Session)
    | StartFrame(f: Fields)
    | StopFrame(f: Fields)
    | Disconnected(reason: VS.StopReason)
    | StreamEnded(id: StreamId, reason: VS.StopReason)
    | LooseDone(id: StreamId)
    | Resumed(session: Session, ok: bool)

  /** Only a stream that was made can end, and only what is pending can return. */
  predicate Enabled(h: Hub, e: Event) {
    match e
    case StreamEnded(id, _) => id in h.infos
    case LooseDone(id) => id in h.loose && id in h.infos
    case Resumed(s, _) => Ready(h, s)
    case _ => true
  }

  // ---------- the invariant ----------

  predicate Owes(h: Hub, id: StreamId) { id in h.history.tells && h.history.tells[id] == Owed }

  /** A task is one its session's queue may hold, and only the head has begun. */
  ghost predicate TaskInv(h: Hub, s: Session, t: Task) {
    match t
    case Start(_, e) => e <= h.epoch
    case Restarting(_, e, _) => e <= h.epoch && s !in h.streams
    case Beginning(_, _, id) => id in h.infos && h.infos[id].session == s && id !in h.history.started
    case Failing(id) => id in h.infos && h.infos[id].stopped
    case Finishing(id, _) =>
      id in h.infos && h.infos[id].session == s && Owes(h, id) && id !in h.loose
    case _ => true
  }

  ghost predicate ChainsInv(h: Hub) {
    && (forall s :: s in h.chains ==> h.chains[s] != [] && TaskInv(h, s, h.chains[s][0]))
    && (forall s, i :: s in h.chains && 0 < i < |h.chains[s]| ==>
          h.chains[s][i].Queued() && TaskInv(h, s, h.chains[s][i]))
  }

  /** Made, and not stopped. */
  predicate Lives(infos: map<StreamId, Info>, id: StreamId) { id in infos && !infos[id].stopped }

  /** The map holds exactly the streams that were made and have not stopped, one
      a session, each made in the current epoch. */
  ghost predicate MapInv(h: Hub) {
    && h.infos.Keys == h.history.born.Keys == h.history.tells.Keys
    && (forall id :: id in h.infos ==> id < h.nextId)
    && (forall s :: s in h.streams ==>
          && h.streams[s] in h.infos
          && h.infos[h.streams[s]].session == s
          && !h.infos[h.streams[s]].stopped
          && h.history.born[h.streams[s]] == h.epoch)
    && (forall id {:trigger Lives(h.infos, id)} :: Lives(h.infos, id) ==>
          h.infos[id].session in h.streams && h.streams[h.infos[id].session] == id)
  }

  ghost predicate TellInv(h: Hub)
    requires h.infos.Keys == h.history.tells.Keys
  {
    && (forall id :: id in h.infos ==> (h.infos[id].stopped <==> h.history.tells[id] != Running))
    && (forall id :: id in h.loose ==> id in h.infos && h.history.tells[id] == Owed)
    && h.history.started <= h.infos.Keys
  }

  /** Frame `g` may follow frame `f`: nothing about a stream follows its
      `view.stopped`, and it is said to have started once. */
  predicate MayFollow(f: Frame, g: Frame) {
    && (f.Stopped? && f.stream.Some? ==>
          && !(g.Stopped? && g.stream == f.stream)
          && !(g.Started? && Some(g.id) == f.stream))
    && (f.Started? && g.Started? ==> f.id != g.id)
  }

  predicate Recorded(h: Hub, f: Frame) {
    && (f.Stopped? && f.stream.Some? ==>
          f.stream.value in h.history.tells && h.history.tells[f.stream.value] == Told)
    && (f.Started? ==> f.id in h.history.started)
  }

  /** A `view.started` once at the most, then a `view.stopped` once at the most. */
  ghost predicate OrderedWire(w: seq<Frame>) {
    forall i, j :: 0 <= i < j < |w| ==> MayFollow(w[i], w[j])
  }

  ghost predicate WireInv(h: Hub) {
    && (forall f :: f in h.history.wire ==> Recorded(h, f))
    && OrderedWire(h.history.wire)
  }

  ghost predicate Inv(h: Hub) { MapInv(h) && TellInv(h) && ChainsInv(h) && WireInv(h) }

  lemma InvMakesReady(h: Hub, s: Session)
    requires Inv(h) && s in h.chains
    ensures MapHoldsRunning(h) && Ready(h, s)
  {
  }

  /** An event that cannot happen now changes nothing. */
  function Step(h: Hub, e: Event): Hub {
    if !Enabled(h, e) then h
    else match e
      case Registered(s, source) => Register(h, s, source)
      case Unregistered(s) => Unregister(h, s)
      case StartFrame(f) => OnViewStart(h, f)
      case StopFrame(f) => OnViewStop(h, f)
      case Disconnected(reason) => StopAll(h, reason)
      case StreamEnded(id, reason) => FinishLoose(h, id, reason)
      case LooseDone(id) => LooseReturned(h, id)
      case Resumed(s, ok) => Resume(h, s, ok)
  }

  // ---------- what each piece of a step keeps ----------

  /** Tasks that stay in place stay well-formed. */
  lemma ChainsStay(h: Hub, h': Hub)
    requires ChainsInv(h) && h'.chains == h.chains
    requires forall s, t :: TaskInv(h, s, t) ==> TaskInv(h', s, t)
    ensures ChainsInv(h')
  {
  }

  lemma WireStays(h: Hub, h': Hub)
    requires WireInv(h) && h'.history.wire == h.history.wire
    requires h.history.started <= h'.history.started
    requires forall id :: id in h.history.tells && h.history.tells[id] == Told ==>
               id in h'.history.tells && h'.history.tells[id] == Told
    ensures WireInv(h')
  {
  }

  lemma EnqueueKeeps(h: Hub, s: Session, t: Task)
    requires Inv(h) && t.Queued() && TaskInv(h, s, t)
    ensures Inv(Enqueue(h, s, t))
  {
  }

  lemma FrameKeeps(h: Hub, f: Frame)
    requires Inv(h) && !f.Started? && (f.Stopped? ==> f.stream.None?)
    ensures Inv(Send(h, f))
  {
    var h' := Send(h, f);
    ChainsStay(h, h');
    forall g | g in h.history.wire ensures Recorded(h', g) { assert Recorded(h, g); }
    WireGrows(h, h', f);
  }

  lemma DequeueChains(h: Hub, s: Session)
    requires ChainsInv(h) && s in h.chains
    ensures ChainsInv(Dequeue(h, s))
  {
    var h' := Dequeue(h, s);
    forall u, t | TaskInv(h, u, t) ensures TaskInv(h', u, t) {}
    forall u, i | u in h'.chains && 0 <= i < |h'.chains[u]|
      ensures TaskInv(h', u, h'.chains[u][i]) && (i > 0 ==> h'.chains[u][i].Queued())
    {
      if u == s { assert h'.chains[u][i] == h.chains[u][i + 1]; }
    }
  }

  lemma DequeueKeeps(h: Hub, s: Session)
    requires Inv(h) && s in h.chains
    ensures Inv(Dequeue(h, s))
  {
    DequeueChains(h, s);
    WireStays(h, Dequeue(h, s));
  }

  lemma SuspendKeeps(h: Hub, s: Session, t: Task)
    requires Inv(h) && s in h.chains && TaskInv(h, s, t)
    ensures Inv(Suspend(h, s, t))
  {
    WireStays(h, Suspend(h, s, t));
  }

  /** A running stream marked stopped and taken out of the map. */
  function Ended(h: Hub, id: StreamId, tell: Tell): Hub
    requires id in h.infos
  {
    h.(streams := h.streams - {h.infos[id].session},
       infos := h.infos[id := h.infos[id].(stopped := true)],
       history := h.history.(tells := h.history.tells[id := tell]))
  }

  /** On a reachable hub `#finish` ends a running stream and nothing else. */
  lemma FinishShape(h: Hub, id: StreamId, tell: bool)
    requires MapInv(h) && id in h.infos
    ensures Finish(h, id, tell)
         == if h.infos[id].stopped then h else Ended(h, id, if tell then Owed else Silent)
  {
    if !h.infos[id].stopped { assert Lives(h.infos, id); }
  }

  lemma EndedMap(h: Hub, id: StreamId, tell: Tell)
    requires MapInv(h) && TellInv(h) && id in h.infos && !h.infos[id].stopped && tell != Running
    ensures MapInv(Ended(h, id, tell)) && TellInv(Ended(h, id, tell))
  {
    var h' := Ended(h, id, tell);
    assert Lives(h.infos, id);
    forall k | Lives(h'.infos, k)
      ensures h'.infos[k].session in h'.streams && h'.streams[h'.infos[k].session] == k
    {
      assert Lives(h.infos, k);
    }
  }

  lemma EndedTasks(h: Hub, id: StreamId, tell: Tell, s: Session, t: Task)
    requires MapInv(h) && TellInv(h) && id in h.infos && !h.infos[id].stopped && TaskInv(h, s, t)
    ensures TaskInv(Ended(h, id, tell), s, t)
  {
  }

  lemma EndedKeeps(h: Hub, id: StreamId, tell: Tell)
    requires Inv(h) && id in h.infos && !h.infos[id].stopped && tell != Running
    ensures Inv(Ended(h, id, tell))
  {
    var h' := Ended(h, id, tell);
    EndedMap(h, id, tell);
    forall s, t | TaskInv(h, s, t) ensures TaskInv(h', s, t) { EndedTasks(h, id, tell, s, t); }
    ChainsStay(h, h');
    WireStays(h, h');
  }

  /** Ending a stream, whoever ends it. */
  lemma FinishKeeps(h: Hub, id: StreamId, tell: bool)
    requires Inv(h) && id in h.infos
    ensures Inv(Finish(h, id, tell))
    ensures Finish(h, id, tell).infos[id].stopped
  {
    FinishShape(h, id, tell);
    if !h.infos[id].stopped { EndedKeeps(h, id, if tell then Owed else Silent); }
  }

  lemma LoosenKeeps(h: Hub, id: StreamId, reason: VS.StopReason)
    requires Inv(h) && id in h.infos && Owes(h, id)
    requires forall s, i :: s in h.chains && 0 <= i < |h.chains[s]| && h.chains[s][i].Finishing? ==>
               h.chains[s][i].id != id
    ensures Inv(h.(loose := h.loose[id := reason]))
  {
    var h' := h.(loose := h.loose[id := reason]);
    forall s, i | s in h.chains && 0 <= i < |h.chains[s]| ensures TaskInv(h', s, h'.chains[s][i]) {
      assert TaskInv(h, s, h.chains[s][i]);
    }
    WireStays(h, h');
  }

  /** Nobody is suspended on behalf of a stream that is still running. */
  lemma RunningIsUnowed(h: Hub, id: StreamId, s: Session, i: nat)
    requires Inv(h) && id in h.infos && !h.infos[id].stopped
    requires s in h.chains && i < |h.chains[s]| && h.chains[s][i].Finishing?
    ensures h.chains[s][i].id != id
  {
    assert TaskInv(h, s, h.chains[s][i]);
  }

  lemma FinishLooseKeeps(h: Hub, id: StreamId, reason: VS.StopReason)
    requires Inv(h) && id in h.infos
    ensures Inv(FinishLoose(h, id, reason))
  {
    FinishShape(h, id, true);
    if !h.infos[id].stopped {
      EndedKeeps(h, id, Owed);
      var f := Ended(h, id, Owed);
      forall s, i | s in f.chains && 0 <= i < |f.chains[s]| && f.chains[s][i].Finishing?
        ensures f.chains[s][i].id != id
      {
        RunningIsUnowed(h, id, s, i);
      }
      LoosenKeeps(f, id, reason);
    }
  }

  lemma StopAllMap(h: Hub, reason: VS.StopReason)
    requires MapInv(h) && TellInv(h)
    ensures MapHoldsRunning(h)
    ensures MapInv(StopAll(h, reason)) && TellInv(StopAll(h, reason))
  {
    var h' := StopAll(h, reason);
    forall k | Lives(h'.infos, k) ensures false {
      assert Lives(h.infos, k);
    }
  }

  lemma StopAllKeeps(h: Hub, reason: VS.StopReason)
    requires Inv(h)
    ensures MapHoldsRunning(h) && Inv(StopAll(h, reason))
  {
    StopAllMap(h, reason);
    var h' := StopAll(h, reason);
    forall id | id in h.infos && h.infos[id].stopped
      ensures id !in h.streams.Values && id in h'.infos && h'.history.tells[id] == h.history.tells[id]
    {
    }
    ChainsStay(h, h');
    WireStays(h, h');
  }

  lemma LaunchMap(h: Hub, s: Session, params: Params, source: Source)
    requires MapInv(h) && TellInv(h) && s in h.chains && h.chains[s] != [] && s !in h.streams
    ensures MapInv(Launch(h, s, params, source)) && TellInv(Launch(h, s, params, source))
  {
    var h' := Launch(h, s, params, source);
    forall k | Lives(h'.infos, k)
      ensures h'.infos[k].session in h'.streams && h'.streams[h'.infos[k].session] == k
    {
      if k != h.nextId { assert Lives(h.infos, k); }
    }
  }

  lemma LaunchTasks(h: Hub, s: Session, params: Params, source: Source, u: Session, t: Task)
    requires MapInv(h) && TellInv(h) && s in h.chains && h.chains[s] != [] && s !in h.streams
    requires TaskInv(h, u, t) && (u != s || t.Queued())
    ensures TaskInv(Launch(h, s, params, source), u, t)
  {
  }

  lemma LaunchKeeps(h: Hub, s: Session, params: Params, source: Source)
    requires Inv(h) && s in h.chains && s !in h.streams
    ensures Inv(Launch(h, s, params, source))
  {
    LaunchMap(h, s, params, source);
    var h' := Launch(h, s, params, source);
    forall u, i | u in h'.chains && 0 <= i < |h'.chains[u]|
      ensures TaskInv(h', u, h'.chains[u][i]) && (i > 0 ==> h'.chains[u][i].Queued())
    {
      if u != s || i > 0 {
        assert h'.chains[u][i] == h.chains[u][i];
        LaunchTasks(h, s, params, source, u, h.chains[u][i]);
      }
    }
    WireStays(h, h');
  }

  lemma WireGrows(h: Hub, h': Hub, f: Frame)
    requires WireInv(h) && h'.history.wire == h.history.wire + [f] && Recorded(h', f)
    requires forall g :: g in h.history.wire ==> MayFollow(g, f) && Recorded(h', g)
    ensures WireInv(h')
  {
    var w, w' := h.history.wire, h'.history.wire;
    forall i, j | 0 <= i < j < |w'| ensures MayFollow(w'[i], w'[j]) {
      if j == |w| { assert w[i] in w; }
    }
  }

  /** A stream that was owed its `view.stopped` and has now had it. */
  lemma ToldWire(h: Hub, id: StreamId, reason: VS.StopReason)
    requires MapInv(h) && TellInv(h) && WireInv(h) && id in h.infos && Owes(h, id)
    ensures WireInv(Tells(h, id, reason))
  {
    var f := Stopped(h.infos[id].session, reason, Some(id));
    var h' := Tells(h, id, reason);
    forall g | g in h.history.wire ensures MayFollow(g, f) && Recorded(h', g) {
      assert Recorded(h, g);
    }
    WireGrows(h, h', f);
  }

  /** Nobody is left who would tell the daemon about the stream. */
  predicate NobodyOwes(h: Hub, id: StreamId) {
    && id !in h.loose
    && forall s, i :: s in h.chains && 0 <= i < |h.chains[s]| && h.chains[s][i].Finishing? ==>
         h.chains[s][i].id != id
  }

  lemma ToldKeeps(h: Hub, id: StreamId, reason: VS.StopReason)
    requires Inv(h) && id in h.infos && Owes(h, id) && NobodyOwes(h, id)
    ensures Inv(Tells(h, id, reason))
  {
    var h' := Tells(h, id, reason);
    ToldWire(h, id, reason);
    forall s, i | s in h.chains && 0 <= i < |h.chains[s]| ensures TaskInv(h', s, h'.chains[s][i]) {
      assert TaskInv(h, s, h.chains[s][i]);
    }
  }

  lemma TellsKeeps(h: Hub, s: Session, id: StreamId, reason: VS.StopReason)
    requires Inv(h) && s in h.chains && h.chains[s][0] == Finishing(id, reason)
    ensures id in h.infos && Inv(Dequeue(Tells(h, id, reason), s))
  {
    assert TaskInv(h, s, h.chains[s][0]);
    var d := Dequeue(h, s);
    DequeueKeeps(h, s);
    forall u, i | u in d.chains && 0 <= i < |d.chains[u]|
      ensures d.chains[u][i].Finishing? ==> d.chains[u][i].id != id
    {
      assert TaskInv(d, u, d.chains[u][i]);
      if u == s { assert d.chains[s][i] == h.chains[s][i + 1]; }
    }
    ToldKeeps(d, id, reason);
    assert Dequeue(Tells(h, id, reason), s) == Tells(d, id, reason);
  }

  lemma LooseKeeps(h: Hub, id: StreamId)
    requires Inv(h) && id in h.loose
    ensures id in h.infos && Inv(LooseReturned(h, id))
  {
    var d := h.(loose := h.loose - {id});
    forall s, i | s in d.chains && 0 <= i < |d.chains[s]|
      ensures TaskInv(d, s, d.chains[s][i])
      ensures d.chains[s][i].Finishing? ==> d.chains[s][i].id != id
    {
      assert TaskInv(h, s, h.chains[s][i]);
    }
    WireStays(h, d);
    ToldKeeps(d, id, h.loose[id]);
  }

  // ---------- steps and runs ----------

  lemma StartKeeps(h: Hub, s: Session, params: Params, epoch: nat)
    requires Inv(h) && Ready(h, s) && h.chains[s][0] == Start(params, epoch)
    ensures Inv(RunStart(h, s, params, epoch))
  {
    if epoch != h.epoch {
      DequeueKeeps(h, s);
    } else if s !in h.sources {
      FrameKeeps(h, Refusal(UnknownSession, Some(s)));
      DequeueKeeps(Send(h, Refusal(UnknownSession, Some(s))), s);
    } else if h.sources[s].None? {
      FrameKeeps(h, Refusal(ViewUnsupported, Some(s)));
      DequeueKeeps(Send(h, Refusal(ViewUnsupported, Some(s))), s);
    } else if s in h.streams {
      FinishKeeps(h, h.streams[s], false);
      FinishShape(h, h.streams[s], false);
      SuspendKeeps(Finish(h, h.streams[s], false), s, Restarting(params, epoch, h.sources[s].value));
    } else if |h.streams| >= MAX_STREAMS {
      FrameKeeps(h, Refusal(ViewLimit, Some(s)));
      DequeueKeeps(Send(h, Refusal(ViewLimit, Some(s))), s);
    } else {
      LaunchKeeps(h, s, params, h.sources[s].value);
    }
  }

  lemma StartedKeeps(h: Hub, s: Session, params: Params, source: Source, id: StreamId)
    requires Inv(h) && s in h.chains && h.chains[s][0] == Beginning(params, source, id)
    requires id in h.infos && !h.infos[id].stopped && HasSource(h, s, source)
    ensures Inv(Begun(h, s, params, source, id, true))
  {
    assert TaskInv(h, s, h.chains[s][0]);
    DequeueKeeps(h, s);
    var d := Dequeue(h, s);
    var h' := Begun(h, s, params, source, id, true);
    forall u, i | u in d.chains && 0 <= i < |d.chains[u]| ensures TaskInv(h', u, d.chains[u][i]) {
      assert TaskInv(d, u, d.chains[u][i]);
      if u == s { assert d.chains[s][i] == h.chains[s][i + 1]; }
    }
    forall g | g in d.history.wire ensures MayFollow(g, Started(s, params, id)) && Recorded(h', g) {
      assert Recorded(d, g);
    }
    WireGrows(d, h', Started(s, params, id));
  }

  lemma BegunKeeps(h: Hub, s: Session, params: Params, source: Source, id: StreamId, ok: bool)
    requires Inv(h) && Ready(h, s) && h.chains[s][0] == Beginning(params, source, id)
    ensures Inv(Begun(h, s, params, source, id, ok))
  {
    assert TaskInv(h, s, h.chains[s][0]);
    if ok && h.infos[id].stopped {
      DequeueKeeps(h, s);
    } else if ok && HasSource(h, s, source) {
      StartedKeeps(h, s, params, source, id);
    } else {
      FinishKeeps(h, id, ok);
      FinishShape(h, id, ok);
      SuspendKeeps(Finish(h, id, ok), s, if ok then Finishing(id, VS.SessionClosed) else Failing(id));
    }
  }

  lemma StopKeeps(h: Hub, s: Session, reason: VS.StopReason, answer: bool)
    requires Inv(h) && Ready(h, s) && h.chains[s][0].Queued()
    ensures Inv(RunStop(h, s, reason, answer))
    ensures s !in RunStop(h, s, reason, answer).streams
  {
    if s in h.streams {
      var id := h.streams[s];
      FinishKeeps(h, id, true);
      FinishShape(h, id, true);
      assert id !in h.loose;
      SuspendKeeps(Finish(h, id, true), s, Finishing(id, reason));
    } else {
      if answer { FrameKeeps(h, Stopped(s, reason, None)); }
      DequeueKeeps(if answer then Send(h, Stopped(s, reason, None)) else h, s);
    }
  }

  lemma ResumeKeeps(h: Hub, s: Session, ok: bool)
    requires Inv(h) && Ready(h, s)
    ensures Inv(Resume(h, s, ok))
  {
    assert TaskInv(h, s, h.chains[s][0]);
    match h.chains[s][0]
    case Start(params, epoch) => StartKeeps(h, s, params, epoch);
    case Restarting(params, epoch, source) =>
      if epoch != h.epoch || !HasSource(h, s, source) {
        FrameKeeps(h, Refusal(UnknownSession, Some(s)));
        DequeueKeeps(Send(h, Refusal(UnknownSession, Some(s))), s);
      } else {
        LaunchKeeps(h, s, params, source);
      }
    case Beginning(params, source, id) => BegunKeeps(h, s, params, source, id, ok);
    case Failing(id) =>
      FrameKeeps(h, Refusal(ViewFailed, Some(s)));
      DequeueKeeps(Send(h, Refusal(ViewFailed, Some(s))), s);
    case Stop => StopKeeps(h, s, VS.Daemon, true);
    case Close => StopKeeps(h, s, VS.SessionClosed, false);
    case Finishing(id, reason) => TellsKeeps(h, s, id, reason);
  }

  lemma StepKeeps(h: Hub, e: Event)
    requires Inv(h)
    ensures Inv(Step(h, e))
  {
    if Enabled(h, e) {
      match e
      case Registered(s, source) => WireStays(h, Register(h, s, source));
      case Unregistered(s) =>
        WireStays(h, h.(sources := h.sources - {s}));
        EnqueueKeeps(h.(sources := h.sources - {s}), s, Close);
      case StartFrame(f) =>
        match ParseViewStart(f) {
          case Refused => FrameKeeps(h, Refusal(InvalidView, SessionOf(f)));
          case Accepted(s, params) => EnqueueKeeps(h, s, Start(params, h.epoch));
        }
      case StopFrame(f) => if SessionOf(f).Some? { EnqueueKeeps(h, SessionOf(f).value, Stop); }
      case Disconnected(reason) => StopAllKeeps(h, reason);
      case StreamEnded(id, reason) => FinishLooseKeeps(h, id, reason);
      case LooseDone(id) => LooseKeeps(h, id);
      case Resumed(s, ok) => InvMakesReady(h, s); ResumeKeeps(h, s, ok);
    }
  }

  function Run(h: Hub, events: seq<Event>): Hub {
    if events == [] then h else Step(Run(h, events[..|events| - 1]), events[|events| - 1])
  }

  lemma {:induction false} RunSplits(h: Hub, a: seq<Event>, b: seq<Event>)
    ensures Run(h, a + b) == Run(Run(h, a), b)
  {
    if b == [] {
      assert a + b == a;
    } else {
      assert (a + b)[..|a + b| - 1] == a + b[..|b| - 1];
      RunSplits(h, a, b[..|b| - 1]);
    }
  }

  lemma {:induction false} RunKeeps(h: Hub, events: seq<Event>)
    requires Inv(h)
    ensures Inv(Run(h, events))
  {
    if events != [] {
      RunKeeps(h, events[..|events| - 1]);
      StepKeeps(Run(h, events[..|events| - 1]), events[|events| - 1]);
    }
  }

  lemma ReachableInv(events: seq<Event>)
    ensures Inv(Run(EMPTY, events))
  {
    RunKeeps(EMPTY, events);
  }

  // ---------- what one resumed task touches ----------

  /** The step makes the stream of a restart whose await has returned. */
  predicate Relaunches(h: Hub, e: Event) {
    && e.Resumed? && e.session in h.chains && h.chains[e.session] != []
    && h.chains[e.session][0].Restarting?
    && h.chains[e.session][0].epoch == h.epoch
    && HasSource(h, e.session, h.chains[e.session][0].source)
  }

  /** The step makes a stream for a session that had none. */
  predicate LaunchesAnew(h: Hub, e: Event) {
    && e.Resumed? && e.session in h.chains && h.chains[e.session] != []
    && h.chains[e.session][0].Start?
    && h.chains[e.session][0].epoch == h.epoch
    && e.session in h.sources && h.sources[e.session].Some?
    && e.session !in h.streams && |h.streams| < MAX_STREAMS
  }

  function ChainOf(h: Hub, s: Session): seq<Task> { if s in h.chains then h.chains[s] else [] }

  /** One session's chain lost its head, or had it suspended at a later await. */
  ghost predicate HeadMoved(h: Hub, h': Hub, s: Session)
    requires s in h.chains && h.chains[s] != []
  {
    var head, rest, after := h.chains[s][0], h.chains[s][1..], ChainOf(h', s);
    && h'.epoch == h.epoch && h'.sources == h.sources
    && (forall u :: u != s ==> ChainOf(h', u) == ChainOf(h, u))
    && (after == rest
        || (&& |after| == |rest| + 1 && after[1..] == rest && !after[0].Queued()
            && (after[0].Restarting? ==> head.Start? && head.epoch == after[0].epoch && s in h.streams)))
  }

  lemma DequeueMoves(h: Hub, g: Hub, s: Session)
    requires s in h.chains && h.chains[s] != []
    requires g.chains == h.chains && g.epoch == h.epoch && g.sources == h.sources
    ensures HeadMoved(h, Dequeue(g, s), s) && Dequeue(g, s).streams == g.streams
  {
  }

  lemma SuspendMoves(h: Hub, g: Hub, s: Session, t: Task)
    requires s in h.chains && h.chains[s] != [] && !t.Queued()
    requires g.chains == h.chains && g.epoch == h.epoch && g.sources == h.sources
    requires t.Restarting? ==> h.chains[s][0].Start? && h.chains[s][0].epoch == t.epoch && s in h.streams
    ensures HeadMoved(h, Suspend(g, s, t), s) && Suspend(g, s, t).streams == g.streams
  {
    var after := [t] + h.chains[s][1..];
    assert ChainOf(Suspend(g, s, t), s) == after && after[1..] == h.chains[s][1..];
  }

  /** What a step does to the map: a launch adds its session, nothing else adds. */
  ghost predicate StreamsMoved(h: Hub, h': Hub, s: Session, launch: bool) {
    if launch then s !in h.streams && h'.streams.Keys == h.streams.Keys + {s}
    else h'.streams.Keys <= h.streams.Keys
  }

  lemma LaunchMoves(h: Hub, s: Session, params: Params, source: Source)
    requires s in h.chains && h.chains[s] != [] && s !in h.streams
    ensures HeadMoved(h, Launch(h, s, params, source), s)
    ensures StreamsMoved(h, Launch(h, s, params, source), s, true)
  {
    SuspendMoves(h, h, s, Beginning(params, source, h.nextId));
    var l, t := Launch(h, s, params, source), Suspend(h, s, Beginning(params, source, h.nextId));
    forall u ensures ChainOf(l, u) == ChainOf(t, u) {}
  }

  lemma StartMoves(h: Hub, s: Session, params: Params, epoch: nat)
    requires Inv(h) && Ready(h, s) && h.chains[s][0] == Start(params, epoch)
    ensures var h' := RunStart(h, s, params, epoch);
            HeadMoved(h, h', s) && StreamsMoved(h, h', s, LaunchesAnew(h, Resumed(s, true)))
  {
    if epoch != h.epoch {
      DequeueMoves(h, h, s);
    } else if s !in h.sources {
      DequeueMoves(h, Send(h, Refusal(UnknownSession, Some(s))), s);
    } else if h.sources[s].None? {
      DequeueMoves(h, Send(h, Refusal(ViewUnsupported, Some(s))), s);
    } else if s in h.streams {
      FinishShape(h, h.streams[s], false);
      SuspendMoves(h, Finish(h, h.streams[s], false), s, Restarting(params, epoch, h.sources[s].value));
    } else if |h.streams| >= MAX_STREAMS {
      DequeueMoves(h, Send(h, Refusal(ViewLimit, Some(s))), s);
    } else {
      LaunchMoves(h, s, params, h.sources[s].value);
    }
  }

  lemma BegunMoves(h: Hub, s: Session, params: Params, source: Source, id: StreamId, ok: bool)
    requires Inv(h) && Ready(h, s) && h.chains[s][0] == Beginning(params, source, id)
    ensures var h' := Begun(h, s, params, source, id, ok);
            HeadMoved(h, h', s) && StreamsMoved(h, h', s, false)
  {
    FinishShape(h, id, ok);
    if ok && h.infos[id].stopped {
      DequeueMoves(h, h, s);
    } else if ok && HasSource(h, s, source) {
      DequeueMoves(h, h, s);
      var d, h' := Dequeue(h, s), Begun(h, s, params, source, id, ok);
      forall u ensures ChainOf(h', u) == ChainOf(d, u) {}
    } else {
      SuspendMoves(h, Finish(h, id, ok), s, if ok then Finishing(id, VS.SessionClosed) else Failing(id));
    }
  }

  lemma StopMoves(h: Hub, s: Session, reason: VS.StopReason, answer: bool)
    requires Inv(h) && Ready(h, s) && h.chains[s][0].Queued()
    ensures var h' := RunStop(h, s, reason, answer);
            HeadMoved(h, h', s) && StreamsMoved(h, h', s, false)
  {
    if s in h.streams {
      FinishShape(h, h.streams[s], true);
      SuspendMoves(h, Finish(h, h.streams[s], true), s, Finishing(h.streams[s], reason));
    } else {
      DequeueMoves(h, if answer then Send(h, Stopped(s, reason, None)) else h, s);
    }
  }

  lemma ResumeMoves(h: Hub, s: Session, ok: bool)
    requires Inv(h) && Ready(h, s)
    ensures var h', e := Resume(h, s, ok), Resumed(s, ok);
            HeadMoved(h, h', s) && StreamsMoved(h, h', s, Relaunches(h, e) || LaunchesAnew(h, e))
  {
    assert TaskInv(h, s, h.chains[s][0]);
    match h.chains[s][0]
    case Start(params, epoch) => StartMoves(h, s, params, epoch);
    case Restarting(params, epoch, source) =>
      if epoch != h.epoch || !HasSource(h, s, source) {
        DequeueMoves(h, Send(h, Refusal(UnknownSession, Some(s))), s);
      } else {
        LaunchMoves(h, s, params, source);
      }
    case Beginning(params, source, id) => BegunMoves(h, s, params, source, id, ok);
    case Failing(id) => DequeueMoves(h, Send(h, Refusal(ViewFailed, Some(s))), s);
    case Stop => StopMoves(h, s, VS.Daemon, true);
    case Close => StopMoves(h, s, VS.SessionClosed, false);
    case Finishing(id, reason) => DequeueMoves(h, Tells(h, id, reason), s);
  }
}

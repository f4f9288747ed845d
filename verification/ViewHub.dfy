/** The live view hub: at most one stream a session, a queue of starts and stops
    per session, and an epoch that outdates every start queued before a
    disconnect. (src/helper/operator-view-hub.ts, `ViewHub`)

    Every `await` ends a step. A session's queue is a chain of tasks; its head is
    either still queued or suspended at the await its constructor names. */
module ViewHub {
  import opened Json
  import opened ViewRules
  import VS = ViewStream

  type Session = Text
  type Source = nat
  type StreamId = nat

  datatype Task =
    | Start(params: Params, epoch: nat)
    | Stop
    | Close
    | Restarting(params: Params, epoch: nat, source: Source)
    | Beginning(params: Params, source: Source, id: StreamId)
    | Failing(id: StreamId)
    | Finishing(id: StreamId, reason: VS.StopReason)
  {
    predicate Queued() { Start? || Stop? || Close? }
  }

  datatype Code = InvalidView | UnknownSession | ViewUnsupported | ViewLimit | ViewFailed

  /** A frame handed to the sink. The stream it is about is not on the wire. */
  datatype Frame =
    | Started(session: Session, params: ViewParams, id: StreamId)
    | Stopped(session: Session, reason: VS.StopReason, stream: Option<StreamId>)
    | Refusal(code: Code, to: Option<Session>)

  datatype Info = Info(session: Session, source: Source, stopped: bool)

  /** Whether the daemon is owed a `view.stopped` for a stream. */
  datatype Tell = Running | Owed | Told | Silent

  /** What an observer outside the hub has seen; `born` is each stream's epoch. */
  datatype History = History(
    born: map<StreamId, nat>, tells: map<StreamId, Tell>, started: set<StreamId>, wire: seq<Frame>)

  datatype Hub = Hub(
    sources: map<Session, Option<Source>>,
    streams: map<Session, StreamId>,
    infos: map<StreamId, Info>,
    chains: map<Session, seq<Task>>,
    loose: map<StreamId, VS.StopReason>,
    epoch: nat,
    nextId: StreamId,
    history: History)

  const EMPTY := Hub(map[], map[], map[], map[], map[], 0, 0, History(map[], map[], {}, []))

  // ---------- the steps as functions ----------

  function Send(h: Hub, f: Frame): Hub {
    h.(history := h.history.(wire := h.history.wire + [f]))
  }

  function Register(h: Hub, s: Session, source: Option<Source>): Hub {
    h.(sources := h.sources[s := source])
  }

  function Enqueue(h: Hub, s: Session, t: Task): Hub {
    h.(chains := h.chains[s := (if s in h.chains then h.chains[s] else []) + [t]])
  }

  function Unregister(h: Hub, s: Session): Hub {
    Enqueue(h.(sources := h.sources - {s}), s, Close)
  }

  function SessionOf(f: Fields): Option<Session> {
    if "session" in f && f["session"].Str? then Some(Prefix(f["session"].s, 128)) else None
  }

  function OnViewStart(h: Hub, f: Fields): Hub {
    match ParseViewStart(f)
    case Refused => Send(h, Refusal(InvalidView, SessionOf(f)))
    case Accepted(s, params) => Enqueue(h, s, Start(params, h.epoch))
  }

  function OnViewStop(h: Hub, f: Fields): Hub {
    match SessionOf(f)
    case None => h
    case Some(s) => Enqueue(h, s, Stop)
  }

  /** A stream leaves the map, if it is what the map holds for its session. */
  function Forget(h: Hub, id: StreamId): Hub
    requires id in h.infos
  {
    var s := h.infos[id].session;
    if s in h.streams && h.streams[s] == id then h.(streams := h.streams - {s}) else h
  }

  /** `end` on a stream: what it was owed is decided by who ends it. */
  function MarkStopped(h: Hub, id: StreamId, tell: Tell): Hub
    requires id in h.infos
  {
    if h.infos[id].stopped then h
    else h.(infos := h.infos[id := h.infos[id].(stopped := true)],
            history := h.history.(tells := h.history.tells[id := tell]))
  }

  /** `#finish` up to its await. */
  function Finish(h: Hub, id: StreamId, tell: bool): Hub
    requires id in h.infos
  {
    MarkStopped(Forget(h, id), id, if tell then Owed else Silent)
  }

  /** `void this.#finish(s, reason)`: the rest of it runs on its own. */
  function FinishLoose(h: Hub, id: StreamId, reason: VS.StopReason): Hub
    requires id in h.infos
  {
    if h.infos[id].stopped then Forget(h, id)
    else var f := Finish(h, id, true); f.(loose := f.loose[id := reason])
  }

  /** The daemon hears that a stream stopped. */
  function Tells(h: Hub, id: StreamId, reason: VS.StopReason): Hub
    requires id in h.infos
  {
    Send(h, Stopped(h.infos[id].session, reason, Some(id))).(
      history := History(h.history.born, h.history.tells[id := Told], h.history.started,
                         h.history.wire + [Stopped(h.infos[id].session, reason, Some(id))]))
  }

  function LooseReturned(h: Hub, id: StreamId): Hub
    requires id in h.loose && id in h.infos
  {
    Tells(h, id, h.loose[id]).(loose := h.loose - {id})
  }

  /** Every stream in the map is finished, and everything queued is out of date. */
  function StopAll(h: Hub, reason: VS.StopReason): Hub {
    var ids := h.streams.Values;
    h.(epoch := h.epoch + 1,
       streams := map[],
       infos := StopIn(h.infos, ids),
       loose := SetAll(h.loose, ids, reason),
       history := h.history.(tells := SetAll(h.history.tells, ids, Owed)))
  }

  function StopIn(infos: map<StreamId, Info>, ids: set<StreamId>): map<StreamId, Info> {
    map id | id in infos :: if id in ids then infos[id].(stopped := true) else infos[id]
  }

  function SetAll<T>(m: map<StreamId, T>, ids: set<StreamId>, t: T): map<StreamId, T> {
    map id | id in m.Keys + ids :: if id in ids then t else m[id]
  }

  /** Each stream in the map was made for its session and has not stopped. */
  ghost predicate MapHoldsRunning(h: Hub) {
    forall s :: s in h.streams ==>
      && h.streams[s] in h.infos
      && h.infos[h.streams[s]].session == s
      && !h.infos[h.streams[s]].stopped
  }

  /** The head of a chain settles and the next task takes its place. */
  function Dequeue(h: Hub, s: Session): Hub
    requires s in h.chains && h.chains[s] != []
  {
    if |h.chains[s]| == 1 then h.(chains := h.chains - {s})
    else h.(chains := h.chains[s := h.chains[s][1..]])
  }

  /** The head of a chain is suspended at its next await. */
  function Suspend(h: Hub, s: Session, t: Task): Hub
    requires s in h.chains && h.chains[s] != []
  {
    h.(chains := h.chains[s := [t] + h.chains[s][1..]])
  }

  function Launch(h: Hub, s: Session, params: Params, source: Source): Hub
    requires s in h.chains && h.chains[s] != []
  {
    var id := h.nextId;
    Suspend(h, s, Beginning(params, source, id)).(
      streams := h.streams[s := id],
      infos := h.infos[id := Info(s, source, false)],
      nextId := id + 1,
      history := h.history.(born := h.history.born[id := h.epoch],
                            tells := h.history.tells[id := Running]))
  }

  predicate HasSource(h: Hub, s: Session, source: Source) {
    s in h.sources && h.sources[s] == Some(source)
  }

  predicate Ready(h: Hub, s: Session) {
    && s in h.chains && h.chains[s] != []
    && match h.chains[s][0]
       case Beginning(_, _, id) => id in h.infos
       case Failing(id) => id in h.infos
       case Finishing(id, _) => id in h.infos
       case _ => s in h.streams ==> h.streams[s] in h.infos
  }

  /** The first segment of `#run`. */
  function RunStart(h: Hub, s: Session, params: Params, epoch: nat): Hub
    requires Ready(h, s) && h.chains[s][0].Start?
  {
    if epoch != h.epoch then Dequeue(h, s)
    else if s !in h.sources then Dequeue(Send(h, Refusal(UnknownSession, Some(s))), s)
    else match h.sources[s]
      case None => Dequeue(Send(h, Refusal(ViewUnsupported, Some(s))), s)
      case Some(source) =>
        if s !in h.streams then
          if |h.streams| >= MAX_STREAMS then Dequeue(Send(h, Refusal(ViewLimit, Some(s))), s)
          else Launch(h, s, params, source)
        else Suspend(Finish(h, h.streams[s], false), s, Restarting(params, epoch, source))
  }

  /** `begin` has settled. */
  function Begun(h: Hub, s: Session, params: Params, source: Source, id: StreamId, ok: bool): Hub
    requires Ready(h, s) && id in h.infos
  {
    if !ok then Suspend(Finish(h, id, false), s, Failing(id))
    else if h.infos[id].stopped then Dequeue(h, s)
    else if !HasSource(h, s, source) then Suspend(Finish(h, id, true), s, Finishing(id, VS.SessionClosed))
    else
      var d := Dequeue(h, s);
      d.(history := d.history.(started := d.history.started + {id},
                               wire := d.history.wire + [Started(s, params, id)]))
  }

  /** `#stop` and `unregister`: finish the session's stream, if there is one. */
  function RunStop(h: Hub, s: Session, reason: VS.StopReason, answer: bool): Hub
    requires Ready(h, s) && h.chains[s][0].Queued()
  {
    if s in h.streams then
      if h.infos[h.streams[s]].stopped then Dequeue(Forget(h, h.streams[s]), s)
      else Suspend(Finish(h, h.streams[s], true), s, Finishing(h.streams[s], reason))
    else if answer then Dequeue(Send(h, Stopped(s, reason, None)), s)
    else Dequeue(h, s)
  }

  /** The head of a session's chain runs to its next await, or to its end. */
  function Resume(h: Hub, s: Session, ok: bool): Hub
    requires Ready(h, s)
  {
    match h.chains[s][0]
    case Start(params, epoch) => RunStart(h, s, params, epoch)
    case Restarting(params, epoch, source) =>
      if epoch != h.epoch || !HasSource(h, s, source)
      then Dequeue(Send(h, Refusal(UnknownSession, Some(s))), s)
      else Launch(h, s, params, source)
    case Beginning(params, source, id) => Begun(h, s, params, source, id, ok)
    case Failing(id) => Dequeue(Send(h, Refusal(ViewFailed, Some(s))), s)
    case Stop => RunStop(h, s, VS.Daemon, true)
    case Close => RunStop(h, s, VS.SessionClosed, false)
    case Finishing(id, reason) => Dequeue(Tells(h, id, reason), s)
  }

  // ---------- the class ----------

  class HubObject {
    var sources: map<Session, Option<Source>>
    var streams: map<Session, StreamId>
    var infos: map<StreamId, Info>
    var chains: map<Session, seq<Task>>
    var loose: map<StreamId, VS.StopReason>
    var epoch: nat
    var nextId: StreamId
    ghost var history: History

    ghost function State(): Hub
      reads this
    {
      Hub(sources, streams, infos, chains, loose, epoch, nextId, history)
    }

    constructor ()
      ensures State() == EMPTY
    {
      sources, streams, infos, chains, loose := map[], map[], map[], map[], map[];
      epoch, nextId := 0, 0;
      history := History(map[], map[], {}, []);
    }

    method RegisterSource(s: Session, source: Option<Source>)
      modifies this
      ensures State() == Register(old(State()), s, source)
    {
      sources := sources[s := source];
    }

    method Serial(s: Session, t: Task)
      modifies this
      ensures State() == Enqueue(old(State()), s, t)
    {
      var prev := if s in chains then chains[s] else [];
      chains := chains[s := prev + [t]];
    }

    method UnregisterSource(s: Session)
      modifies this
      ensures State() == Unregister(old(State()), s)
    {
      sources := sources - {s};
      Serial(s, Close);
    }

    method ViewStart(f: Fields)
      modifies this
      ensures State() == OnViewStart(old(State()), f)
    {
      var check := ParseViewStart(f);
      if check.Refused? {
        history := history.(wire := history.wire + [Refusal(InvalidView, SessionOf(f))]);
      } else {
        Serial(check.session, Start(check.params, epoch));
      }
    }

    method ViewStop(f: Fields)
      modifies this
      ensures State() == OnViewStop(old(State()), f)
    {
      var s := SessionOf(f);
      if s.Some? {
        Serial(s.value, Stop);
      }
    }

    /** `#finish` up to its await; whether there was anything to end. */
    method FinishStream(id: StreamId, tell: bool) returns (ended: bool)
      requires id in infos
      modifies this
      ensures State() == Finish(old(State()), id, tell) && ended == !old(infos)[id].stopped
    {
      var s := infos[id].session;
      if s in streams && streams[s] == id {
        streams := streams - {s};
      }
      ended := !infos[id].stopped;
      if ended {
        infos := infos[id := infos[id].(stopped := true)];
        history := history.(tells := history.tells[id := if tell then Owed else Silent]);
      }
    }

    /** The stream's own end: its page closed, it stalled, or its source failed. */
    method StreamEnds(id: StreamId, reason: VS.StopReason)
      requires id in infos
      modifies this
      ensures State() == FinishLoose(old(State()), id, reason)
    {
      var ended := FinishStream(id, true);
      if ended {
        loose := loose[id := reason];
      }
    }

    method TellLoose(id: StreamId)
      requires id in loose && id in infos
      modifies this
      ensures State() == LooseReturned(old(State()), id)
    {
      var frame := Stopped(infos[id].session, loose[id], Some(id));
      history := history.(tells := history.tells[id := Told], wire := history.wire + [frame]);
      loose := loose - {id};
    }

    method Settle(s: Session)
      requires s in chains && chains[s] != []
      modifies this`chains
      ensures State() == Dequeue(old(State()), s)
    {
      if |chains[s]| == 1 {
        chains := chains - {s};
      } else {
        chains := chains[s := chains[s][1..]];
      }
    }

    method Await(s: Session, t: Task)
      requires s in chains && chains[s] != []
      modifies this`chains
      ensures State() == Suspend(old(State()), s, t)
    {
      chains := chains[s := [t] + chains[s][1..]];
    }

    method LaunchStream(s: Session, params: Params, source: Source)
      requires s in chains && chains[s] != []
      modifies this
      ensures State() == Launch(old(State()), s, params, source)
    {
      var id := nextId;
      nextId := nextId + 1;
      infos := infos[id := Info(s, source, false)];
      history := history.(born := history.born[id := epoch], tells := history.tells[id := Running]);
      streams := streams[s := id];
      Await(s, Beginning(params, source, id));
    }

    method RefuseTask(s: Session, code: Code)
      requires s in chains && chains[s] != []
      modifies this
      ensures State() == Dequeue(Send(old(State()), Refusal(code, Some(s))), s)
    {
      history := history.(wire := history.wire + [Refusal(code, Some(s))]);
      Settle(s);
    }

    method RunQueuedStart(s: Session, params: Params, startEpoch: nat)
      requires Ready(State(), s) && chains[s][0].Start?
      modifies this
      ensures State() == RunStart(old(State()), s, params, startEpoch)
    {
      if startEpoch != epoch {
        Settle(s);
      } else if s !in sources {
        RefuseTask(s, UnknownSession);
      } else if sources[s].None? {
        RefuseTask(s, ViewUnsupported);
      } else if s !in streams && |streams| >= MAX_STREAMS {
        RefuseTask(s, ViewLimit);
      } else if s in streams {
        var ended := FinishStream(streams[s], false);
        Await(s, Restarting(params, startEpoch, sources[s].value));
      } else {
        LaunchStream(s, params, sources[s].value);
      }
    }

    method BeginSettled(s: Session, params: Params, source: Source, id: StreamId, ok: bool)
      requires Ready(State(), s) && id in infos
      modifies this
      ensures State() == Begun(old(State()), s, params, source, id, ok)
    {
      if !ok {
        var ended := FinishStream(id, false);
        Await(s, Failing(id));
      } else if infos[id].stopped {
        Settle(s);
      } else if s !in sources || sources[s] != Some(source) {
        var ended := FinishStream(id, true);
        Await(s, Finishing(id, VS.SessionClosed));
      } else {
        Settle(s);
        history := history.(started := history.started + {id},
                            wire := history.wire + [Started(s, params, id)]);
      }
    }

    method RunQueuedStop(s: Session, reason: VS.StopReason, answer: bool)
      requires Ready(State(), s) && chains[s][0].Queued()
      modifies this
      ensures State() == RunStop(old(State()), s, reason, answer)
    {
      if s in streams {
        var id := streams[s];
        var ended := FinishStream(id, true);
        if ended { Await(s, Finishing(id, reason)); } else { Settle(s); }
      } else {
        if answer {
          history := history.(wire := history.wire + [Stopped(s, reason, None)]);
        }
        Settle(s);
      }
    }

    method ResumeChain(s: Session, ok: bool)
      requires Ready(State(), s)
      modifies this
      ensures State() == Resume(old(State()), s, ok)
    {
      match chains[s][0] {
        case Start(params, startEpoch) => RunQueuedStart(s, params, startEpoch);
        case Restarting(params, startEpoch, source) =>
          if startEpoch != epoch || s !in sources || sources[s] != Some(source) {
            RefuseTask(s, UnknownSession);
          } else {
            LaunchStream(s, params, source);
          }
        case Beginning(params, source, id) => BeginSettled(s, params, source, id, ok);
        case Failing(id) => RefuseTask(s, ViewFailed);
        case Stop => RunQueuedStop(s, VS.Daemon, true);
        case Close => RunQueuedStop(s, VS.SessionClosed, false);
        case Finishing(id, reason) =>
          history := history.(tells := history.tells[id := Told],
                              wire := history.wire + [Stopped(infos[id].session, reason, Some(id))]);
          Settle(s);
      }
    }

    method StopEveryStream(reason: VS.StopReason)
      requires MapHoldsRunning(State())
      modifies this
      ensures State() == StopAll(old(State()), reason)
    {
      epoch := epoch + 1;
      var all := streams;
      var todo := all.Keys;
      while todo != {}
        invariant PartlyStopped(old(State()), State(), todo, reason)
        decreases todo
      {
        var s :| s in todo;
        StopOneMore(old(State()), State(), todo, s, reason);
        StreamEnds(all[s], reason);
        todo := todo - {s};
      }
      AllStopped(old(State()), State(), reason);
    }
  }

  /** The streams a `stopAll` has reached when the sessions in `todo` are left. */
  ghost function Reached(h: Hub, todo: set<Session>): set<StreamId> {
    set s | s in h.streams.Keys - todo :: h.streams[s]
  }

  ghost predicate PartlyStopped(h: Hub, now: Hub, todo: set<Session>, reason: VS.StopReason) {
    var done := Reached(h, todo);
    && MapHoldsRunning(h)
    && todo <= h.streams.Keys
    && now.streams == (map s | s in todo :: h.streams[s])
    && now.sources == h.sources && now.chains == h.chains && now.nextId == h.nextId
    && now.epoch == h.epoch + 1
    && now.infos == StopIn(h.infos, done)
    && now.loose == SetAll(h.loose, done, reason)
    && now.history == h.history.(tells := SetAll(h.history.tells, done, Owed))
  }

  lemma SetOneMore<T>(m: map<StreamId, T>, ids: set<StreamId>, id: StreamId, t: T)
    ensures SetAll(m, ids + {id}, t) == SetAll(m, ids, t)[id := t]
  {
  }

  lemma StopInOneMore(infos: map<StreamId, Info>, ids: set<StreamId>, id: StreamId)
    requires id in infos
    ensures StopIn(infos, ids + {id}) == StopIn(infos, ids)[id := infos[id].(stopped := true)]
  {
  }

  lemma ReachOneMore(h: Hub, todo: set<Session>, s: Session)
    requires MapHoldsRunning(h) && todo <= h.streams.Keys && s in todo
    ensures h.streams[s] !in Reached(h, todo)
    ensures Reached(h, todo - {s}) == Reached(h, todo) + {h.streams[s]}
  {
    assert s in h.streams.Keys - (todo - {s});
  }

  lemma StopOneMore(h: Hub, now: Hub, todo: set<Session>, s: Session, reason: VS.StopReason)
    requires PartlyStopped(h, now, todo, reason) && s in todo
    ensures h.streams[s] in now.infos
    ensures PartlyStopped(h, FinishLoose(now, h.streams[s], reason), todo - {s}, reason)
  {
    var id := h.streams[s];
    ReachOneMore(h, todo, s);
    var done := Reached(h, todo);
    StopInOneMore(h.infos, done, id);
    SetOneMore(h.loose, done, id, reason);
    SetOneMore(h.history.tells, done, id, Owed);
    assert now.infos[id] == h.infos[id] && h.infos[id].session == s;
    var f := FinishLoose(now, id, reason);
    assert f.streams == (map u | u in todo - {s} :: h.streams[u]);
  }

  lemma AllStopped(h: Hub, now: Hub, reason: VS.StopReason)
    requires PartlyStopped(h, now, {}, reason)
    ensures now == StopAll(h, reason)
  {
    assert Reached(h, {}) == h.streams.Values;
    assert now.streams == map[];
  }
}

/** The limit on streams: in which runs of the hub it holds, and one in which it does
    not. (src/helper/operator-view-hub.ts:287-299) */
module ViewHubLimit {
  import opened Collections
  import opened Json
  import opened ViewRules
  import VS = ViewStream
  import opened ViewHub
  import opened ViewHubRuns

  lemma StreamsChange(h: Hub, e: Event)
    requires Inv(h)
    ensures var h' := Step(h, e);
            if Relaunches(h, e) || LaunchesAnew(h, e)
            then e.session !in h.streams && h'.streams.Keys == h.streams.Keys + {e.session}
            else h'.streams.Keys <= h.streams.Keys
  {
    if e.StreamEnded? && Enabled(h, e) { FinishShape(h, e.id, true); }
    if e.Resumed? && Enabled(h, e) {
      InvMakesReady(h, e.session);
      ResumeMoves(h, e.session, e.ok);
    }
  }

  /** A restart's second half does not look at the limit again. */
  predicate Overfills(h: Hub, e: Event) { Relaunches(h, e) && |h.streams| == MAX_STREAMS }

  lemma LimitStep(h: Hub, e: Event)
    requires Inv(h) && |h.streams| <= MAX_STREAMS
    ensures |Step(h, e).streams| <= MAX_STREAMS <==> !Overfills(h, e)
  {
    StreamsChange(h, e);
    var h' := Step(h, e);
    assert |h'.streams| == |h'.streams.Keys| && |h.streams| == |h.streams.Keys|;
    if !Relaunches(h, e) && !LaunchesAnew(h, e) { SubsetSize(h'.streams.Keys, h.streams.Keys); }
  }

  /** The limit holds at every point of the run. */
  ghost predicate AlwaysWithinLimit(events: seq<Event>)
  {
    |Run(EMPTY, events).streams| <= MAX_STREAMS
    && (events == [] || AlwaysWithinLimit(events[..|events| - 1]))
  }

  ghost predicate NeverOverfills(events: seq<Event>)
  {
    events == []
    || (NeverOverfills(events[..|events| - 1])
        && !Overfills(Run(EMPTY, events[..|events| - 1]), events[|events| - 1]))
  }

  /** The stream limit holds throughout a run exactly when no restart returns from
      its await to find the map full. */
  lemma {:induction false} LimitExactly(events: seq<Event>)
    ensures AlwaysWithinLimit(events) <==> NeverOverfills(events)
  {
    if events != [] {
      var front := events[..|events| - 1];
      ReachableInv(front);
      LimitExactly(front);
      if AlwaysWithinLimit(front) { LimitStep(Run(EMPTY, front), events[|events| - 1]); }
    }
  }

  /** Sessions whose restart waits for the old screencast to stop. */
  ghost function Waiting(h: Hub): set<Session> {
    set s | s in h.chains && h.chains[s] != [] && h.chains[s][0].Restarting?
            && h.chains[s][0].epoch == h.epoch
  }

  /** No session without a stream is started while a restart waits. */
  ghost predicate Calm(events: seq<Event>)
  {
    events == []
    || var h := Run(EMPTY, events[..|events| - 1]);
       && Calm(events[..|events| - 1])
       && (LaunchesAnew(h, events[|events| - 1]) ==> Waiting(h) == {})
  }

  /** A restart moves its session from the map to those waiting, and back. */
  lemma CommittedChange(h: Hub, e: Event)
    requires Inv(h)
    ensures var h' := Step(h, e);
            h'.streams.Keys + Waiting(h')
            <= h.streams.Keys + Waiting(h) + (if LaunchesAnew(h, e) then {e.session} else {})
  {
    StreamsChange(h, e);
    WaitingChange(h, e);
  }

  lemma WaitingChange(h: Hub, e: Event)
    requires Inv(h)
    ensures Waiting(Step(h, e)) <= h.streams.Keys + Waiting(h)
    ensures Relaunches(h, e) ==> e.session in Waiting(h)
  {
    if Enabled(h, e) {
      if e.Resumed? {
        ResumeMoves(h, e.session, e.ok);
        forall u | u in Waiting(Resume(h, e.session, e.ok)) ensures u in h.streams.Keys + Waiting(h) {
          ResumeWaiting(h, e.session, e.ok, u);
        }
      } else if e.Disconnected? {
        NobodyWaitsOnceDown(h, e.reason);
      } else {
        OthersKeepHeads(h, e);
        SameHeadsSameWaiting(h, Step(h, e));
      }
    }
  }

  lemma NobodyWaitsOnceDown(h: Hub, reason: VS.StopReason)
    requires Inv(h)
    ensures Waiting(StopAll(h, reason)) == {}
  {
    forall u | u in h.chains && h.chains[u][0].Restarting? ensures h.chains[u][0].epoch <= h.epoch {
      assert TaskInv(h, u, h.chains[u][0]);
    }
  }

  lemma SameHeadsSameWaiting(h: Hub, h': Hub)
    requires SameHeads(h, h')
    ensures Waiting(h') <= Waiting(h)
  {
  }

  /** Every chain's head is queued, or is what it was. */
  ghost predicate SameHeads(h: Hub, h': Hub) {
    && h'.epoch == h.epoch
    && forall u :: u in h'.chains && h'.chains[u] != [] ==>
         h'.chains[u][0].Queued() || (u in h.chains && h'.chains[u] != [] && h.chains[u] != []
                                      && h'.chains[u][0] == h.chains[u][0])
  }

  lemma EnqueueKeepsHeads(h: Hub, s: Session, t: Task)
    requires t.Queued()
    ensures SameHeads(h, Enqueue(h, s, t))
  {
  }

  lemma OthersKeepHeads(h: Hub, e: Event)
    requires Inv(h) && Enabled(h, e) && !e.Resumed? && !e.Disconnected?
    ensures SameHeads(h, Step(h, e))
  {
    match e
    case Registered(_, _) =>
    case Unregistered(s) => EnqueueKeepsHeads(h.(sources := h.sources - {s}), s, Close);
    case StartFrame(f) =>
      if ParseViewStart(f).Accepted? {
        EnqueueKeepsHeads(h, ParseViewStart(f).session, Start(ParseViewStart(f).params, h.epoch));
      }
    case StopFrame(f) => if SessionOf(f).Some? { EnqueueKeepsHeads(h, SessionOf(f).value, Stop); }
    case StreamEnded(id, _) => FinishShape(h, id, true);
    case LooseDone(_) =>
  }

  lemma ResumeWaiting(h: Hub, s: Session, ok: bool, u: Session)
    requires Inv(h) && Ready(h, s) && HeadMoved(h, Resume(h, s, ok), s) && u in Waiting(Resume(h, s, ok))
    ensures u in h.streams.Keys + Waiting(h)
  {
    var h' := Resume(h, s, ok);
    assert ChainOf(h', u) == h'.chains[u];
    if u != s {
      assert ChainOf(h, u) == h'.chains[u];
    } else {
      var rest := h.chains[s][1..];
      if |h.chains[s]| > 1 { assert rest[0] == h.chains[s][1] && h.chains[s][1].Queued(); }
    }
  }

  lemma CommittedStep(h: Hub, e: Event)
    requires Inv(h) && |h.streams.Keys + Waiting(h)| <= MAX_STREAMS
    requires LaunchesAnew(h, e) ==> Waiting(h) == {}
    ensures var h' := Step(h, e); |h'.streams.Keys + Waiting(h')| <= MAX_STREAMS
  {
    CommittedChange(h, e);
    var h' := Step(h, e);
    var now, was := h'.streams.Keys + Waiting(h'), h.streams.Keys + Waiting(h);
    if LaunchesAnew(h, e) {
      assert was == h.streams.Keys && |h.streams| == |h.streams.Keys|;
      SubsetSize(now, was + {e.session});
    } else {
      SubsetSize(now, was);
    }
  }

  /** In a run that starts no new session while a restart waits, the streams that
      run and the restarts that wait are four at the most. */
  lemma {:induction false} LimitWhenCalm(events: seq<Event>)
    requires Calm(events)
    ensures var h := Run(EMPTY, events);
            && |h.streams.Keys + Waiting(h)| <= MAX_STREAMS
            && |h.streams.Keys| <= MAX_STREAMS
  {
    if events != [] {
      var front := events[..|events| - 1];
      ReachableInv(front);
      LimitWhenCalm(front);
      CommittedStep(Run(EMPTY, front), events[|events| - 1]);
    } else {
      assert EMPTY.streams.Keys + Waiting(EMPTY) == {};
    }
    var h := Run(EMPTY, events);
    SubsetSize(h.streams.Keys, h.streams.Keys + Waiting(h));
  }

  // ---------- a run over the limit ----------

  /** Some run of the hub ends in this state. */
  ghost predicate Reachable(h: Hub) { exists events :: Run(EMPTY, events) == h }

  lemma ReachStep(h: Hub, e: Event)
    requires Reachable(h)
    ensures Inv(h) && Reachable(Step(h, e))
  {
    var events :| Run(EMPTY, events) == h;
    ReachableInv(events);
    assert (events + [e])[..|events|] == events;
    assert Run(EMPTY, events + [e]) == Step(h, e);
  }

  function AskFor(s: Session): Fields { map["session" := Str(s)] }

  /** A session with a source and nothing queued. */
  predicate Idle(h: Hub, s: Session) {
    0 < |s| <= MAX_SESSION_CHARS && s in h.sources && h.sources[s] == Some(0) && s !in h.chains
  }

  lemma AskingQueues(h: Hub, s: Session) returns (h': Hub)
    requires Reachable(h) && Idle(h, s)
    ensures Reachable(h') && h' == h.(chains := h.chains[s := [Start(DEFAULTS, h.epoch)]])
  {
    ReachStep(h, StartFrame(AskFor(s)));
    h' := Step(h, StartFrame(AskFor(s)));
    assert Round(960.0) == 960;
    assert ParseViewStart(AskFor(s)) == Accepted(s, DEFAULTS);
    assert [] + [Start(DEFAULTS, h.epoch)] == [Start(DEFAULTS, h.epoch)];
  }

  lemma QueuedStartLaunches(h: Hub, s: Session) returns (h': Hub)
    requires Reachable(h) && s in h.chains && h.chains[s] == [Start(DEFAULTS, h.epoch)]
    requires s in h.sources && h.sources[s] == Some(0)
    requires s !in h.streams && |h.streams.Keys| < MAX_STREAMS
    ensures Reachable(h')
    ensures h'.streams.Keys == h.streams.Keys + {s}
    ensures h'.chains == h.chains[s := [Beginning(DEFAULTS, 0, h.nextId)]]
    ensures h'.sources == h.sources && h'.epoch == h.epoch
    ensures h.nextId in h'.infos && !h'.infos[h.nextId].stopped
  {
    ReachStep(h, Resumed(s, true));
    assert |h.streams| == |h.streams.Keys|;
    h' := Launch(h, s, DEFAULTS, 0);
    InvMakesReady(h, s);
    assert h' == Step(h, Resumed(s, true));
    var t := Beginning(DEFAULTS, 0, h.nextId);
    assert [t] + h.chains[s][1..] == [t];
  }

  lemma BegunIsDone(h: Hub, s: Session, id: StreamId) returns (h': Hub)
    requires Reachable(h) && s in h.chains && h.chains[s] == [Beginning(DEFAULTS, 0, id)]
    requires s in h.sources && h.sources[s] == Some(0) && id in h.infos && !h.infos[id].stopped
    ensures Reachable(h')
    ensures h'.streams == h.streams && h'.chains == h.chains - {s}
    ensures h'.sources == h.sources && h'.epoch == h.epoch
  {
    ReachStep(h, Resumed(s, true));
    h' := Begun(h, s, DEFAULTS, 0, id, true);
    InvMakesReady(h, s);
    assert h' == Step(h, Resumed(s, true));
  }

  lemma QueuedStartRestarts(h: Hub, s: Session) returns (h': Hub)
    requires Reachable(h) && s in h.chains && h.chains[s] == [Start(DEFAULTS, h.epoch)]
    requires s in h.sources && h.sources[s] == Some(0) && s in h.streams
    ensures Reachable(h')
    ensures h'.streams.Keys == h.streams.Keys - {s}
    ensures h'.chains == h.chains[s := [Restarting(DEFAULTS, h.epoch, 0)]]
    ensures h'.sources == h.sources && h'.epoch == h.epoch
  {
    ReachStep(h, Resumed(s, true));
    InvMakesReady(h, s);
    FinishShape(h, h.streams[s], false);
    h' := Step(h, Resumed(s, true));
    var t := Restarting(DEFAULTS, h.epoch, 0);
    assert [t] + h.chains[s][1..] == [t];
  }

  lemma RestartReturns(h: Hub, s: Session) returns (h': Hub)
    requires Reachable(h) && s in h.chains && h.chains[s] == [Restarting(DEFAULTS, h.epoch, 0)]
    requires s in h.sources && h.sources[s] == Some(0) && s !in h.streams
    ensures Reachable(h') && h'.streams.Keys == h.streams.Keys + {s}
  {
    ReachStep(h, Resumed(s, true));
    h' := Launch(h, s, DEFAULTS, 0);
    InvMakesReady(h, s);
    assert h' == Step(h, Resumed(s, true));
  }

  /** A `view.start` for an idle session, queued and then run. */
  lemma StartRuns(h: Hub, s: Session) returns (h': Hub)
    requires Reachable(h) && Idle(h, s) && s !in h.streams && |h.streams.Keys| < MAX_STREAMS
    ensures Reachable(h')
    ensures h'.streams.Keys == h.streams.Keys + {s}
    ensures h'.chains == h.chains && h'.sources == h.sources && h'.epoch == h.epoch
  {
    h' := AskingQueues(h, s);
    var id := h'.nextId;
    h' := QueuedStartLaunches(h', s);
    h' := BegunIsDone(h', s, id);
  }

  /** Sources for every session named by one code unit below `n`. */
  lemma {:induction false} SourcesRegister(n: nat) returns (h: Hub)
    requires n < 0x1_0000
    ensures Reachable(h) && h.chains == map[] && h.streams == map[]
    ensures forall k: Unit :: k < n ==> Idle(h, [k])
  {
    if n == 0 {
      h := EMPTY;
      assert Run(EMPTY, []) == EMPTY;
    } else {
      var g := SourcesRegister(n - 1);
      ReachStep(g, Registered([n - 1], Some(0)));
      h := Step(g, Registered([n - 1], Some(0)));
    }
  }

  /** Streams for the first `n` sessions, one after the other. */
  lemma {:induction false} StreamsRun(n: nat) returns (h: Hub)
    requires n <= MAX_STREAMS
    ensures Reachable(h) && h.chains == map[] && |h.streams.Keys| == n
    ensures forall k: Unit :: k < 5 ==> Idle(h, [k])
    ensures forall k: Unit :: k < 5 ==> ([k] in h.streams <==> k < n)
  {
    if n == 0 {
      h := SourcesRegister(5);
    } else {
      var g := StreamsRun(n - 1);
      h := StartRuns(g, [n - 1]);
    }
  }

  /** Four streams; one is restarted, and while it waits for its old screencast to
      stop a fifth session starts. When the restart returns, five streams run. */
  lemma LimitCanBeExceeded() returns (h: Hub)
    ensures Reachable(h) && |h.streams.Keys| == MAX_STREAMS + 1
  {
    var first: Session, fifth: Session := [0], [4];
    assert first != fifth;
    h := StreamsRun(MAX_STREAMS);
    h := AskingQueues(h, first);
    h := QueuedStartRestarts(h, first);
    h := StartRuns(h, fifth);
    h := RestartReturns(h, first);
  }
}

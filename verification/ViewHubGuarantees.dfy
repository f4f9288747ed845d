/** What the live view hub promises, over every run: which streams there are, what the
    daemon hears, and that nothing survives a stop or a disconnect.
    (src/helper/operator-view-hub.ts) */
module ViewHubGuarantees {
  import opened Json
  import opened ViewRules
  import VS = ViewStream
  import opened ViewHub
  import opened ViewHubLimit
  import opened ViewHubRuns

  /** In every reachable hub a stream is in the map exactly when it was made and
      has not stopped; there is one a session; each carries the current epoch. */
  lemma {:induction false} MapIsTheRunningStreams(events: seq<Event>)
    ensures var h := Run(EMPTY, events);
            && (forall id :: id in h.streams.Values <==> Lives(h.infos, id))
            && (forall s, u :: s in h.streams && u in h.streams && h.streams[s] == h.streams[u] ==> s == u)
            && (forall s :: s in h.streams ==>
                  && h.streams[s] in h.infos && h.infos[h.streams[s]].session == s
                  && h.streams[s] in h.history.born && h.history.born[h.streams[s]] == h.epoch)
  {
    ReachableInv(events);
    var h := Run(EMPTY, events);
    forall s | s in h.streams ensures Lives(h.infos, h.streams[s]) {}
    forall s, u | s in h.streams && u in h.streams && h.streams[s] == h.streams[u] ensures s == u {
      assert h.infos[h.streams[s]].session == s;
    }
  }

  /** The daemon hears of each stream's start at most once, of its stop at most
      once, and nothing of it after its stop. */
  lemma {:induction false} DaemonHearsInOrder(events: seq<Event>)
    ensures OrderedWire(Run(EMPTY, events).history.wire)
  {
    ReachableInv(events);
  }

  /** A queued `view.stop`, or a closing session, that comes to run leaves the
      session without a stream. */
  lemma {:induction false} StopLeavesNothing(h: Hub, s: Session, ok: bool)
    requires Inv(h) && s in h.chains && (h.chains[s][0].Stop? || h.chains[s][0].Close?)
    ensures s !in Step(h, Resumed(s, ok)).streams
  {
    InvMakesReady(h, s);
    StopKeeps(h, s, if h.chains[s][0].Stop? then VS.Daemon else VS.SessionClosed, h.chains[s][0].Stop?);
  }

  predicate Registers(e: Event, s: Session) { e.Registered? && e.session == s }

  /** No source to start from, and no stream. */
  predicate Gone(h: Hub, s: Session) { s !in h.sources && s !in h.streams }

  /** No source to start from, and a `Close` still to come that ends any stream. */
  predicate Closing(h: Hub, s: Session) { s !in h.sources && Close in ChainOf(h, s) }

  lemma SourceStaysAway(h: Hub, s: Session, e: Event)
    requires Inv(h) && s !in h.sources && !Registers(e, s)
    ensures s !in Step(h, e).sources
  {
    if Enabled(h, e) {
      match e
      case Resumed(u, ok) => InvMakesReady(h, u); ResumeMoves(h, u, ok);
      case StreamEnded(id, _) => FinishShape(h, id, true);
      case _ =>
    }
  }

  /** Whatever starts are queued or half begun, none can make a stream. */
  lemma StaysGone(h: Hub, s: Session, e: Event)
    requires Inv(h) && Gone(h, s) && !Registers(e, s)
    ensures Gone(Step(h, e), s)
  {
    SourceStaysAway(h, s, e);
    StreamsChange(h, e);
  }

  /** A step that does not take a task off the head of the session's chain. */
  lemma CloseStaysQueued(h: Hub, s: Session, e: Event)
    requires Inv(h) && Close in ChainOf(h, s)
    requires !(e.Resumed? && e.session == s)
    ensures Close in ChainOf(Step(h, e), s)
  {
    if Enabled(h, e) {
      match e
      case Resumed(u, ok) => InvMakesReady(h, u); ResumeMoves(h, u, ok);
      case StreamEnded(id, _) => FinishShape(h, id, true);
      case _ =>
    }
  }

  lemma CloseComes(h: Hub, s: Session, ok: bool)
    requires Inv(h) && Closing(h, s)
    ensures var h' := Step(h, Resumed(s, ok)); Closing(h', s) || Gone(h', s)
  {
    InvMakesReady(h, s);
    SourceStaysAway(h, s, Resumed(s, ok));
    if h.chains[s][0].Close? {
      StopLeavesNothing(h, s, ok);
    } else {
      ResumeMoves(h, s, ok);
      assert Close in h.chains[s][1..];
    }
  }

  lemma ClosingOrGone(h: Hub, s: Session, e: Event)
    requires Inv(h) && (Closing(h, s) || Gone(h, s)) && !Registers(e, s)
    ensures Closing(Step(h, e), s) || Gone(Step(h, e), s)
  {
    if Gone(h, s) {
      StaysGone(h, s, e);
    } else if e.Resumed? && e.session == s {
      CloseComes(h, s, e.ok);
    } else {
      SourceStaysAway(h, s, e);
      CloseStaysQueued(h, s, e);
    }
  }

  /** The session is not registered during these events. */
  predicate StaysUnregistered(events: seq<Event>, s: Session) {
    forall i :: 0 <= i < |events| ==> !Registers(events[i], s)
  }

  lemma {:induction false} ClosingOrGoneRun(h: Hub, s: Session, events: seq<Event>)
    requires Inv(h) && (Closing(h, s) || Gone(h, s)) && StaysUnregistered(events, s)
    ensures var h' := Run(h, events);
            Inv(h') && (Closing(h', s) || Gone(h', s)) && (Gone(h, s) ==> Gone(h', s))
  {
    if events != [] {
      var front := events[..|events| - 1];
      ClosingOrGoneRun(h, s, front);
      StepKeeps(Run(h, front), events[|events| - 1]);
      ClosingOrGone(Run(h, front), s, events[|events| - 1]);
      if Gone(h, s) { StaysGone(Run(h, front), s, events[|events| - 1]); }
    }
  }

  /** From the moment a session is unregistered until it is registered again: a stream
      it still has, or is about to have, has a `Close` queued behind it; and once a
      `Close` of the session has run, the session has no stream in any later state. */
  lemma {:induction false} ClosedSessionsHaveNoStream(
      before: seq<Event>, s: Session, meanwhile: seq<Event>, ok: bool, after: seq<Event>)
    requires StaysUnregistered(meanwhile, s) && StaysUnregistered(after, s)
    ensures var h := Run(Step(Run(EMPTY, before), Unregistered(s)), meanwhile);
            && (s in h.streams ==> Close in ChainOf(h, s))
            && (s in h.chains && h.chains[s] != [] && h.chains[s][0] == Close ==>
                  s !in Run(Step(h, Resumed(s, ok)), after).streams)
  {
    ReachableInv(before);
    var h0 := Run(EMPTY, before);
    StepKeeps(h0, Unregistered(s));
    var h1 := Step(h0, Unregistered(s));
    assert Closing(h1, s);
    ClosingOrGoneRun(h1, s, meanwhile);
    var h := Run(h1, meanwhile);
    if s in h.chains && h.chains[s][0] == Close {
      StepKeeps(h, Resumed(s, ok));
      StopLeavesNothing(h, s, ok);
      SourceStaysAway(h, s, Resumed(s, ok));
      ClosingOrGoneRun(Step(h, Resumed(s, ok)), s, after);
    }
  }

  /** A start that the epoch has left behind, or no start at all. */
  predicate Outdated(h: Hub, t: Task) {
    match t
    case Start(_, e) => e < h.epoch
    case Restarting(_, e, _) => e < h.epoch
    case _ => true
  }

  /** No stream runs, and no start on its way can still make one. */
  ghost predicate Stale(h: Hub) {
    && h.streams == map[]
    && forall s, t :: t in ChainOf(h, s) ==> Outdated(h, t)
  }

  lemma DisconnectMakesStale(h: Hub, reason: VS.StopReason)
    requires Inv(h)
    ensures Stale(Step(h, Disconnected(reason)))
  {
    StopAllKeeps(h, reason);
    var h' := StopAll(h, reason);
    forall s, t | t in ChainOf(h', s) ensures Outdated(h', t) {
      var i :| 0 <= i < |h.chains[s]| && h.chains[s][i] == t;
      assert TaskInv(h, s, h.chains[s][i]);
    }
  }

  lemma ResumeStaysStale(h: Hub, s: Session, ok: bool)
    requires Inv(h) && Stale(h) && s in h.chains
    ensures Stale(Step(h, Resumed(s, ok)))
  {
    InvMakesReady(h, s);
    var head, rest := h.chains[s][0], h.chains[s][1..];
    assert head in ChainOf(h, s) && Outdated(h, head);
    ResumeMoves(h, s, ok);
    var h' := Resume(h, s, ok);
    assert h'.streams == map[];
    forall u, t | t in ChainOf(h', u) ensures Outdated(h', t) {
      if u != s {
        assert t in ChainOf(h, u) && Outdated(h, t);
      } else if ChainOf(h', s) == rest || t in ChainOf(h', s)[1..] {
        assert t in rest && t in ChainOf(h, s) && Outdated(h, t);
      }
    }
  }

  lemma EnqueueStaysStale(h: Hub, g: Hub, s: Session, t: Task)
    requires Stale(h) && g.chains == h.chains && g.streams == h.streams && g.epoch == h.epoch
    requires Outdated(h, t)
    ensures Stale(Enqueue(g, s, t))
  {
    var h' := Enqueue(g, s, t);
    forall u, v | v in ChainOf(h', u) ensures Outdated(h', v) {
      if v in ChainOf(h, u) { assert Outdated(h, v); }
    }
  }

  lemma StaysStale(h: Hub, e: Event)
    requires Inv(h) && Stale(h) && !e.StartFrame?
    ensures Stale(Step(h, e))
  {
    if Enabled(h, e) {
      match e
      case Registered(s, source) =>
        var h' := Register(h, s, source);
        forall u, v | v in ChainOf(h', u) ensures Outdated(h', v) {
          assert v in ChainOf(h, u) && Outdated(h, v);
        }
      case Unregistered(s) => EnqueueStaysStale(h, h.(sources := h.sources - {s}), s, Close);
      case StopFrame(f) => if SessionOf(f).Some? { EnqueueStaysStale(h, h, SessionOf(f).value, Stop); }
      case Disconnected(reason) => DisconnectMakesStale(h, reason);
      case StreamEnded(id, reason) => FinishShape(h, id, true); assert !Lives(h.infos, id);
      case LooseDone(id) =>
        var h' := LooseReturned(h, id);
        forall u, v | v in ChainOf(h', u) ensures Outdated(h', v) {
          assert v in ChainOf(h, u) && Outdated(h, v);
        }
      case Resumed(s, ok) => ResumeStaysStale(h, s, ok);
    }
  }

  lemma {:induction false} StaleUntilAsked(h: Hub, events: seq<Event>)
    requires Inv(h) && Stale(h)
    requires forall i :: 0 <= i < |events| ==> !events[i].StartFrame?
    ensures Stale(Run(h, events))
  {
    if events != [] {
      StaleUntilAsked(h, events[..|events| - 1]);
      RunKeeps(h, events[..|events| - 1]);
      StaysStale(Run(h, events[..|events| - 1]), events[|events| - 1]);
    }
  }

  /** Nothing queued or half-started before a disconnect survives it: whatever the
      hub was doing, no stream runs afterwards until the daemon asks for one. */
  lemma {:induction false} NothingSurvivesDisconnect(before: seq<Event>, reason: VS.StopReason, after: seq<Event>)
    requires forall i :: 0 <= i < |after| ==> !after[i].StartFrame?
    ensures Run(Step(Run(EMPTY, before), Disconnected(reason)), after).streams == map[]
  {
    ReachableInv(before);
    var h := Run(EMPTY, before);
    StepKeeps(h, Disconnected(reason));
    DisconnectMakesStale(h, reason);
    StaleUntilAsked(Step(h, Disconnected(reason)), after);
  }
}

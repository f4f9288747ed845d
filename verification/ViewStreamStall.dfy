/** A daemon that never acks: when its stream is stopped and when it runs on.
    (src/helper/operator-view-hub.ts:15-16, 142-181) */
module ViewStreamStall {
  import opened Json
  import opened ViewRules
  import opened ViewStream
  import opened ViewStreamRuns

  /** The daemon acks the frame in flight. */
  predicate Acks(s: Stream, e: Event) {
    e.AckAt? && Enabled(s, e) && s.inflight.Some? && s.inflight.value.seqNo == e.seqNo
  }

  /** The rate lets the frame of this event through. */
  predicate LetsThrough(s: Stream, e: Event)
    requires s.adapter.Valid()
  {
    && e.FrameAt? && Enabled(s, e) && !s.stopped && !s.retuning
    && e.now >= s.nextAt - Interval(s) * 0.25
  }

  /** A frame finds the last one overdue and counts it lost, and cannot go out itself:
      the socket is backed up, or the frame is too large. */
  predicate Clears(s: Stream, e: Event)
    requires s.adapter.Valid()
  {
    && LetsThrough(s, e)
    && s.inflight.Some? && e.now - s.inflight.value.sentAt > ACK_TIMEOUT_MS
    && (!e.canWrite || |e.base64| > MAX_PARTS * PART_CHARS)
  }

  /** No frame that was in flight has been acked. */
  ghost predicate NeverAcked(s: Stream, events: seq<Event>)
    requires s.adapter.Valid()
  {
    events == []
    || (&& NeverAcked(s, events[..|events| - 1])
        && !Acks(Run(s, events[..|events| - 1]), events[|events| - 1]))
  }

  ghost predicate NeverClears(s: Stream, events: seq<Event>)
    requires s.adapter.Valid()
  {
    events == []
    || (&& NeverClears(s, events[..|events| - 1])
        && !Clears(Run(s, events[..|events| - 1]), events[|events| - 1]))
  }

  /** Only a frame that has gone out is in flight. */
  predicate SentBefore(s: Stream) { s.inflight.Some? ==> s.history.sends != [] }

  /** Once a frame has gone out there is one in flight. */
  predicate SomeInFlight(s: Stream) { s.history.sends != [] ==> s.inflight.Some? }

  ghost predicate AlwaysInFlight(s: Stream, events: seq<Event>)
    requires s.adapter.Valid()
  {
    && SomeInFlight(Run(s, events))
    && (events == [] || AlwaysInFlight(s, events[..|events| - 1]))
  }

  /** What a step can do to the frame in flight. */
  lemma FlightStep(s: Stream, e: Event)
    requires s.adapter.Valid() && !Acks(s, e)
    ensures var s' := Step(s, e);
            && s'.lastAckAt == s.lastAckAt
            && (SentBefore(s) ==> SentBefore(s'))
            && (Clears(s, e) ==> s'.inflight.None? && s'.history.sends == s.history.sends)
            && (!Clears(s, e) ==> s'.inflight.Some? || (s.inflight.None? && s'.history.sends == s.history.sends))
  {
    if e.FrameAt? && Enabled(s, e) {
      FrameFlight(s, e.now, e.canWrite, e.base64);
    } else if Enabled(s, e) && !e.AckAt? && !e.ReleaseFires? {
      OthersAreQuiet(s, e);
      OthersKeepAckTime(s, e);
    }
  }

  lemma OthersKeepAckTime(s: Stream, e: Event)
    requires s.adapter.Valid() && Enabled(s, e)
    requires !e.FrameAt? && !e.AckAt?
    ensures Step(s, e).lastAckAt == s.lastAckAt
  {
    if e.StopReturned? { AfterStopKeepsAckTime(NoteReturned(s, e.task), e.task, e.ok); }
  }

  lemma AfterStopKeepsAckTime(s: Stream, t: TaskId, ok: bool)
    requires AwaitsStop(s, t)
    ensures AfterStop(s, t, ok).lastAckAt == s.lastAckAt
  {
  }

  lemma FrameFlight(s: Stream, now: real, canWrite: bool, base64: Text)
    requires s.adapter.Valid() && s.history.clock <= now
    ensures var s', e := OnFrame(s, now, canWrite, base64), FrameAt(now, canWrite, base64);
            && s'.lastAckAt == s.lastAckAt
            && (SentBefore(s) ==> SentBefore(s'))
            && (Clears(s, e) ==> s'.inflight.None? && s'.history.sends == s.history.sends)
            && (!Clears(s, e) ==> s'.inflight.Some? || (s.inflight.None? && s'.history.sends == s.history.sends))
  {
    if !s.stopped && !s.retuning {
      var r := Released(At(s, now), now);
      CutFrameIsCut(r.session, r.seqNo + 1, now, base64);
      OfferShape(r, now, canWrite, base64);
    }
  }

  /** As long as the daemon acks nothing: a frame is in flight at every point after the
      first send exactly when no frame finds the last one overdue and cannot go out. */
  lemma {:induction false} InFlightExactly(s: Stream, events: seq<Event>)
    requires s.adapter.Valid() && s.inflight.None? && s.history.sends == [] && NeverAcked(s, events)
    ensures AlwaysInFlight(s, events) <==> NeverClears(s, events)
    ensures var s' := Run(s, events); s'.lastAckAt == s.lastAckAt && SentBefore(s')
  {
    if events != [] {
      var front, e := events[..|events| - 1], events[|events| - 1];
      InFlightExactly(s, front);
      FlightStep(Run(s, front), e);
    }
  }

  /** The time of a stall is counted from the start of a stream that was never acked.
      A tick after it stops the stream exactly when a frame is in flight, and one is
      if a frame has gone out and none found the last overdue and could not go out. */
  lemma SilentDaemonIsStopped(session: Text, p: ViewParams, start: real, events: seq<Event>, now: real)
    requires InCeiling(p)
    ensures Fresh(session, p, start).adapter.Valid()
    ensures NeverAcked(Fresh(session, p, start), events) ==>
              var f := Fresh(session, p, start);
              var s := Run(f, events);
              var s' := Step(s, TickAt(now));
              !s.stopped && Enabled(s, TickAt(now)) && now - start > STALL_STOP_MS ==>
                && (s'.stopped <==> s.inflight.Some?)
                && (s'.stopped ==> s'.history.endReason == Some(Stalled))
                && (s.history.sends != [] && NeverClears(f, events) ==> s'.stopped)
  {
    NewAdapterValid(p);
    var f := Fresh(session, p, start);
    if NeverAcked(f, events) {
      InFlightExactly(f, events);
      var s := Run(f, events);
      if !s.stopped && Enabled(s, TickAt(now)) { TickStops(s, now); }
    }
  }

  lemma TickStops(s: Stream, now: real)
    requires s.adapter.Valid() && !s.stopped
    ensures var s' := OnTick(s, now);
            && (s'.stopped <==> s.inflight.Some? && now - s.lastAckAt > STALL_STOP_MS)
            && (s'.stopped ==> s'.history.endReason == Some(Stalled))
  {
  }

  // ---------- a daemon that never acks and is not stopped ----------

  /** A stream that has just opened, at its first level. */
  ghost predicate AtStart(s: Stream, p: ViewParams) {
    && s.adapter.levels == Ladder(p) && s.adapter.Valid()
    && !s.stopped && !s.retuning && s.ticking
  }

  lemma LevelIsSlow(s: Stream, p: ViewParams)
    requires InCeiling(p) && AtStart(s, p)
    ensures 0.0 < Interval(s) <= 5000.0
  {
    LadderFloor(p);
    var fps := s.adapter.Level().fps;
    assert s.adapter.Level() in Ladder(p);
    assert fps * Interval(s) == 1000.0;
  }

  /** The first frame goes out. */
  lemma FirstGoesOut(s: Stream, p: ViewParams, now: real) returns (s': Stream)
    requires InCeiling(p) && AtStart(s, p) && s.inflight.None? && s.nextAt == 0.0
    requires s.history.clock <= now && now >= 0.0
    ensures s' == Step(s, FrameAt(now, true, []))
    ensures AtStart(s', p) && s'.inflight == Some(Inflight(s.seqNo + 1, now)) && s'.history.sends != []
    ensures s'.nextAt <= now + 5000.0 && s'.history.clock == now && s'.lastAckAt == s.lastAckAt
  {
    s' := Step(s, FrameAt(now, true, []));
    LevelIsSlow(s, p);
    var r := Released(At(s, now), now);
    CutFrameIsCut(r.session, r.seqNo + 1, now, []);
    OfferShape(r, now, true, []);
  }

  /** The next one finds it overdue and the socket backed up. */
  lemma NextIsHeldBack(s: Stream, p: ViewParams, now: real)
    requires InCeiling(p) && AtStart(s, p) && s.inflight.Some?
    requires s.history.clock <= now && s.nextAt <= now && now - s.inflight.value.sentAt > ACK_TIMEOUT_MS
    ensures var s' := Step(s, FrameAt(now, false, []));
            && AtStart(s', p) && s'.inflight.None? && s'.history.sends == s.history.sends
            && s'.history.clock == now
  {
    LevelIsSlow(s, p);
    OfferShape(Released(At(s, now), now), now, false, []);
  }

  lemma {:induction false} NoAckAtAll(s: Stream, events: seq<Event>)
    requires s.adapter.Valid() && forall i :: 0 <= i < |events| ==> !events[i].AckAt?
    ensures NeverAcked(s, events)
  {
    if events != [] { NoAckAtAll(s, events[..|events| - 1]); }
  }

  lemma RunOfThree(s: Stream, a: Event, b: Event, c: Event)
    requires s.adapter.Valid()
    ensures Run(s, [a, b, c]) == Step(Step(Step(s, a), b), c)
  {
    assert [a, b, c][..2] == [a, b] && [a, b][..1] == [a] && [a][..0] == [];
    assert Run(s, []) == s && Run(s, [a]) == Step(s, a) && Run(s, [a, b]) == Step(Step(s, a), b);
  }

  lemma OpenedStarts(session: Text, p: ViewParams, start: real)
    requires InCeiling(p)
    ensures Fresh(session, p, start).adapter.Valid()
    ensures var s := Step(Fresh(session, p, start), Opened(0, 0));
            AtStart(s, p) && s.inflight.None? && s.nextAt == 0.0 && s.history.clock == start
  {
    NewAdapterValid(p);
  }

  /** Ticks that find nothing in flight, however many and however late. */
  lemma {:induction false} TicksFindNothing(s: Stream, ticks: seq<Event>)
    requires s.adapter.Valid() && !s.stopped && s.inflight.None? && s.ticking
    requires forall i :: 0 <= i < |ticks| ==> ticks[i].TickAt?
    ensures var s' := Run(s, ticks); !s'.stopped && s'.inflight.None? && s'.ticking
  {
    if ticks != [] {
      var front, e := ticks[..|ticks| - 1], ticks[|ticks| - 1];
      TicksFindNothing(s, front);
      if Enabled(Run(s, front), e) {
        OthersAreQuiet(Run(s, front), e);
        TickStops(Run(s, front), e.now);
      }
    }
  }

  lemma {:induction false} RunSplits(s: Stream, a: seq<Event>, b: seq<Event>)
    requires s.adapter.Valid()
    ensures Run(s, a + b) == Run(Run(s, a), b)
  {
    if b == [] {
      assert a + b == a;
    } else {
      assert (a + b)[..|a + b| - 1] == a + b[..|b| - 1];
      RunSplits(s, a, b[..|b| - 1]);
    }
  }

  /** A screencast that opens, a frame that goes out, and one that cannot. */
  function OneHeldBack(start: real): seq<Event> {
    [Opened(0, 0), FrameAt(start, true, []), FrameAt(start + 6000.0, false, [])]
  }

  /** Whatever the daemon asked for, a stream it never acks may run on: a frame goes
      out, the next comes six seconds later and finds the socket backed up, and then no
      ticks stop the stream, however many and however late. */
  lemma {:induction false} SilentDaemonCanRunOn(session: Text, p: ViewParams, start: real, ticks: seq<Event>)
    requires InCeiling(p) && start >= 0.0
    requires forall i :: 0 <= i < |ticks| ==> ticks[i].TickAt?
    ensures Fresh(session, p, start).adapter.Valid()
    ensures var f, events := Fresh(session, p, start), OneHeldBack(start) + ticks;
            && NeverAcked(f, events)
            && Run(f, OneHeldBack(start)).history.sends != []
            && Run(f, events).ticking && !Run(f, events).stopped
  {
    OpenedStarts(session, p, start);
    var f, events := Fresh(session, p, start), OneHeldBack(start);
    NoAckAtAll(f, events + ticks);
    RunOfThree(f, events[0], events[1], events[2]);
    var s := FirstGoesOut(Step(f, events[0]), p, start);
    NextIsHeldBack(s, p, start + 6000.0);
    TicksFindNothing(Run(f, events), ticks);
    RunSplits(f, events, ticks);
  }
}

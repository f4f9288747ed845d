/** What every run of one live view stream keeps, over any interleaving of
    frames, acks, ticks, timers, source completions and ends.
    (src/helper/operator-view-hub.ts, `Stream`) */
module ViewStreamRuns {
  import opened Json
  import opened ViewRules
  import opened ViewStream

  datatype Event =
    | FrameAt(now: real, canWrite: bool, base64: Text)
    | AckAt(now: real, seqNo: nat)
    | TickAt(now: real)
    | Opened(task: TaskId, handle: Handle)
    | OpenRejected(task: TaskId)
    | StopReturned(task: TaskId, ok: bool)
    | ReleaseFires(timer: nat)
    | Finish(reason: StopReason)
    | EndCalled

  /** When an event can happen: the clock never goes back, only an armed timer
      fires, and only a pending call returns. Handles are fresh. */
  predicate Enabled(s: Stream, e: Event) {
    match e
    case FrameAt(now, _, _) => s.history.clock <= now
    case AckAt(now, _) => s.history.clock <= now
    case TickAt(now) => s.history.clock <= now && s.ticking
    case Opened(t, h) => AwaitsOpen(s, t) && h !in s.history.opens
    case OpenRejected(t) => AwaitsOpen(s, t)
    case StopReturned(t, _) => AwaitsStop(s, t)
    case ReleaseFires(k) => k in s.timers
    case Finish(_) => true
    case EndCalled => true
  }

  /** An event that cannot happen now changes nothing. */
  function Step(s: Stream, e: Event): (s': Stream)
    requires s.adapter.Valid()
    ensures s'.adapter.Valid()
  {
    if !Enabled(s, e) then s
    else match e
      case FrameAt(now, canWrite, base64) => OnFrame(s, now, canWrite, base64)
      case AckAt(now, seqNo) => OnAck(s, now, seqNo)
      case TickAt(now) => OnTick(s, now)
      case Opened(t, h) => OnOpened(s, t, h)
      case OpenRejected(t) => OnOpenFailed(s, t)
      case StopReturned(t, ok) => OnStopSettled(s, t, ok)
      case ReleaseFires(k) => OnReleaseDue(s, k)
      case Finish(reason) => Finished(s, reason)
      case EndCalled => Ended(s)
  }

  function Run(s: Stream, events: seq<Event>): (s': Stream)
    requires s.adapter.Valid()
    ensures s'.adapter.Valid()
  {
    if events == [] then s
    else Step(Run(s, events[..|events| - 1]), events[|events| - 1])
  }

  /** The stream the hub makes: constructed, and `begin` called at once. */
  function Fresh(session: Text, p: ViewParams, now: real): Stream
    requires InCeiling(p)
  {
    NewAdapterValid(p);
    Begun(New(session, p, now))
  }

  // ---------- the source handle ----------

  /** Handles the source has opened and nobody has stopped. */
  function Live(s: Stream): set<Handle> { s.history.opens - s.history.stopCalls }

  predicate Retuning(s: Stream, t: TaskId) {
    t in s.tasks && (s.tasks[t].Stopping? || s.tasks[t].Reopening? || s.tasks[t].Reclosing?)
  }

  ghost predicate HandleInv(s: Stream)
    requires s.adapter.Valid()
  {
    && (forall t :: t in s.tasks ==> t < s.nextTask)
    && (forall t, u :: Retuning(s, t) && Retuning(s, u) ==> t == u)
    && (s.retuning <==> exists t :: Retuning(s, t))
    && (s.retuning ==> s.adapter.sent == 0 && s.adapter.dropped == 0)
    && (forall t :: t in s.tasks && s.tasks[t].BeginOpening? ==>
          t == 0 && !s.ticking && !s.retuning && s.handle.None?)
    && (forall t :: t in s.tasks && s.tasks[t].Reclosing? ==> s.stopped)
    && s.history.stopCalls <= s.history.opens
    && (s.handle.Some? ==> s.handle.value in s.history.opens)
    && Live(s) == (if s.stopped || s.retuning || s.handle.None? then {} else {s.handle.value})
    && (s.stopped ==> !s.ticking && s.timers == {})
    && (!s.stopped && s.retuning && s.handle.Some? ==> s.handle.value in s.history.stopCalls)
  }

  /** The screencast runs at the adapter's width, but for a restart on its way. */
  ghost predicate WidthInv(s: Stream)
    requires s.adapter.Valid()
  {
    s.stopped
    || (&& (forall t :: t in s.tasks && s.tasks[t].Stopping? ==> s.tasks[t].level == s.adapter.Level())
        && (s.width != s.adapter.Level().width ==>
              s.retuning && forall t :: Retuning(s, t) ==> s.tasks[t].Stopping?))
  }

  lemma FreshInv(session: Text, p: ViewParams, now: real)
    requires InCeiling(p)
    ensures Fresh(session, p, now).adapter.Valid()
    ensures HandleInv(Fresh(session, p, now)) && WidthInv(Fresh(session, p, now))
  {
    NewAdapterValid(p);
  }

  /** A step that leaves the screencast and its tasks alone. */
  lemma QuietKeepsHandles(s: Stream, s': Stream)
    requires s.adapter.Valid() && s'.adapter.Valid() && HandleInv(s) && WidthInv(s)
    requires s'.tasks == s.tasks && s'.nextTask == s.nextTask && s'.handle == s.handle
    requires s'.stopped == s.stopped && s'.retuning == s.retuning && s'.ticking == s.ticking
    requires s'.width == s.width && s'.adapter.Level() == s.adapter.Level()
    requires s.stopped ==> s'.timers <= s.timers
    requires s'.history.opens == s.history.opens && s'.history.stopCalls == s.history.stopCalls
    requires s.retuning ==> s'.adapter.sent == 0 && s'.adapter.dropped == 0
    ensures HandleInv(s') && WidthInv(s')
  {
    forall t ensures Retuning(s', t) == Retuning(s, t) {}
  }

  /** `#retune` on a stream that is not restarting. */
  lemma RetuneKeepsHandles(s: Stream, t: Stream)
    requires s.adapter.Valid() && HandleInv(s) && WidthInv(s) && s.ticking && !s.retuning
    requires t == s.(adapter := t.adapter, history := t.history)
    requires t.adapter.Valid() && t.adapter.sent == 0 && t.adapter.dropped == 0
    requires t.history.opens == s.history.opens && t.history.stopCalls == s.history.stopCalls
    ensures HandleInv(Retuned(t)) && WidthInv(Retuned(t))
  {
    var s' := Retuned(t);
    forall u | u in s.tasks ensures !Retuning(s, u) {}
    if s'.retuning {
      assert Retuning(s', s.nextTask);
    }
    forall u | Retuning(s', u) && u != s.nextTask ensures Retuning(s, u) {}
  }

  /** A tick starts a restart only while none is under way: during one no frame
      is counted, so the window is empty and its close moves nothing. */
  lemma TickKeepsHandles(s: Stream, now: real)
    requires s.adapter.Valid() && HandleInv(s) && WidthInv(s) && s.ticking
    ensures HandleInv(OnTick(s, now)) && WidthInv(OnTick(s, now))
  {
    var t := At(s, now);
    if s.inflight.Some? && now - s.lastAckAt > STALL_STOP_MS {
      QuietKeepsHandles(s, t);
      EndKeepsHandles(t);
      QuietKeepsHandles(Ended(t), OnTick(s, now));
    } else if s.adapter.Decide() == Same {
      QuietKeepsHandles(s, OnTick(s, now));
    } else {
      RetuneKeepsHandles(s, t.(adapter := t.adapter.Closed()));
    }
  }

  lemma EndKeepsHandles(s: Stream)
    requires s.adapter.Valid() && HandleInv(s)
    ensures HandleInv(Ended(s))
    ensures WidthInv(s) ==> WidthInv(Ended(s))
  {
    if !s.stopped {
      var s' := Ended(s);
      forall u | Retuning(s', u) ensures Retuning(s, u) {}
      if s.retuning {
        var u :| Retuning(s, u);
        assert Retuning(s', u);
      }
    }
  }

  /** The stop that was awaited has settled, and nothing has gone on yet. */
  lemma NotedKeepsHandles(s: Stream, t: TaskId)
    requires s.adapter.Valid() && HandleInv(s) && t in s.tasks
    ensures HandleInv(NoteReturned(s, t))
    ensures WidthInv(s) ==> WidthInv(NoteReturned(s, t))
  {
    forall u ensures Retuning(NoteReturned(s, t), u) == Retuning(s, u) {}
  }

  /** A restart that failed leaves the stream stopped with nothing open. */
  lemma FailureKeepsHandles(s: Stream, t: TaskId)
    requires s.adapter.Valid() && HandleInv(s)
    requires t in s.tasks && (s.tasks[t].Stopping? || s.tasks[t].Reopening?)
    ensures HandleInv(Failed(s, t)) && Failed(s, t).stopped
  {
    var s' := Failed(s, t);
    assert Retuning(s, t);
    forall u | Retuning(s', u) ensures false {
      assert Retuning(s, u);
    }
  }

  lemma OpenKeepsHandles(s: Stream, t: TaskId, h: Handle)
    requires s.adapter.Valid() && HandleInv(s)
    requires AwaitsOpen(s, t) && h !in s.history.opens
    ensures HandleInv(OnOpened(s, t, h))
    ensures WidthInv(s) ==> WidthInv(OnOpened(s, t, h))
  {
    var s' := OnOpened(s, t, h);
    forall u | Retuning(s', u) ensures Retuning(s, u) {}
    if s.tasks[t].Reopening? {
      assert Retuning(s, t);
      if s.stopped {
        assert Retuning(s', t);
      }
    }
  }

  lemma StopKeepsHandles(s: Stream, t: TaskId, ok: bool)
    requires s.adapter.Valid() && HandleInv(s)
    requires AwaitsStop(s, t)
    ensures HandleInv(OnStopSettled(s, t, ok))
    ensures WidthInv(s) ==> WidthInv(OnStopSettled(s, t, ok))
  {
    NotedKeepsHandles(s, t);
    AfterStopKeepsHandles(NoteReturned(s, t), t, ok);
  }

  lemma AfterStopKeepsHandles(s: Stream, t: TaskId, ok: bool)
    requires s.adapter.Valid() && HandleInv(s)
    requires AwaitsStop(s, t)
    ensures HandleInv(AfterStop(s, t, ok))
    ensures WidthInv(s) ==> WidthInv(AfterStop(s, t, ok))
  {
    var s' := AfterStop(s, t, ok);
    if s.tasks[t].Stopping? && !ok {
      FailureKeepsHandles(s, t);
    } else {
      forall u | Retuning(s', u) ensures Retuning(s, u) {}
      if Retuning(s, t) {
        if t in s'.tasks { assert Retuning(s', t); }
      } else if s.retuning {
        var u :| Retuning(s, u);
        assert Retuning(s', u);
      }
    }
  }

  lemma OfferKeepsHandles(s: Stream, now: real, canWrite: bool, base64: Text)
    requires s.adapter.Valid() && HandleInv(s) && WidthInv(s) && !s.retuning
    ensures HandleInv(Offered(s, now, canWrite, base64)) && WidthInv(Offered(s, now, canWrite, base64))
  {
    QuietKeepsHandles(s, Offered(s, now, canWrite, base64));
  }

  lemma FrameKeepsHandles(s: Stream, now: real, canWrite: bool, base64: Text)
    requires s.adapter.Valid() && HandleInv(s) && WidthInv(s)
    ensures HandleInv(OnFrame(s, now, canWrite, base64)) && WidthInv(OnFrame(s, now, canWrite, base64))
  {
    var t := At(s, now);
    QuietKeepsHandles(s, t);
    if !s.stopped && !s.retuning {
      QuietKeepsHandles(t, Released(t, now));
      OfferKeepsHandles(Released(t, now), now, canWrite, base64);
    }
  }

  lemma OpenFailureKeepsHandles(s: Stream, t: TaskId)
    requires s.adapter.Valid() && HandleInv(s)
    requires AwaitsOpen(s, t)
    ensures HandleInv(OnOpenFailed(s, t))
    ensures WidthInv(s) ==> WidthInv(OnOpenFailed(s, t))
  {
    if s.tasks[t].Reopening? {
      FailureKeepsHandles(s, t);
    } else {
      forall u ensures Retuning(OnOpenFailed(s, t), u) == Retuning(s, u) {}
    }
  }

  lemma CompletionKeepsHandles(s: Stream, e: Event)
    requires s.adapter.Valid() && HandleInv(s) && WidthInv(s)
    requires (e.Opened? || e.OpenRejected? || e.StopReturned?) && Enabled(s, e)
    ensures HandleInv(Step(s, e)) && WidthInv(Step(s, e))
  {
    match e
    case Opened(t, h) => OpenKeepsHandles(s, t, h);
    case OpenRejected(t) => OpenFailureKeepsHandles(s, t);
    case StopReturned(t, ok) => StopKeepsHandles(s, t, ok);
  }

  lemma FinishKeepsHandles(s: Stream, reason: StopReason)
    requires s.adapter.Valid() && HandleInv(s) && WidthInv(s)
    ensures HandleInv(Finished(s, reason)) && WidthInv(Finished(s, reason))
  {
    EndKeepsHandles(s);
    QuietKeepsHandles(Ended(s), Finished(s, reason));
  }

  lemma HandleInvStep(s: Stream, e: Event)
    requires s.adapter.Valid() && HandleInv(s) && WidthInv(s)
    ensures HandleInv(Step(s, e)) && WidthInv(Step(s, e))
  {
    if Enabled(s, e) {
      match e
      case FrameAt(now, canWrite, base64) => FrameKeepsHandles(s, now, canWrite, base64);
      case AckAt(now, seqNo) => QuietKeepsHandles(s, OnAck(s, now, seqNo));
      case TickAt(now) => TickKeepsHandles(s, now);
      case ReleaseFires(k) => QuietKeepsHandles(s, OnReleaseDue(s, k));
      case Finish(reason) => FinishKeepsHandles(s, reason);
      case EndCalled => EndKeepsHandles(s);
      case _ => CompletionKeepsHandles(s, e);
    }
  }

  // ---------- stops that have returned ----------

  /** Handles the source has opened and whose `stop()` has not returned yet. */
  function Unreturned(s: Stream): set<Handle> { s.history.opens - s.history.returned }

  /** Activations that wait for a screencast to open. */
  function Opening(s: Stream): set<TaskId> { set t | t in s.tasks && AwaitsOpen(s, t) }

  function Held(h: Option<Handle>): set<Handle> { if h.Some? then {h.value} else {} }

  /** A screencast opens only once every earlier one has been stopped and its stop
      has returned. */
  ghost predicate ReturnInv(s: Stream) {
    && s.history.returned <= s.history.stopCalls
    && (forall t :: t in s.tasks && s.tasks[t].Closes().Some? ==>
          s.tasks[t].Closes().value in s.history.stopCalls)
    && (forall g, h :: g in Unreturned(s) && h in Unreturned(s) ==> g == h)
    && (forall t :: AwaitsOpen(s, t) ==> Unreturned(s) == {})
    && (!s.stopped && !s.retuning ==> Unreturned(s) <= Held(s.handle))
    && (forall t :: t in s.tasks && s.tasks[t].Stopping? && !s.stopped ==>
          Unreturned(s) <= Held(s.tasks[t].closing))
  }

  lemma QuietKeepsReturns(s: Stream, s': Stream)
    requires ReturnInv(s)
    requires s'.tasks == s.tasks && s'.handle == s.handle && s'.stopped == s.stopped && s'.retuning == s.retuning
    requires s'.history.opens == s.history.opens && s'.history.stopCalls == s.history.stopCalls
    requires s'.history.returned == s.history.returned
    ensures ReturnInv(s')
  {
    forall t ensures AwaitsOpen(s', t) == AwaitsOpen(s, t) {}
  }

  lemma EndKeepsReturns(s: Stream)
    requires ReturnInv(s) && (forall t :: t in s.tasks ==> t < s.nextTask)
    ensures ReturnInv(Ended(s))
  {
    var s' := Ended(s);
    assert Unreturned(s') == Unreturned(s);
    forall t | AwaitsOpen(s', t) ensures AwaitsOpen(s, t) {}
    forall t | t in s'.tasks && s'.tasks[t].Closes().Some?
      ensures s'.tasks[t].Closes().value in s'.history.stopCalls
    {
      assert t in s.tasks ==> s'.tasks[t] == s.tasks[t];
    }
  }

  lemma TickKeepsReturns(s: Stream, now: real)
    requires s.adapter.Valid() && HandleInv(s) && WidthInv(s) && s.ticking && ReturnInv(s)
    ensures ReturnInv(OnTick(s, now))
  {
    var t := At(s, now);
    if s.inflight.Some? && now - s.lastAckAt > STALL_STOP_MS {
      QuietKeepsReturns(s, t);
      EndKeepsReturns(t);
      QuietKeepsReturns(Ended(t), OnTick(s, now));
    } else if s.adapter.Decide() == Same {
      QuietKeepsReturns(s, OnTick(s, now));
    } else {
      var r := t.(adapter := t.adapter.Closed());
      QuietKeepsReturns(s, r);
      forall u | AwaitsOpen(Retuned(r), u) ensures AwaitsOpen(r, u) {}
    }
  }

  lemma OneOpening(s: Stream, t: TaskId, u: TaskId)
    requires s.adapter.Valid() && HandleInv(s) && AwaitsOpen(s, t) && AwaitsOpen(s, u)
    ensures t == u
  {
    if s.tasks[t].Reopening? { assert Retuning(s, t); }
    if s.tasks[u].Reopening? { assert Retuning(s, u); }
  }

  lemma OpenKeepsReturns(s: Stream, t: TaskId, h: Handle)
    requires s.adapter.Valid() && HandleInv(s) && ReturnInv(s)
    requires AwaitsOpen(s, t) && h !in s.history.opens
    ensures ReturnInv(OnOpened(s, t, h))
  {
    var s' := OnOpened(s, t, h);
    assert Unreturned(s') == {h};
    forall u | AwaitsOpen(s', u) ensures false { OneOpening(s, t, u); }
    forall u | u in s'.tasks && s'.tasks[u].Stopping? ensures false {
      assert Retuning(s, u);
      if s.tasks[t].Reopening? { assert Retuning(s, t); }
    }
  }

  lemma OpenFailureKeepsReturns(s: Stream, t: TaskId)
    requires s.adapter.Valid() && HandleInv(s) && ReturnInv(s) && AwaitsOpen(s, t)
    ensures ReturnInv(OnOpenFailed(s, t))
  {
    forall u | AwaitsOpen(OnOpenFailed(s, t), u) ensures AwaitsOpen(s, u) {}
  }

  lemma NotedKeepsReturns(s: Stream, t: TaskId)
    requires ReturnInv(s) && t in s.tasks
    ensures ReturnInv(NoteReturned(s, t))
    ensures s.tasks[t].Stopping? && !s.stopped ==> Unreturned(NoteReturned(s, t)) == {}
  {
    forall u ensures AwaitsOpen(NoteReturned(s, t), u) == AwaitsOpen(s, u) {}
    assert Unreturned(NoteReturned(s, t)) <= Unreturned(s);
  }

  lemma AfterStopKeepsReturns(s: Stream, t: TaskId, ok: bool)
    requires s.adapter.Valid() && HandleInv(s) && ReturnInv(s) && AwaitsStop(s, t)
    requires s.tasks[t].Stopping? && !s.stopped ==> Unreturned(s) == {}
    ensures ReturnInv(AfterStop(s, t, ok))
  {
    var s' := AfterStop(s, t, ok);
    forall u | AwaitsOpen(s', u) && u != t ensures AwaitsOpen(s, u) {}
    if Retuning(s, t) { assert s.retuning; }
  }

  lemma StopKeepsReturns(s: Stream, t: TaskId, ok: bool)
    requires s.adapter.Valid() && HandleInv(s) && ReturnInv(s) && AwaitsStop(s, t)
    ensures ReturnInv(OnStopSettled(s, t, ok))
  {
    NotedKeepsReturns(s, t);
    NotedKeepsHandles(s, t);
    AfterStopKeepsReturns(NoteReturned(s, t), t, ok);
  }

  lemma FinishKeepsReturns(s: Stream, reason: StopReason)
    requires s.adapter.Valid() && HandleInv(s) && ReturnInv(s)
    ensures ReturnInv(Finished(s, reason))
  {
    EndKeepsReturns(s);
    if !s.stopped { QuietKeepsReturns(Ended(s), Finished(s, reason)); }
  }

  lemma OfferKeepsReturns(s: Stream, now: real, canWrite: bool, base64: Text)
    requires s.adapter.Valid() && ReturnInv(s)
    ensures ReturnInv(Offered(s, now, canWrite, base64))
  {
    QuietKeepsReturns(s, Offered(s, now, canWrite, base64));
  }

  lemma FrameKeepsReturns(s: Stream, now: real, canWrite: bool, base64: Text)
    requires s.adapter.Valid() && ReturnInv(s)
    ensures ReturnInv(OnFrame(s, now, canWrite, base64))
  {
    var t := At(s, now);
    QuietKeepsReturns(s, t);
    if !s.stopped && !s.retuning {
      var r := Released(t, now);
      QuietKeepsReturns(t, r);
      if now >= r.nextAt - Interval(r) * 0.25 { OfferKeepsReturns(r, now, canWrite, base64); }
    }
  }

  lemma ReturnInvStep(s: Stream, e: Event)
    requires s.adapter.Valid() && HandleInv(s) && WidthInv(s) && ReturnInv(s)
    ensures ReturnInv(Step(s, e))
  {
    if Enabled(s, e) {
      match e
      case FrameAt(now, canWrite, base64) => FrameKeepsReturns(s, now, canWrite, base64);
      case AckAt(now, seqNo) => QuietKeepsReturns(s, OnAck(s, now, seqNo));
      case TickAt(now) => TickKeepsReturns(s, now);
      case Opened(t, h) => OpenKeepsReturns(s, t, h);
      case OpenRejected(t) => OpenFailureKeepsReturns(s, t);
      case StopReturned(t, ok) => StopKeepsReturns(s, t, ok);
      case ReleaseFires(k) => QuietKeepsReturns(s, OnReleaseDue(s, k));
      case Finish(reason) => FinishKeepsReturns(s, reason);
      case EndCalled => EndKeepsReturns(s);
    }
  }

  lemma FewOpen(s: Stream)
    requires s.adapter.Valid() && HandleInv(s) && ReturnInv(s)
    ensures |Unreturned(s)| + |Opening(s)| <= 1
  {
    var o, p := Unreturned(s), Opening(s);
    if p != {} {
      var t :| t in p;
      forall u | u in p ensures u == t { OneOpening(s, t, u); }
      assert p == {t};
    } else if o != {} {
      var h :| h in o;
      assert o == {h};
    }
  }

  // ---------- frame pacing ----------

  /** The time of send `i` plus the intervals in force from it up to send `k`. */
  function Due(sends: seq<Send>, i: nat, k: nat): real
    requires i <= k <= |sends| && i < |sends|
  {
    if k == i then sends[i].at else Due(sends, i, k - 1) + sends[k - 1].interval
  }

  /** Send `k` followed the ack of the one before it, or its loss. */
  predicate Separated(before: Send, after: Send) {
    || (before.acked.Some? && before.at <= before.acked.value <= after.at)
    || after.at - before.at > ACK_TIMEOUT_MS
  }

  /** What went out for a whole run of sends. */
  function AllParts(session: Text, sends: seq<Send>): seq<Part> {
    if sends == [] then []
    else
      var f := sends[|sends| - 1];
      var n := PartCount(|f.data|);
      AllParts(session, sends[..|sends| - 1]) + Pieces(session, f.seqNo, f.at, f.data, n, n)
  }

  ghost predicate Paced(sends: seq<Send>) {
    && (forall i :: 0 <= i < |sends| ==> sends[i].seqNo == i + 1 && sends[i].interval > 0.0)
    && (forall i, k :: 0 <= i <= k < |sends| ==>
          sends[k].at >= Due(sends, i, k) - sends[k].interval / 4.0)
    && (forall k :: 0 < k < |sends| ==> Separated(sends[k - 1], sends[k]))
  }

  ghost predicate PaceInv(s: Stream)
  {
    var sends, n := s.history.sends, |s.history.sends|;
    && n == s.seqNo
    && Paced(sends)
    && (forall i :: 0 <= i < n ==> Due(sends, i, n) <= s.nextAt)
    && (n > 0 ==>
          && sends[n - 1].at <= s.history.clock
          && match s.inflight
             case Some(f) => f == Inflight(n, sends[n - 1].at) && sends[n - 1].acked.None?
             case None =>
               || (sends[n - 1].acked.Some? && sends[n - 1].at <= sends[n - 1].acked.value <= s.history.clock)
               || s.history.clock - sends[n - 1].at > ACK_TIMEOUT_MS)
    && (n == 0 ==> s.inflight.None?)
  }

  /** The screencast is handed back no sooner than the rate allows, each frame once,
      and while the stream runs each frame is handed back or has a timer that will. */
  ghost predicate ReleaseInv(s: Stream) {
    var rs := s.history.releases;
    && |rs| == s.nextTimer
    && (rs != [] ==> rs[|rs| - 1].at == s.lastReleaseAt)
    && (forall k :: 0 < k < |rs| ==> rs[k].at >= rs[k - 1].at + rs[k].interval)
    && (forall k :: k in s.timers || k in s.history.acks ==> k < |rs|)
    && (forall k :: k in s.timers ==> k !in s.history.acks)
    && (!s.stopped ==> forall k :: 0 <= k < |rs| ==> k in s.timers || k in s.history.acks)
    && (forall i, j :: 0 <= i < j < |s.history.acks| ==> s.history.acks[i] != s.history.acks[j])
  }

  ghost predicate OutInv(s: Stream) {
    && s.history.out == AllParts(s.session, s.history.sends)
    && forall i :: 0 <= i < |s.history.sends| ==> |s.history.sends[i].data| <= MAX_PARTS * PART_CHARS
  }

  lemma {:induction false} DueDependsOnTimes(a: seq<Send>, b: seq<Send>, i: nat, k: nat)
    requires i <= k <= |a| <= |b| && i < |a|
    requires forall j :: 0 <= j < |a| ==> a[j].at == b[j].at && a[j].interval == b[j].interval
    ensures Due(a, i, k) == Due(b, i, k)
    decreases k
  {
    if k > i { DueDependsOnTimes(a, b, i, k - 1); }
  }

  /** A send the rate, the socket and the last frame all let through. */
  lemma SendKeepsPace(s: Stream, now: real, base64: Text, parts: seq<Part>)
    requires s.adapter.Valid() && PaceInv(s)
    requires s.history.clock == now && s.inflight.None? && now >= s.nextAt - Interval(s) * 0.25
    ensures PaceInv(SentOut(s, now, base64, parts))
  {
    var a := s.history.sends;
    var s' := SentOut(s, now, base64, parts);
    var b := s'.history.sends;
    var n := |a|;
    assert b[..n] == a;
    forall i, k | 0 <= i < n && i <= k <= n ensures Due(b, i, k) == Due(a, i, k) {
      DueDependsOnTimes(a, b, i, k);
    }
    forall i, k | 0 <= i <= k < |b| ensures b[k].at >= Due(b, i, k) - b[k].interval / 4.0 {
      if k < n {
        assert a[k].at >= Due(a, i, k) - a[k].interval / 4.0;
      } else if i < n {
        assert Due(a, i, n) <= s.nextAt;
      }
    }
    forall i | 0 <= i < |b| ensures Due(b, i, |b|) <= s'.nextAt {
      if i < n { assert Due(a, i, n) <= s.nextAt; }
      assert Due(b, i, n + 1) == Due(b, i, n) + b[n].interval;
    }
    forall k | 0 < k < |b| ensures Separated(b[k - 1], b[k]) {
      if k < n { assert Separated(a[k - 1], a[k]); }
    }
  }

  /** A step that sends nothing and leaves the pacing alone, but may let time pass
      and count an overdue frame lost. */
  lemma QuietKeepsPace(s: Stream, s': Stream)
    requires PaceInv(s)
    requires s'.history.sends == s.history.sends && s'.seqNo == s.seqNo && s'.nextAt == s.nextAt
    requires s.history.clock <= s'.history.clock
    requires s'.inflight == s.inflight || s'.inflight == StillOut(s, s'.history.clock)
    ensures PaceInv(s')
  {
  }

  lemma QuietKeepsReleases(s: Stream, s': Stream)
    requires ReleaseInv(s)
    requires s'.history.releases == s.history.releases && s'.history.acks == s.history.acks
    requires s'.nextTimer == s.nextTimer && s'.lastReleaseAt == s.lastReleaseAt && s'.timers <= s.timers
    requires s'.stopped || (!s.stopped && s'.timers == s.timers)
    ensures ReleaseInv(s')
  {
  }

  /** Nothing sent, handed back or acked; time may pass and timers may be cleared. */
  predicate Quiet(s: Stream, s': Stream) {
    && s'.session == s.session
    && s'.history.sends == s.history.sends && s'.seqNo == s.seqNo && s'.nextAt == s.nextAt
    && s.history.clock <= s'.history.clock && s'.inflight == s.inflight
    && s'.history.releases == s.history.releases && s'.history.acks == s.history.acks
    && s'.nextTimer == s.nextTimer && s'.lastReleaseAt == s.lastReleaseAt && s'.timers <= s.timers
    && (s'.stopped || (!s.stopped && s'.timers == s.timers))
    && s'.history.out == s.history.out
  }

  lemma TickIsQuiet(s: Stream, now: real)
    requires s.adapter.Valid() && s.history.clock <= now
    ensures Quiet(s, OnTick(s, now))
  {
  }

  lemma OpensAreQuiet(s: Stream, t: TaskId, h: Handle)
    requires AwaitsOpen(s, t)
    ensures Quiet(s, OnOpened(s, t, h)) && Quiet(s, OnOpenFailed(s, t))
  {
    FailureIsQuiet(s, t);
  }

  lemma StopsAreQuiet(s: Stream, t: TaskId, ok: bool)
    requires AwaitsStop(s, t)
    ensures Quiet(s, OnStopSettled(s, t, ok))
  {
    var r := NoteReturned(s, t);
    assert Quiet(s, r);
    AfterStopIsQuiet(r, t, ok);
    QuietTwice(s, r, AfterStop(r, t, ok));
  }

  lemma AfterStopIsQuiet(s: Stream, t: TaskId, ok: bool)
    requires AwaitsStop(s, t)
    ensures Quiet(s, AfterStop(s, t, ok))
  {
    FailureIsQuiet(s, t);
  }

  lemma QuietTwice(a: Stream, b: Stream, c: Stream)
    requires Quiet(a, b) && Quiet(b, c)
    ensures Quiet(a, c)
  {
  }

  lemma FailureIsQuiet(s: Stream, t: TaskId)
    ensures Quiet(s, Failed(s, t))
  {
  }

  /** Steps other than frames, acks and release timers send nothing. */
  lemma OthersAreQuiet(s: Stream, e: Event)
    requires s.adapter.Valid() && Enabled(s, e)
    requires !e.FrameAt? && !e.AckAt? && !e.ReleaseFires?
    ensures Quiet(s, Step(s, e))
  {
    match e
    case TickAt(now) => TickIsQuiet(s, now);
    case Opened(t, h) => OpensAreQuiet(s, t, h);
    case OpenRejected(t) => OpensAreQuiet(s, t, 0);
    case StopReturned(t, ok) => StopsAreQuiet(s, t, ok);
    case Finish(_) =>
    case EndCalled =>
  }

  lemma AckKeepsTimes(a: seq<Send>, now: real)
    requires Paced(a) && a != [] && a[|a| - 1].acked.None?
    ensures var b := MarkAcked(a, now);
            && |b| == |a| && Paced(b)
            && (forall i, k :: 0 <= i < |a| && i <= k <= |a| ==> Due(b, i, k) == Due(a, i, k))
  {
    var b := MarkAcked(a, now);
    forall i, k | 0 <= i < |a| && i <= k <= |a| ensures Due(b, i, k) == Due(a, i, k) {
      DueDependsOnTimes(a, b, i, k);
    }
    forall k | 0 < k < |b| ensures Separated(b[k - 1], b[k]) {
      assert Separated(a[k - 1], a[k]);
    }
  }

  lemma AckKeepsPace(s: Stream, now: real, seqNo: nat)
    requires PaceInv(s) && s.history.clock <= now
    ensures PaceInv(OnAck(s, now, seqNo))
  {
    QuietKeepsPace(s, At(s, now));
    if s.inflight.Some? && s.inflight.value.seqNo == seqNo {
      AckKeepsTimes(s.history.sends, now);
    }
  }

  /** An ack changes nothing of what was sent. */
  lemma AckedParts(session: Text, a: seq<Send>, now: real)
    ensures AllParts(session, MarkAcked(a, now)) == AllParts(session, a)
    ensures |MarkAcked(a, now)| == |a|
    ensures forall i :: 0 <= i < |a| ==> MarkAcked(a, now)[i].data == a[i].data
  {
    var b := MarkAcked(a, now);
    if a != [] { assert b[..|b| - 1] == a[..|a| - 1]; }
  }

  lemma AckKeepsOut(s: Stream, now: real, seqNo: nat)
    requires OutInv(s)
    ensures OutInv(OnAck(s, now, seqNo))
  {
    AckedParts(s.session, s.history.sends, now);
  }

  lemma ReleaseKeepsReleases(s: Stream, now: real)
    requires s.adapter.Valid() && ReleaseInv(s)
    ensures ReleaseInv(Released(s, now))
  {
    var at := MaxReal(now, s.lastReleaseAt + Interval(s));
    OneMoreRelease(s, Released(s, now), Release(at, Interval(s)));
  }

  /** One more release, handed back at once or put on a timer. */
  lemma OneMoreRelease(s: Stream, s': Stream, r: Release)
    requires ReleaseInv(s)
    requires s'.history.releases == s.history.releases + [r] && s'.nextTimer == s.nextTimer + 1
    requires s'.lastReleaseAt == r.at && (r.at >= s.lastReleaseAt + r.interval)
    requires s'.stopped == s.stopped
    requires || (s'.timers == s.timers && s'.history.acks == s.history.acks + [s.nextTimer])
             || (s'.timers == s.timers + {s.nextTimer} && s'.history.acks == s.history.acks)
    ensures ReleaseInv(s')
  {
    var rs, rs' := s.history.releases, s'.history.releases;
    assert forall k :: 0 <= k < |rs| ==> rs'[k] == rs[k];
    var a, a' := s.history.acks, s'.history.acks;
    forall i, j | 0 <= i < j < |a'| ensures a'[i] != a'[j] {
      if j == |a| { assert a[i] in a; }
    }
    if !s.stopped {
      forall k | 0 <= k < |rs'| ensures k in s'.timers || k in s'.history.acks {
        if k < |rs| { assert k in s.timers || k in s.history.acks; }
      }
    }
  }

  lemma OfferKeepsPace(s: Stream, now: real, canWrite: bool, base64: Text)
    requires s.adapter.Valid() && PaceInv(s) && OutInv(s)
    requires s.history.clock == now && now >= s.nextAt - Interval(s) * 0.25
    ensures var s' := Offered(s, now, canWrite, base64); PaceInv(s') && OutInv(s')
  {
    var t := s.(inflight := StillOut(s, now));
    QuietKeepsPace(s, t);
    var parts := CutFrame(t.session, t.seqNo + 1, now, base64);
    OfferShape(s, now, canWrite, base64);
    if t.inflight.None? && canWrite && parts.Some? {
      CutFrameIsCut(t.session, t.seqNo + 1, now, base64);
      SendKeepsPace(t, now, base64, parts.value);
      SendKeepsOut(t, now, base64, parts.value);
    } else {
      LossKeepsPace(t);
    }
  }

  lemma LossKeepsPace(s: Stream)
    requires PaceInv(s) && OutInv(s)
    ensures PaceInv(NoteLost(s)) && OutInv(NoteLost(s))
  {
    QuietKeepsPace(s, NoteLost(s));
  }

  lemma OfferShape(s: Stream, now: real, canWrite: bool, base64: Text)
    requires s.adapter.Valid()
    ensures var t := s.(inflight := StillOut(s, now));
            var parts := CutFrame(t.session, t.seqNo + 1, now, base64);
            Offered(s, now, canWrite, base64)
            == if t.inflight.None? && canWrite && parts.Some? then SentOut(t, now, base64, parts.value)
               else NoteLost(t)
  {
  }

  lemma SendKeepsOut(s: Stream, now: real, base64: Text, parts: seq<Part>)
    requires s.adapter.Valid() && OutInv(s) && |base64| <= MAX_PARTS * PART_CHARS
    requires CutFrame(s.session, s.seqNo + 1, now, base64) == Some(parts)
    ensures OutInv(SentOut(s, now, base64, parts))
  {
    var b := SentOut(s, now, base64, parts).history.sends;
    assert b[..|b| - 1] == s.history.sends;
  }

  lemma OfferIsQuiet(s: Stream, now: real, canWrite: bool, base64: Text)
    requires s.adapter.Valid() && ReleaseInv(s)
    ensures ReleaseInv(Offered(s, now, canWrite, base64))
  {
    QuietKeepsReleases(s, Offered(s, now, canWrite, base64));
  }

  lemma FrameKeepsPace(s: Stream, now: real, canWrite: bool, base64: Text)
    requires s.adapter.Valid() && PaceInv(s) && ReleaseInv(s) && OutInv(s) && s.history.clock <= now
    ensures var s' := OnFrame(s, now, canWrite, base64); PaceInv(s') && ReleaseInv(s') && OutInv(s')
  {
    var t := At(s, now);
    QuietKeepsPace(s, t);
    if !s.stopped && !s.retuning {
      var r := Released(t, now);
      QuietKeepsPace(t, r);
      ReleaseKeepsReleases(t, now);
      if now >= r.nextAt - Interval(r) * 0.25 {
        OfferKeepsPace(r, now, canWrite, base64);
        OfferIsQuiet(r, now, canWrite, base64);
      }
    }
  }

  lemma QuietKeepsAll(s: Stream, s': Stream)
    requires PaceInv(s) && ReleaseInv(s) && OutInv(s) && Quiet(s, s')
    ensures PaceInv(s') && ReleaseInv(s') && OutInv(s')
  {
    QuietKeepsPace(s, s');
    QuietKeepsReleases(s, s');
  }

  lemma AckKeepsAll(s: Stream, now: real, seqNo: nat)
    requires PaceInv(s) && ReleaseInv(s) && OutInv(s) && s.history.clock <= now
    ensures var s' := OnAck(s, now, seqNo); PaceInv(s') && ReleaseInv(s') && OutInv(s')
  {
    AckKeepsPace(s, now, seqNo);
    AckKeepsOut(s, now, seqNo);
    QuietKeepsReleases(s, OnAck(s, now, seqNo));
  }

  lemma ReleaseDueKeepsAll(s: Stream, k: nat)
    requires PaceInv(s) && ReleaseInv(s) && OutInv(s) && k in s.timers
    ensures var s' := OnReleaseDue(s, k); PaceInv(s') && ReleaseInv(s') && OutInv(s')
  {
    QuietKeepsPace(s, OnReleaseDue(s, k));
  }

  lemma PaceInvStep(s: Stream, e: Event)
    requires s.adapter.Valid() && PaceInv(s) && ReleaseInv(s) && OutInv(s)
    ensures PaceInv(Step(s, e)) && ReleaseInv(Step(s, e)) && OutInv(Step(s, e))
  {
    if Enabled(s, e) {
      match e
      case FrameAt(now, canWrite, base64) => FrameKeepsPace(s, now, canWrite, base64);
      case AckAt(now, seqNo) => AckKeepsAll(s, now, seqNo);
      case ReleaseFires(k) => ReleaseDueKeepsAll(s, k);
      case _ =>
        OthersAreQuiet(s, e);
        QuietKeepsAll(s, Step(s, e));
    }
  }

  // ---------- main results ----------

  lemma {:induction false} RunInv(session: Text, p: ViewParams, start: real, events: seq<Event>)
    requires InCeiling(p)
    ensures Fresh(session, p, start).adapter.Valid()
    ensures var s := Run(Fresh(session, p, start), events);
            HandleInv(s) && WidthInv(s) && ReturnInv(s) && PaceInv(s) && ReleaseInv(s) && OutInv(s)
  {
    FreshInv(session, p, start);
    if events != [] {
      var front := events[..|events| - 1];
      RunInv(session, p, start, front);
      var s := Run(Fresh(session, p, start), front);
      HandleInvStep(s, events[|events| - 1]);
      ReturnInvStep(s, events[|events| - 1]);
      PaceInvStep(s, events[|events| - 1]);
    }
  }

  /** Two restarts never overlap; at most one opened screencast is unstopped; a stopped
      stream leaves none, whatever was pending when it stopped; and no screencast is
      asked for before the stop of the one before it has returned: the screencasts
      whose stop has not returned and the ones on their way are one at the most. */
  lemma OneScreencast(session: Text, p: ViewParams, start: real, events: seq<Event>)
    requires InCeiling(p)
    ensures Fresh(session, p, start).adapter.Valid()
    ensures var s := Run(Fresh(session, p, start), events);
            && (forall t, u :: Retuning(s, t) && Retuning(s, u) ==> t == u)
            && |Live(s)| <= 1
            && Live(s) <= Unreturned(s)
            && |Unreturned(s)| + |Opening(s)| <= 1
            && (s.stopped ==> Live(s) == {})
            && (!s.stopped && s.ticking && !s.retuning && s.handle.Some? ==> Live(s) == {s.handle.value})
  {
    RunInv(session, p, start, events);
    FewOpen(Run(Fresh(session, p, start), events));
  }

  /** While a stream runs and no restart is pending, the screencast has the width
      the ladder is at. */
  lemma WidthFollowsLadder(session: Text, p: ViewParams, start: real, events: seq<Event>)
    requires InCeiling(p)
    ensures Fresh(session, p, start).adapter.Valid()
    ensures var s := Run(Fresh(session, p, start), events);
            !s.stopped && !s.retuning ==> s.width == s.adapter.Level().width
  {
    RunInv(session, p, start, events);
  }

  /** The k-th send after send i comes no earlier than the sum of the intervals in
      between, less a quarter of the interval then in force. Two sends are parted
      by the ack of the first or by more than the ack timeout. Screencast frames
      are handed back at least an interval apart, each at most once; and while the
      stream runs, each one taken has been handed back or has a timer that will. */
  lemma FramesArePaced(session: Text, p: ViewParams, start: real, events: seq<Event>)
    requires InCeiling(p)
    ensures Fresh(session, p, start).adapter.Valid()
    ensures var s := Run(Fresh(session, p, start), events);
            var h := s.history;
            && Paced(h.sends)
            && (forall k :: 0 < k < |h.releases| ==>
                  h.releases[k].at >= h.releases[k - 1].at + h.releases[k].interval)
            && (forall i, j :: 0 <= i < j < |h.acks| ==> h.acks[i] != h.acks[j])
            && (!s.stopped ==> forall k :: 0 <= k < |h.releases| ==> k in s.timers || k in h.acks)
  {
    RunInv(session, p, start, events);
  }

  /** Only whole frames go out: the wire is the cuts of the frames sent, in order. */
  lemma WireIsWholeFrames(session: Text, p: ViewParams, start: real, events: seq<Event>)
    requires InCeiling(p)
    ensures Fresh(session, p, start).adapter.Valid()
    ensures var h := Run(Fresh(session, p, start), events).history;
            && h.out == AllParts(session, h.sends)
            && (forall i :: 0 <= i < |h.sends| ==>
                  && CutFrame(session, i + 1, h.sends[i].at, h.sends[i].data).Some?
                  && IsCut(session, i + 1, h.sends[i].at, h.sends[i].data,
                           CutFrame(session, i + 1, h.sends[i].at, h.sends[i].data).value))
  {
    RunInv(session, p, start, events);
    SessionNeverChanges(Fresh(session, p, start), events);
    SendsAreCut(session, Run(Fresh(session, p, start), events).history.sends);
  }

  lemma SendsAreCut(session: Text, sends: seq<Send>)
    requires forall i :: 0 <= i < |sends| ==> |sends[i].data| <= MAX_PARTS * PART_CHARS
    ensures forall i :: 0 <= i < |sends| ==>
              && CutFrame(session, i + 1, sends[i].at, sends[i].data).Some?
              && IsCut(session, i + 1, sends[i].at, sends[i].data,
                       CutFrame(session, i + 1, sends[i].at, sends[i].data).value)
  {
    forall i | 0 <= i < |sends|
      ensures var r := CutFrame(session, i + 1, sends[i].at, sends[i].data);
              r.Some? && IsCut(session, i + 1, sends[i].at, sends[i].data, r.value)
    {
      CutFrameIsCut(session, i + 1, sends[i].at, sends[i].data);
    }
  }

  lemma SessionStays(s: Stream, e: Event)
    requires s.adapter.Valid()
    ensures Step(s, e).session == s.session
  {
    if Enabled(s, e) && !e.FrameAt? && !e.AckAt? && !e.ReleaseFires? { OthersAreQuiet(s, e); }
  }

  lemma {:induction false} SessionNeverChanges(s: Stream, events: seq<Event>)
    requires s.adapter.Valid()
    ensures Run(s, events).session == s.session
  {
    if events != [] {
      SessionNeverChanges(s, events[..|events| - 1]);
      SessionStays(Run(s, events[..|events| - 1]), events[|events| - 1]);
    }
  }

  /** The same as far as an end and what goes out are concerned. */
  predicate SaysNothing(s: Stream, s': Stream) {
    && s'.stopped
    && s'.history.out == s.history.out
    && s'.history.acks == s.history.acks
    && s'.history.endReason == s.history.endReason
  }

  lemma StoppedTasksSayNothing(s: Stream, e: Event)
    requires s.adapter.Valid() && s.stopped && Enabled(s, e) && (e.Opened? || e.OpenRejected? || e.StopReturned?)
    ensures SaysNothing(s, Step(s, e))
  {
    match e
    case Opened(t, h) =>
    case OpenRejected(t) => assert SaysNothing(s, Failed(s, t));
    case StopReturned(t, ok) =>
      var r := NoteReturned(s, t);
      assert SaysNothing(r, Failed(r, t));
      assert SaysNothing(r, AfterStop(r, t, ok));
  }

  lemma StoppedStaysSilent(s: Stream, e: Event)
    requires s.adapter.Valid() && HandleInv(s) && s.stopped
    ensures SaysNothing(s, Step(s, e))
  {
    if Enabled(s, e) {
      match e
      case FrameAt(now, canWrite, base64) => assert Step(s, e) == At(s, now);
      case TickAt(_) =>
      case AckAt(now, seqNo) => assert SaysNothing(s, OnAck(s, now, seqNo));
      case ReleaseFires(k) =>
      case Finish(_) =>
      case EndCalled =>
      case _ => StoppedTasksSayNothing(s, e);
    }
  }

  /** A stream that has stopped sends nothing and hands nothing back. */
  lemma {:induction false} StoppedIsSilent(s: Stream, events: seq<Event>)
    requires s.adapter.Valid() && HandleInv(s) && WidthInv(s) && s.stopped
    ensures var s' := Run(s, events);
            && HandleInv(s') && WidthInv(s') && s'.stopped
            && s'.history.out == s.history.out
            && s'.history.acks == s.history.acks
            && s'.history.endReason == s.history.endReason
  {
    if events != [] {
      StoppedIsSilent(s, events[..|events| - 1]);
      HandleInvStep(Run(s, events[..|events| - 1]), events[|events| - 1]);
      StoppedStaysSilent(Run(s, events[..|events| - 1]), events[|events| - 1]);
    }
  }
}

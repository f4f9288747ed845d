/** One live view stream: a screencast opened and closed across awaits, frames
    paced against a clock, and a restart when the quality ladder moves the width.
    (src/helper/operator-view-hub.ts, `Stream`)

    Every `await` ends a step. A suspended activation of `begin`, `#retune` or
    `end` is a `Task`; the step that resumes it names it. */
module ViewStream {
  import opened Json
  import opened ViewRules

  type Handle = nat

  type TaskId = nat

  /** Where an async activation is suspended, and on what. */
  datatype Task =
    | BeginOpening
    | BeginClosing(of: Handle)
    | Stopping(level: ViewLevel, closing: Option<Handle>)
    | Reopening
    | Reclosing(of: Handle)
    | Ending(of: Handle)
  {
    /** The handle whose `stop()` is awaited. */
    function Closes(): Option<Handle> {
      match this
      case BeginOpening => None
      case Reopening => None
      case Stopping(_, closing) => closing
      case BeginClosing(h) => Some(h)
      case Reclosing(h) => Some(h)
      case Ending(h) => Some(h)
    }
  }

  datatype StopReason =
    | Daemon | SessionClosed | ChannelDown | ChannelClosed | Stalled | PageClosed | SourceError

  datatype Inflight = Inflight(seqNo: nat, sentAt: real)

  /** History: one frame that went out, the interval in force then, and its ack. */
  datatype Send = Send(at: real, interval: real, seqNo: nat, data: Text, acked: Option<real>)

  /** History: one screencast frame handed back to the browser, and when. */
  datatype Release = Release(at: real, interval: real)

  datatype Stream = Stream(
    session: Text,
    adapter: Adapter,
    seqNo: nat,
    stopped: bool,
    handle: Option<Handle>,
    inflight: Option<Inflight>,
    lastAckAt: real,
    lastReleaseAt: real,
    nextAt: real,
    width: int,
    retuning: bool,
    ticking: bool,
    timers: set<nat>,
    nextTimer: nat,
    tasks: map<TaskId, Task>,
    nextTask: TaskId,
    history: History)

  /** What an observer outside the stream has seen; `returned` are the handles whose
      `stop()` has settled. */
  datatype History = History(
    clock: real,
    opens: set<Handle>,
    stopCalls: set<Handle>,
    returned: set<Handle>,
    sends: seq<Send>,
    releases: seq<Release>,
    acks: seq<nat>,
    out: seq<Part>,
    endReason: Option<StopReason>)

  // ---------- the steps as functions ----------

  function Interval(s: Stream): (i: real)
    requires s.adapter.Valid()
    ensures i > 0.0
  {
    1000.0 / s.adapter.Level().fps
  }

  function New(session: Text, p: ViewParams, now: real): Stream {
    Stream(session, NewAdapter(p), 0, false, None, None, now, 0.0, 0.0, 0, false, false, {}, 0, map[], 0,
           History(now, {}, {}, {}, [], [], [], [], None))
  }

  /** `begin` up to its await. */
  function Begun(s: Stream): Stream
    requires s.adapter.Valid()
  {
    s.(width := s.adapter.Level().width,
       tasks := s.tasks[s.nextTask := BeginOpening],
       nextTask := s.nextTask + 1)
  }

  /** `end` up to its await. */
  function Ended(s: Stream): Stream {
    if s.stopped then s
    else if s.handle.None? then s.(stopped := true, ticking := false, timers := {})
    else s.(stopped := true, ticking := false, timers := {}, handle := None,
            tasks := s.tasks[s.nextTask := Ending(s.handle.value)], nextTask := s.nextTask + 1,
            history := s.history.(stopCalls := s.history.stopCalls + {s.handle.value}))
  }

  /** The hub's `#finish`, run when the stream reports that it must end. */
  function Finished(s: Stream, reason: StopReason): Stream {
    if s.stopped then s
    else var e := Ended(s); e.(history := e.history.(endReason := Some(reason)))
  }

  function At(s: Stream, now: real): Stream { s.(history := s.history.(clock := now)) }

  function Released(s: Stream, now: real): Stream
    requires s.adapter.Valid()
  {
    var at := MaxReal(now, s.lastReleaseAt + Interval(s));
    var k := s.nextTimer;
    var h := s.history.(releases := s.history.releases + [Release(at, Interval(s))]);
    if at <= now then s.(lastReleaseAt := at, nextTimer := k + 1, history := h.(acks := h.acks + [k]))
    else s.(lastReleaseAt := at, nextTimer := k + 1, timers := s.timers + {k}, history := h)
  }

  /** The frame in flight once one that is overdue is counted lost. */
  function StillOut(s: Stream, now: real): Option<Inflight> {
    if s.inflight.Some? && now - s.inflight.value.sentAt > ACK_TIMEOUT_MS then None else s.inflight
  }

  function NoteLost(s: Stream): Stream {
    s.(adapter := s.adapter.(dropped := s.adapter.dropped + 1))
  }

  function SentOut(s: Stream, now: real, base64: Text, parts: seq<Part>): Stream
    requires s.adapter.Valid()
  {
    s.(seqNo := s.seqNo + 1,
       nextAt := MaxReal(s.nextAt, now) + Interval(s),
       inflight := Some(Inflight(s.seqNo + 1, now)),
       adapter := s.adapter.(sent := s.adapter.sent + 1),
       history := s.history.(
         sends := s.history.sends + [Send(now, Interval(s), s.seqNo + 1, base64, None)],
         out := s.history.out + parts))
  }

  /** A frame the rate lets through: sent, or dropped while the last one is out,
      the socket is backed up or the frame is too large. */
  function Offered(s: Stream, now: real, canWrite: bool, base64: Text): Stream
    requires s.adapter.Valid()
  {
    var t := s.(inflight := StillOut(s, now));
    if t.inflight.Some? || !canWrite then NoteLost(t)
    else
      var parts := CutFrame(t.session, t.seqNo + 1, now, base64);
      if parts.None? then NoteLost(t) else SentOut(t, now, base64, parts.value)
  }

  function OnFrame(s0: Stream, now: real, canWrite: bool, base64: Text): Stream
    requires s0.adapter.Valid()
  {
    var s1 := At(s0, now);
    if s1.stopped || s1.retuning then s1
    else
      var s := Released(s1, now);
      if now < s.nextAt - Interval(s) * 0.25 then s else Offered(s, now, canWrite, base64)
  }

  /** The history after an ack of the last frame sent. */
  function MarkAcked(sends: seq<Send>, now: real): seq<Send> {
    if sends == [] then [] else sends[..|sends| - 1] + [sends[|sends| - 1].(acked := Some(now))]
  }

  function OnAck(s0: Stream, now: real, seqNo: nat): Stream {
    var s := At(s0, now);
    if s.inflight.None? || s.inflight.value.seqNo != seqNo then s
    else s.(adapter := s.adapter.NoteAck(now - s.inflight.value.sentAt),
            lastAckAt := now,
            inflight := None,
            history := s.history.(sends := MarkAcked(s.history.sends, now)))
  }

  /** `#retune` up to its first await. */
  function Retuned(s: Stream): Stream
    requires s.adapter.Valid()
  {
    var level := s.adapter.Level();
    if level.width == s.width then s
    else s.(retuning := true,
            tasks := s.tasks[s.nextTask := Stopping(level, s.handle)],
            nextTask := s.nextTask + 1,
            history := if s.handle.None? then s.history
                       else s.history.(stopCalls := s.history.stopCalls + {s.handle.value}))
  }

  function OnTick(s0: Stream, now: real): Stream
    requires s0.adapter.Valid()
  {
    var s := At(s0, now);
    if s.stopped then s
    else if s.inflight.Some? && now - s.lastAckAt > STALL_STOP_MS then Finished(s, Stalled)
    else
      var t := s.(adapter := s.adapter.Closed());
      if s.adapter.Decide() == Same then t else Retuned(t)
  }

  predicate AwaitsOpen(s: Stream, t: TaskId) {
    t in s.tasks && (s.tasks[t].BeginOpening? || s.tasks[t].Reopening?)
  }

  predicate AwaitsStop(s: Stream, t: TaskId) { t in s.tasks && !AwaitsOpen(s, t) }

  /** `source.start` resolves with a handle. */
  function OnOpened(s: Stream, t: TaskId, h: Handle): Stream
    requires AwaitsOpen(s, t)
  {
    var open := s.(handle := Some(h), history := s.history.(opens := s.history.opens + {h}));
    if s.stopped then
      open.(tasks := s.tasks[t := if s.tasks[t].BeginOpening? then BeginClosing(h) else Reclosing(h)],
              history := open.history.(stopCalls := s.history.stopCalls + {h}))
    else if s.tasks[t].BeginOpening? then open.(tasks := s.tasks - {t}, ticking := true)
    else open.(tasks := s.tasks - {t}, retuning := false)
  }

  /** The `catch` and `finally` of `#retune`. */
  function Failed(s: Stream, t: TaskId): Stream {
    Finished(s.(handle := None, tasks := s.tasks - {t}), SourceError).(retuning := false)
  }

  function OnOpenFailed(s: Stream, t: TaskId): Stream
    requires AwaitsOpen(s, t)
  {
    if s.tasks[t].BeginOpening? then s.(tasks := s.tasks - {t}) else Failed(s, t)
  }

  /** The stop that was awaited has settled. */
  function NoteReturned(s: Stream, t: TaskId): Stream
    requires t in s.tasks
  {
    match s.tasks[t].Closes()
    case None => s
    case Some(h) => s.(history := s.history.(returned := s.history.returned + {h}))
  }

  /** `handle.stop()` settles. */
  function OnStopSettled(s: Stream, t: TaskId, ok: bool): Stream
    requires AwaitsStop(s, t)
  {
    AfterStop(NoteReturned(s, t), t, ok)
  }

  /** What a task does next. Only `#retune`'s own stop is not caught in place. */
  function AfterStop(s: Stream, t: TaskId, ok: bool): Stream
    requires AwaitsStop(s, t)
  {
    match s.tasks[t]
    case Stopping(level, _) =>
      if !ok then Failed(s, t)
      else if s.stopped then s.(tasks := s.tasks - {t}, retuning := false)
      else s.(width := level.width, tasks := s.tasks[t := Reopening])
    case Reclosing(_) => s.(tasks := s.tasks - {t}, retuning := false)
    case _ => s.(tasks := s.tasks - {t})
  }

  /** The timer of release `k` fires. */
  function OnReleaseDue(s: Stream, k: nat): Stream {
    s.(timers := s.timers - {k},
       history := if s.stopped then s.history else s.history.(acks := s.history.acks + [k]))
  }

  // ---------- the class ----------

  class StreamObject {
    const session: Text
    const adapter: ViewAdapter
    var seqNo: nat
    var stopped: bool
    var handle: Option<Handle>
    var inflight: Option<Inflight>
    var lastAckAt: real
    var lastCdpAckAt: real
    var nextAt: real
    var width: int
    var retuning: bool
    var ticking: bool
    var timers: set<nat>
    var nextTimer: nat
    var tasks: map<TaskId, Task>
    var nextTask: TaskId
    ghost var history: History

    ghost function State(): Stream
      reads this, adapter
    {
      Stream(session, adapter.State(), seqNo, stopped, handle, inflight, lastAckAt, lastCdpAckAt, nextAt,
             width, retuning, ticking, timers, nextTimer, tasks, nextTask, history)
    }

    ghost predicate Valid()
      reads this, adapter
    {
      adapter.State().Valid()
    }

    constructor (session: Text, p: ViewParams, now: real)
      ensures State() == New(session, p, now) && fresh(adapter)
    {
      this.session := session;
      adapter := new ViewAdapter(p);
      seqNo, stopped, handle, inflight := 0, false, None, None;
      lastAckAt, lastCdpAckAt, nextAt, width := now, 0.0, 0.0, 0;
      retuning, ticking, timers, nextTimer, tasks, nextTask := false, false, {}, 0, map[], 0;
      history := History(now, {}, {}, {}, [], [], [], [], None);
    }

    method Begin()
      requires Valid()
      modifies this
      ensures State() == Begun(old(State()))
    {
      width := adapter.levels[adapter.index].width;
      tasks, nextTask := tasks[nextTask := BeginOpening], nextTask + 1;
    }

    method End()
      modifies this
      ensures State() == Ended(old(State()))
    {
      if !stopped {
        stopped := true;
        ticking := false;
        timers := {};
        var h := handle;
        handle := None;
        if h.Some? {
          history := history.(stopCalls := history.stopCalls + {h.value});
          tasks, nextTask := tasks[nextTask := Ending(h.value)], nextTask + 1;
        }
      }
    }

    /** The hub's `onEnd` callback. */
    method Finish(reason: StopReason)
      modifies this
      ensures State() == Finished(old(State()), reason)
    {
      if !stopped {
        End();
        history := history.(endReason := Some(reason));
      }
    }

    method ReleaseFrame(now: real)
      requires Valid()
      modifies this
      ensures State() == Released(old(State()), now)
    {
      var at := MaxReal(now, lastCdpAckAt + 1000.0 / adapter.levels[adapter.index].fps);
      var k := nextTimer;
      nextTimer := k + 1;
      history := history.(releases := history.releases + [Release(at, Interval(State()))]);
      lastCdpAckAt := at;
      if at <= now {
        history := history.(acks := history.acks + [k]);
      } else {
        timers := timers + {k};
      }
    }

    method Frame(now: real, canWrite: bool, base64: Text)
      requires Valid()
      modifies this, adapter
      ensures State() == OnFrame(old(State()), now, canWrite, base64)
    {
      history := history.(clock := now);
      if !stopped && !retuning {
        ReleaseFrame(now);
        var interval := 1000.0 / adapter.levels[adapter.index].fps;
        if now >= nextAt - interval * 0.25 {
          Offer(now, canWrite, base64);
        }
      }
    }

    /** The rest of `#onFrame`, once the frame rate lets the frame through. */
    method Offer(now: real, canWrite: bool, base64: Text)
      requires Valid()
      modifies this, adapter
      ensures State() == Offered(old(State()), now, canWrite, base64)
    {
      if inflight.Some? && now - inflight.value.sentAt > ACK_TIMEOUT_MS {
        inflight := None;
      }
      if inflight.Some? || !canWrite {
        adapter.NoteDropped();
      } else {
        var parts := FrameParts(session, seqNo + 1, now, base64);
        if parts.None? {
          adapter.NoteDropped();
        } else {
          SendParts(now, base64, parts.value);
        }
      }
    }

    method SendParts(now: real, base64: Text, parts: seq<Part>)
      requires Valid()
      modifies this, adapter
      ensures State() == SentOut(old(State()), now, base64, parts)
    {
      var next := seqNo + 1;
      var interval := 1000.0 / adapter.levels[adapter.index].fps;
      seqNo := next;
      nextAt := MaxReal(nextAt, now) + interval;
      inflight := Some(Inflight(next, now));
      history := history.(sends := history.sends + [Send(now, interval, next, base64, None)],
                          out := history.out + parts);
      adapter.NoteSent();
    }

    method Ack(now: real, ackSeq: nat)
      modifies this, adapter
      ensures State() == OnAck(old(State()), now, ackSeq)
    {
      history := history.(clock := now);
      if inflight.Some? && inflight.value.seqNo == ackSeq {
        adapter.NoteAck(now - inflight.value.sentAt);
        lastAckAt := now;
        inflight := None;
        history := history.(sends := MarkAcked(history.sends, now));
      }
    }

    method Tick(now: real)
      requires Valid()
      modifies this, adapter
      ensures State() == OnTick(old(State()), now)
    {
      history := history.(clock := now);
      if !stopped {
        if inflight.Some? && now - lastAckAt > STALL_STOP_MS {
          Finish(Stalled);
        } else {
          var move := adapter.CloseWindow();
          if move != Same {
            Retune(adapter.levels[adapter.index]);
          }
        }
      }
    }

    method Retune(level: ViewLevel)
      requires Valid() && level == adapter.State().Level()
      modifies this
      ensures State() == Retuned(old(State()))
    {
      if level.width != width {
        retuning := true;
        if handle.Some? {
          history := history.(stopCalls := history.stopCalls + {handle.value});
        }
        tasks, nextTask := tasks[nextTask := Stopping(level, handle)], nextTask + 1;
      }
    }

    method OpenReturned(t: TaskId, h: Handle)
      requires AwaitsOpen(State(), t)
      modifies this
      ensures State() == OnOpened(old(State()), t, h)
    {
      var begin := tasks[t].BeginOpening?;
      handle := Some(h);
      history := history.(opens := history.opens + {h});
      if stopped {
        history := history.(stopCalls := history.stopCalls + {h});
        tasks := tasks[t := if begin then BeginClosing(h) else Reclosing(h)];
      } else {
        tasks := tasks - {t};
        if begin { ticking := true; } else { retuning := false; }
      }
    }

    method OpenFailed(t: TaskId)
      requires AwaitsOpen(State(), t)
      modifies this
      ensures State() == OnOpenFailed(old(State()), t)
    {
      var begin := tasks[t].BeginOpening?;
      tasks := tasks - {t};
      if !begin {
        handle := None;
        Finish(SourceError);
        retuning := false;
      }
    }

    method StopSettled(t: TaskId, ok: bool)
      requires AwaitsStop(State(), t)
      modifies this
      ensures State() == OnStopSettled(old(State()), t, ok)
    {
      var task := tasks[t];
      if task.Closes().Some? {
        history := history.(returned := history.returned + {task.Closes().value});
      }
      if task.Stopping? && ok && !stopped {
        width := task.level.width;
        tasks := tasks[t := Reopening];
      } else {
        tasks := tasks - {t};
        if task.Stopping? && !ok {
          handle := None;
          Finish(SourceError);
        }
        if task.Stopping? || task.Reclosing? { retuning := false; }
      }
    }

    method ReleaseDue(k: nat)
      modifies this
      ensures State() == OnReleaseDue(old(State()), k)
    {
      timers := timers - {k};
      if !stopped {
        history := history.(acks := history.acks + [k]);
      }
    }
  }
}

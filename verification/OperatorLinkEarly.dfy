/** When the channel speaks of a request before its daemon is proven: a `resolved` for a
    request that ends during the handshake. (src/helper/operator-channel.ts:218-222,331-339) */
module OperatorLinkEarly {
  import opened Json
  import opened OperatorProtocol
  import Frames = OperatorFrames
  import opened OperatorLink
  import opened OperatorLinkRuns
  import opened OperatorLinkHistory

  /** Between the two an end was said on a connection whose daemon is not proven. */
  predicate SaysEarly(l: Link, l': Link) {
    exists k :: |l.history.wire| <= k < |l'.history.wire| && SaysSomeResolved(l'.history.wire[k])
                && l'.history.wire[k].conn !in l'.history.proven
  }

  /** The ask is neither a repeat nor refused, but goes into the pending table. */
  predicate IsEnqueued(l: Link, e: Event)
    requires e.Asked?
  {
    var frame, cls := Frames.RequestOf(e.id, e.ask, e.now), Frames.ClassOf(e.ask.prompt);
    var key := Frames.DedupeKey(cls, frame);
    !(key.Some? && key.value in l.pageAsks) && HasRoom(l.pending, cls, frame.session)
  }

  /** The event ends a request on this side: its timer, its signal, or a signal that had
      fired before it was asked. */
  predicate EndsHere(l: Link, e: Event) {
    && Enabled(l, e)
    && (e.TimerFires? || e.AbortFires? || (e.Asked? && e.signal.AbortedSignal? && IsEnqueued(l, e)))
  }

  /** The hello has gone out, or is about to, on a socket still standing. */
  predicate Greeting(l: Link) { l.state.HelloSent? && l.sock.Some? && l.sock.value !in l.destroyed }

  lemma FinishSays(c: Config, l: Link, id: AskId, outcome: Frames.Outcome, who: Frames.Answerer, why: Failure)
    requires ConnInv(c, l) && id in l.promises && |id| == Frames.ID_CHARS
    ensures SaysEarly(l, Finish(l, id, outcome, who, why)) <==> Greeting(l)
  {
    var l' := Finish(l, id, outcome, who, why);
    EndedShape(l, id, outcome, who, Failed(why));
    assert l' == Ended(l, id, outcome, who, Failed(why));
    SettleGrows(l, id, Failed(why));
    if l.sock.Some? && l.sock.value !in l.destroyed {
      var w := Written(l.sock.value, Note(Frames.Resolved(id, outcome, who)));
      assert l'.history.wire == l.history.wire + [w];
      assert SaysSomeResolved(l'.history.wire[|l.history.wire|]);
    }
  }

  lemma EnqueueSays(c: Config, n: Link, p: Pending)
    requires ConnInv(c, n) && |p.id| == Frames.ID_CHARS
    ensures SaysEarly(n, Enqueue(n, p)) <==> p.signal.AbortedSignal? && Greeting(n)
  {
    var q := n.(pending := n.pending + [p], promises := n.promises[p.id := None]);
    if p.signal.AbortedSignal? {
      ConnStays(c, n, q);
      FinishSays(c, q, p.id, Frames.Aborted, Frames.ByBrowxai, Detached);
      var l' := Finish(q, p.id, Frames.Aborted, Frames.ByBrowxai, Detached);
      assert Enqueue(n, p) == l' && SaysEarly(n, l') == SaysEarly(q, l');
    } else if q.state.Ready? {
      SendCases(q, Line.Ask(p.frame));
      assert Enqueue(n, p) == Send(q, Line.Ask(p.frame));
    }
  }

  lemma AskSays(c: Config, l: Link, e: Event)
    requires Inv(c, l) && e.Asked? && Enabled(l, e)
    ensures SaysEarly(l, Step(c, l, e)) <==> Greeting(l) && e.signal.AbortedSignal? && IsEnqueued(l, e)
  {
    if l.state.Closed? {
      assert Step(c, l, e) == Reject(l, e.id, ChannelClosed);
    } else {
      var frame, cls := Frames.RequestOf(e.id, e.ask, e.now), Frames.ClassOf(e.ask.prompt);
      var key := Frames.DedupeKey(cls, frame);
      var p := Pending(e.id, cls, frame.session, frame, Frames.RulesOf(e.ask.prompt), e.signal);
      var n := Noted(l, e.id, e.ask.prompt, key);
      NoAskIsTooLarge(l, e.id, e.ask, e.now, e.signal);
      assert Step(c, l, e) == AskedOnce(n, p, key);
      if IsEnqueued(l, e) {
        ConnStays(c, l, n);
        EnqueueSays(c, n, p);
        SameWire(Enqueue(n, p), AskedOnce(n, p, key), l, n);
      } else {
        NotEnqueued(n, p, key);
      }
    }
  }

  lemma SameWire(x: Link, y: Link, l: Link, n: Link)
    requires x.history.wire == y.history.wire && x.history.proven == y.history.proven
    requires l.history.wire == n.history.wire
    ensures SaysEarly(n, x) <==> SaysEarly(l, y)
  {
  }

  lemma NotEnqueued(n: Link, p: Pending, key: Option<Frames.Key>)
    requires (key.Some? && key.value in n.pageAsks) || !HasRoom(n.pending, p.cls, p.session)
    ensures AskedOnce(n, p, key).history.wire == n.history.wire
  {
  }

  /** In every reachable state: an event has a `resolved` go out where the daemon is not
      proven if and only if the handshake is still at its hello on a standing socket and
      the event ends a pending request by its timer or its signal, or enqueues one whose
      signal had fired. */
  lemma {:induction false} EarlyEndsExactly(
    c: Config, check: SocketCheck, nonce: Text, events: seq<Event>, e: Event)
    requires ValidConfig(c) && |nonce| == 32
    ensures var l := Run(c, Started(check, nonce), events);
            SaysEarly(l, Step(c, l, e)) <==> Greeting(l) && EndsHere(l, e)
  {
    RunInv(c, check, nonce, events);
    var l := Run(c, Started(check, nonce), events);
    if Elsewhere(e) {
      ElsewhereAdds(c, l, e);
    } else if Enabled(l, e) {
      match e
      case Asked(_, _, _, _) => AskSays(c, l, e);
      case TimerFires(id) =>
        assert PendingOk(l.history, Find(l.pending, id).value);
        FinishSays(c, l, id, Frames.TimedOut, Frames.ByTimeout, TimedOut);
      case AbortFires(id) =>
        assert PendingOk(l.history, Find(l.pending, id).value);
        FinishSays(c, l, id, Frames.Aborted, Frames.ByBrowxai, Detached);
    }
  }

  function HumanPending(id: AskId, ask: Frames.Ask, now: Frames.Number): Pending {
    var frame := Frames.RequestOf(id, ask, now);
    Pending(id, Frames.HumanClass, frame.session, frame, Frames.RulesOf(ask.prompt), NoSignal)
  }

  lemma HumanIsEnqueued(l: Link, id: AskId, ask: Frames.Ask, now: Frames.Number)
    requires |id| == Frames.ID_CHARS && ask.prompt.Human?
    requires l.pending == [] && l.state.HelloSent?
    ensures OnAsk(l, id, ask, now, NoSignal)
         == Noted(l, id, ask.prompt, None).(pending := [HumanPending(id, ask, now)], promises := l.promises[id := None])
  {
    NoAskIsTooLarge(l, id, ask, now, NoSignal);
  }

  lemma FinishIsEnded(l: Link, id: AskId, outcome: Frames.Outcome, who: Frames.Answerer, why: Failure)
    ensures Finish(l, id, outcome, who, why) == Ended(l, id, outcome, who, Failed(why))
  {
  }

  lemma TimeoutIsSaid(l: Link, id: AskId, conn: Conn)
    requires |id| == Frames.ID_CHARS && l.sock == Some(conn) && conn !in l.destroyed && id in l.promises
    ensures var l' := Finish(l, id, Frames.TimedOut, Frames.ByTimeout, TimedOut);
            var said := Written(conn, Note(Frames.Resolved(id, Frames.TimedOut, Frames.ByTimeout)));
            && l'.history.wire == l.history.wire + [said]
            && l'.history.proven == l.history.proven && l'.history.greeted == l.history.greeted
  {
    var s := Settle(l, id, Failed(TimedOut));
    SettleLeaves(l, id, Failed(TimedOut));
    EndedShape(l, id, Frames.TimedOut, Frames.ByTimeout, Failed(TimedOut));
    FinishIsEnded(l, id, Frames.TimedOut, Frames.ByTimeout, TimedOut);
    assert Ended(l, id, Frames.TimedOut, Frames.ByTimeout, Failed(TimedOut))
        == Wrote(s, Written(conn, Note(Frames.Resolved(id, Frames.TimedOut, Frames.ByTimeout))));
  }

  lemma SettleLeaves(l: Link, id: AskId, r: Result)
    ensures Settle(l, id, r).history.wire == l.history.wire && Settle(l, id, r).history.proven == l.history.proven
    ensures Settle(l, id, r).history.greeted == l.history.greeted
  {
  }

  /** A human prompt that times out on a socket just dialled: the first line to go out is
      its `resolved`, before the hello and with no daemon proven. */
  lemma {:induction false} FirstLineIsResolved(
    c: Config, nonce: Text, id: AskId, ask: Frames.Ask, now: Frames.Number)
    requires ValidConfig(c) && |nonce| == 32 && |id| == Frames.ID_CHARS && ask.prompt.Human?
    ensures var l := Run(c, Started(SocketOk, nonce), [Asked(id, ask, now, NoSignal), TimerFires(id)]);
            && l.history.wire == [Written(0, Note(Frames.Resolved(id, Frames.TimedOut, Frames.ByTimeout)))]
            && l.history.proven == map[] && l.history.greeted == {}
  {
    var start, asks := Started(SocketOk, nonce), [Asked(id, ask, now, NoSignal)];
    var l := OnAsk(start, id, ask, now, NoSignal);
    HumanIsEnqueued(start, id, ask, now);
    assert Find(l.pending, id).Some?;
    TimeoutIsSaid(l, id, 0);
    RunTwo(c, start, asks[0], TimerFires(id));
    assert asks + [TimerFires(id)] == [asks[0], TimerFires(id)];
  }
}

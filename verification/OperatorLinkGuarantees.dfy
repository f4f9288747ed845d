/** What the operator channel promises, over every run: who may answer, how often, under
    which limits, and what goes out to whom. (src/helper/operator-channel.ts) */
module OperatorLinkGuarantees {
  import opened Json
  import opened OperatorProtocol
  import Frames = OperatorFrames
  import opened OperatorLink
  import opened OperatorLinkRuns
  import opened OperatorLinkHistory
  import Inbound = OperatorLinkInbound
  import Talk = OperatorLinkTalk

  /** The event at `k` is an ask that reached the channel. */
  predicate Asks(c: Config, start: Link, events: seq<Event>, k: nat) {
    k < |events| && events[k].Asked? && Enabled(Run(c, start, events[..k]), events[k])
  }

  lemma {:induction false} AsksAreKept(c: Config, check: SocketCheck, nonce: Text, events: seq<Event>, k: nat)
    requires ValidConfig(c) && |nonce| == 32 && Asks(c, Started(check, nonce), events, k)
    ensures events[k].id in Run(c, Started(check, nonce), events).promises
  {
    var start, front := Started(check, nonce), events[..|events| - 1];
    RunInv(c, check, nonce, front);
    StepGrows(c, Run(c, start, front), events[|events| - 1]);
    if k < |front| {
      assert front[..k] == events[..k];
      AsksAreKept(c, check, nonce, front, k);
    } else {
      assert front == events[..k];
    }
  }

  /** Every ask has a promise, which settles exactly once, with one result, and is open
      exactly while it is pending or waits on the prompt it repeats. */
  lemma {:induction false} EveryAskSettlesOnce(c: Config, check: SocketCheck, nonce: Text, events: seq<Event>)
    requires ValidConfig(c) && |nonce| == 32
    ensures var l := Run(c, Started(check, nonce), events);
            && (forall k: nat :: Asks(c, Started(check, nonce), events, k) ==> events[k].id in l.promises)
            && (forall i, j :: 0 <= i < j < |l.history.settled| ==> l.history.settled[i].id != l.history.settled[j].id)
            && (forall id, r :: id in l.promises ==>
                  (l.promises[id] == Some(r) <==> Settled(id, r) in l.history.settled))
            && (forall id :: id in l.promises ==>
                  (l.promises[id].None? <==> Find(l.pending, id).Some? || id in l.joins))
  {
    RunInv(c, check, nonce, events);
    forall k: nat | Asks(c, Started(check, nonce), events, k)
      ensures events[k].id in Run(c, Started(check, nonce), events).promises
    {
      AsksAreKept(c, check, nonce, events, k);
    }
  }

  /** The daemon is told that a request is over once at the most, and only once it is,
      whichever of timer, abort and answer came first; and it is told what the asker got:
      the decision that was taken, a timeout, or an abort. */
  lemma {:induction false} ResolvedIsSaidOnce(c: Config, check: SocketCheck, nonce: Text, events: seq<Event>)
    requires ValidConfig(c) && |nonce| == 32
    ensures var l := Run(c, Started(check, nonce), events);
            && (forall i, j :: 0 <= i < j < |l.history.wire| ==>
                  !(SaysSomeResolved(l.history.wire[i])
                    && SaysResolved(l.history.wire[j], l.history.wire[i].line.notice.id)))
            && (forall w :: w in l.history.wire && SaysSomeResolved(w) ==>
                  var n := w.line.notice;
                  && n.id in l.promises && l.promises[n.id].Some? && Find(l.pending, n.id).None?
                  && Settled(n.id, l.promises[n.id].value) in l.history.settled
                  && TellsOf(n.outcome, n.who, l.promises[n.id].value))
  {
    RunInv(c, check, nonce, events);
    ResolvedAreOver(Run(c, Started(check, nonce), events));
  }

  lemma ResolvedAreOver(l: Link)
    requires PendInv(l) && ResolvedInv(l)
    ensures forall w :: w in l.history.wire && SaysSomeResolved(w) ==>
              IsSo(l.promises, w.line.notice) && Find(l.pending, w.line.notice.id).None?
  {
  }

  /** There is never both a socket and a retry timer; while the channel is down and
      not closed a retry is armed; no nonce serves twice; the backoff keeps its bounds; a closed channel
      has no socket, no timer and no request. */
  lemma {:induction false} ConnectionKeepsItsRules(c: Config, check: SocketCheck, nonce: Text, events: seq<Event>)
    requires ValidConfig(c) && |nonce| == 32
    ensures var l := Run(c, Started(check, nonce), events);
            && !(l.sock.Some? && l.retry.Some?)
            && (l.sock.None? && !l.state.Closed? ==> l.retry.Some?)
            && (forall j, k :: j in l.history.nonces && k in l.history.nonces && j != k ==>
                  l.history.nonces[j] != l.history.nonces[k])
            && BACKOFF_START_MS <= l.backoff <= BACKOFF_MAX_MS
            && (l.retry.Some? ==> BACKOFF_START_MS <= l.retry.value <= BACKOFF_MAX_MS)
            && (l.state.Closed? ==> l.sock.None? && l.retry.None? && !l.handshake && l.pending == [])
  {
    RunInv(c, check, nonce, events);
  }

  lemma ClosedStep(c: Config, l: Link, e: Event)
    requires l.state.Closed? && l.sock.None? && l.retry.None? && l.pending == []
    ensures var l' := Step(c, l, e); l'.state.Closed? && l'.history.wire == l.history.wire
  {
    match e
    case DataArrives(_, _) => assert Step(c, l, e) == l;
    case RetryFires(_, _) => assert Step(c, l, e) == l;
    case _ =>
  }

  /** Closed is for good, and a closed channel writes nothing. */
  lemma {:induction false} ClosedIsForGood(c: Config, l: Link, events: seq<Event>)
    requires Inv(c, l) && l.state.Closed?
    ensures var l' := Run(c, l, events);
            Inv(c, l') && l'.state.Closed? && l'.pending == [] && l'.history.wire == l.history.wire
  {
    if events != [] {
      ClosedIsForGood(c, l, events[..|events| - 1]);
      StepKeeps(c, Run(c, l, events[..|events| - 1]), events[|events| - 1]);
      ClosedStep(c, Run(c, l, events[..|events| - 1]), events[|events| - 1]);
    }
  }

  /** While the channel is ready on a live socket every pending request has been
      written on that connection, under the id it was made with. */
  lemma {:induction false} PendingIsOnTheWire(c: Config, check: SocketCheck, nonce: Text, events: seq<Event>)
    requires ValidConfig(c) && |nonce| == 32
    ensures var l := Run(c, Started(check, nonce), events);
            l.state.Ready? && l.sock.Some? && l.sock.value !in l.destroyed ==>
              forall p :: p in l.pending ==>
                p.frame.id == p.id && Written(l.sock.value, Line.Ask(p.frame)) in l.history.wire
  {
    RunInv(c, check, nonce, events);
    var l := Run(c, Started(check, nonce), events);
    forall p | p in l.pending ensures p.frame.id == p.id { assert PendingOk(l.history, p); }
  }

  /** A request only ever goes out on a connection on which the daemon has answered
      that connection's own nonce with the keyed hash. */
  lemma {:induction false} RequestsGoToTheDaemon(c: Config, check: SocketCheck, nonce: Text, events: seq<Event>)
    requires ValidConfig(c) && |nonce| == 32
    ensures var l := Run(c, Started(check, nonce), events);
            forall w :: w in l.history.wire && w.line.Ask? ==> Proved(c, l.history, w.conn)
  {
    RunInv(c, check, nonce, events);
  }

  /** The grant, if there is one, belongs to an approve of a grantable prompt, and
      runs between a second and a day. */
  predicate GrantAllowed(prompt: Frames.Prompt, a: Answer) {
    a.grant.Some? ==>
      && a.decision == Approve && prompt.Approval? && prompt.grantable.Some?
      && 1 <= a.grant.value.ttlSeconds <= MAX_GRANT_TTL_SECONDS
  }

  lemma AnswerFitsPrompt(h: History, id: AskId, a: Answer, r: Reading)
    requires Backs(h, id, a, r)
    ensures DecisionOf(r.fields) == Some(a.decision) && GrantAllowed(h.prompts[id], a)
    ensures if h.prompts[id].Approval? then a.decision == Approve || a.decision == Deny
            else a.decision == Done || a.decision == Abort
  {
    assert a.decision in Frames.RulesOf(h.prompts[id]).answers;
  }

  /** Nothing approves on its own: whenever an ask is answered, an answer frame that
      names its request and spells that decision was read in state `ready`, from a line
      heard on a connection whose own fresh nonce the daemon had answered, and passed
      under the rules `requestFrame` made for the prompt. */
  lemma {:induction false} NothingApprovesOnItsOwn(
    c: Config, check: SocketCheck, nonce: Text, events: seq<Event>, id: AskId, a: Answer)
    requires ValidConfig(c) && |nonce| == 32
    requires Settled(id, Answered(a)) in Run(c, Started(check, nonce), events).history.settled
    ensures var h := Run(c, Started(check, nonce), events).history;
            exists r :: r in h.readings && Backs(h, Root(h, id), a, r)
                        && Proved(c, h, r.conn.value) && IsHeard(c, h, r)
                        && DecisionOf(r.fields) == Some(a.decision)
                        && GrantAllowed(h.prompts[Root(h, id)], a)
  {
    RunInv(c, check, nonce, events);
    var l := Run(c, Started(check, nonce), events);
    assert Backed(l.history, Root(l.history, id), a);
    var r :| r in l.history.readings && Backs(l.history, Root(l.history, id), a, r);
    AnswerFitsPrompt(l.history, Root(l.history, id), a, r);
    Inbound.ReadingsAreHeard(c, check, nonce, events);
    assert Proved(c, l.history, r.conn.value);
  }

  /** Every class and every session within it keeps its limit, so the total cap of
      32 holds as well, and no two page prompts that are out are the same. */
  lemma {:induction false} LimitsHold(c: Config, check: SocketCheck, nonce: Text, events: seq<Event>)
    requires ValidConfig(c) && |nonce| == 32
    ensures var l := Run(c, Started(check, nonce), events);
            && (forall cls :: CountClass(l.pending, cls) <= Frames.ClassLimit(cls))
            && (forall cls, s :: CountSession(l.pending, cls, s) <= Frames.SessionLimit(cls))
            && |l.pending| <= Frames.MAX_PENDING
            && (forall p, q :: p in l.pending && q in l.pending && SamePage(p, q) ==> p.id == q.id)
  {
    RunInv(c, check, nonce, events);
    var l := Run(c, Started(check, nonce), events);
    CountsAddUp(l.pending);
    assert CountClass(l.pending, Frames.Hook) <= 12 && CountClass(l.pending, Frames.HumanClass) <= 12
        && CountClass(l.pending, Frames.Page) <= 8;
    forall p | p in l.pending ensures PendingOk(l.history, p) {}
  }

  /** Two page prompts with the same session, scope, tool and summary. */
  predicate SamePage(p: Pending, q: Pending) {
    && p.cls.Page? && q.cls.Page? && p.frame.body.ApprovalBody? && q.frame.body.ApprovalBody?
    && Frames.DedupeKey(p.cls, p.frame) == Frames.DedupeKey(q.cls, q.frame)
  }

  lemma {:induction false} CountsAddUp(ps: seq<Pending>)
    ensures CountClass(ps, Frames.Hook) + CountClass(ps, Frames.HumanClass) + CountClass(ps, Frames.Page) == |ps|
  {
    if ps != [] { CountsAddUp(ps[..|ps| - 1]); }
  }

  /** The check of the total never refuses what the class limits would let in. */
  lemma {:induction false} TotalCapIsRedundant(ps: seq<Pending>, cls: Frames.PromptClass, s: Text)
    requires LimitInv(ps)
    ensures HasRoom(ps, cls, s) <==>
              CountClass(ps, cls) < Frames.ClassLimit(cls) && CountSession(ps, cls, s) < Frames.SessionLimit(cls)
  {
    CountsAddUp(ps);
    assert CountClass(ps, Frames.Hook) <= 12 && CountClass(ps, Frames.HumanClass) <= 12
        && CountClass(ps, Frames.Page) <= 8;
  }

  /** A repeat has the key of the prompt it repeats, and ends exactly as that did,
      unless its own signal aborted it first. */
  lemma {:induction false} RepeatsEndTheSame(c: Config, check: SocketCheck, nonce: Text, events: seq<Event>)
    requires ValidConfig(c) && |nonce| == 32
    ensures var l := Run(c, Started(check, nonce), events);
            forall j :: j in l.history.joined ==>
              var first := l.history.joined[j];
              && j in l.promises && first in l.promises
              && j in l.history.keys && first in l.history.keys && l.history.keys[j] == l.history.keys[first]
              && (l.promises[j].None? || l.promises[j] == l.promises[first]
                  || (j in l.history.aborted && l.promises[j] == Some(Failed(Detached))))
  {
    RunInv(c, check, nonce, events);
    var l := Run(c, Started(check, nonce), events);
    forall j | j in l.history.joined ensures JoinOk(l.promises, l.history, j) {}
  }

  /** The lines that the live view is given to send are within the limit. */
  ghost predicate ViewLinesFit(events: seq<Event>) {
    forall e :: e in events && e.ViewSends? ==> Frames.LineBytes(e.pairs) <= MAX_FRAME_BYTES
  }

  /** The limit on a line never keeps back a line of the channel's own, and nothing at all
      when the live view's lines are within it. */
  lemma {:induction false} NothingOwnIsTooLong(c: Config, check: SocketCheck, nonce: Text, events: seq<Event>)
    requires ValidConfig(c) && |nonce| == 32
    ensures forall x :: x in Run(c, Started(check, nonce), events).history.refused ==> x.View?
    ensures ViewLinesFit(events) ==> Run(c, Started(check, nonce), events).history.refused == []
  {
    RunInv(c, check, nonce, events);
    if ViewLinesFit(events) && events != [] {
      var front, e := events[..|events| - 1], events[|events| - 1];
      NothingOwnIsTooLong(c, check, nonce, front);
      RunInv(c, check, nonce, front);
      assert e in events;
      var l := Run(c, Started(check, nonce), front);
      if e.ViewSends? { Talk.ViewStepFits(c, l, e); } else { Talk.OwnStepFits(c, l, e); }
    }
  }
}

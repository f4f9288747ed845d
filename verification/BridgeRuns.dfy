/** What every run of a session's human channel keeps: the answer comes by the one
    route in force, to one waiter, from a context of the bridge's own world.
    (src/helper/bridge.ts) */
module BridgeRuns {
  import opened Json
  import opened OperatorProtocol
  import Frames = OperatorFrames
  import Link = OperatorLink
  import opened Bridge

  datatype Event =
    | Awaits(id: WaitId, name: Option<Text>, timeoutMs: int, ticket: Option<Text>, prompt: Option<Frames.Prompt>)
    | TimerFires(id: WaitId)
    | OperatorAnswers(id: WaitId, result: Link.Result)
    | Detaches
    | Wires(page: Page)
    | Wired(chan: Chan)
    | PageCloses(page: Page)
    | Reports(e: ContextEvent)
    | Calls(chan: Chan, context: Context, own: bool, payload: Option<Signal>)

  /** Wait ids are fresh; a timer fires only until its waiter is gone; the channel
      answers what it was asked; CDP speaks only of pages the bridge opened. */
  predicate Enabled(b: State, e: Event) {
    match e
    case Awaits(id, _, _, _, _) => id !in b.results
    case TimerFires(id) =>
      IndexOf(b.waiters, id) < |b.waiters| && b.waiters[IndexOf(b.waiters, id)].timed
    case OperatorAnswers(id, _) => id in b.asked
    case Wired(chan) => chan in b.chans
    case Reports(c) => c.chan in b.chans
    case Calls(chan, _, _, _) => chan in b.chans
    case _ => true
  }

  /** An event that cannot happen now changes nothing. */
  function Step(operator: bool, world: Text, b: State, e: Event): State {
    if !Enabled(b, e) then b
    else match e
      case Awaits(id, name, timeoutMs, ticket, prompt) => OnAwait(b, operator, id, name, timeoutMs, ticket, prompt)
      case TimerFires(id) => OnTimer(b, id)
      case OperatorAnswers(id, r) => OnAnswered(b, id, r)
      case Detaches => OnDetach(b)
      case Wires(page) => OnWire(b, page)
      case Wired(chan) => OnWired(b, chan)
      case PageCloses(page) => OnPageClosed(b, page)
      case Reports(c) => OnContext(b, world, c)
      case Calls(chan, context, own, payload) => OnBindingCalled(b, chan, context, own, payload)
  }

  function Run(operator: bool, world: Text, b: State, events: seq<Event>): State {
    if events == [] then b
    else Step(operator, world, Run(operator, world, b, events[..|events| - 1]), events[|events| - 1])
  }

  // ---------- whose call it is ----------

  /** The context was reported as one of the bridge's own world, and neither it nor
      its page's contexts as gone since. */
  predicate Live(log: seq<ContextEvent>, world: Text, chan: Chan, context: Context) {
    if log == [] then false
    else
      var last := log[|log| - 1];
      if last.chan == chan && OfTheWorld(last, world) && last.context == context then true
      else if last.chan == chan && (last.Cleared? || (last.Destroyed? && last.context == context)) then false
      else Live(log[..|log| - 1], world, chan, context)
  }

  ghost predicate WorldInv(b: State, world: Text) {
    && (forall k :: k in b.chans ==> k < b.nextChan)
    && (forall i :: 0 <= i < |b.history.contexts| ==> b.history.contexts[i].chan < b.nextChan)
    && (forall k, x :: k in b.chans ==> (x in b.chans[k].worlds <==> Live(b.history.contexts, world, k, x)))
  }

  /** A waiter settled with this signal because of this call. */
  predicate Explains(h: History, world: Text, w: Waiter, s: Signal, c: Call) {
    && c.signal == s && Answers(w, s)
    && c.at <= |h.contexts| && Live(h.contexts[..c.at], world, c.chan, c.context)
  }

  ghost predicate Explained(h: History, world: Text, id: WaitId, s: Signal) {
    id in h.made && exists c :: c in h.calls && Explains(h, world, h.made[id], s, c)
  }

  /** A wait that the operator's answer settled. */
  predicate ByOperator(h: History, id: WaitId, r: Result) {
    id in h.answers && r == SignalOf(h.answers[id].0, h.answers[id].1)
  }

  ghost predicate SourceInv(b: State, operator: bool, world: Text) {
    forall id :: id in b.results && b.results[id].Some? && b.results[id].value.Resolved? ==>
      if operator then ByOperator(b.history, id, b.results[id].value)
      else Explained(b.history, world, id, b.results[id].value.signal)
  }

  // ---------- one settlement each ----------

  ghost predicate WaitInv(b: State, operator: bool) {
    && (forall i, j :: 0 <= i < j < |b.waiters| ==> b.waiters[i].id != b.waiters[j].id)
    && (forall w :: w in b.waiters ==>
          && w.id in b.results && b.results[w.id].None?
          && w.id in b.history.made && b.history.made[w.id] == w && w.id !in b.asked)
    && (forall id :: id in b.asked ==> id in b.results && b.results[id].None?)
    && (forall id :: id in b.results && b.results[id].None? ==>
          IndexOf(b.waiters, id) < |b.waiters| || id in b.asked)
    && (operator || b.detached ==> b.waiters == [])
    && (!operator ==> b.asked == map[])
  }

  ghost predicate SettledInv(b: State) {
    var w := b.history.settled;
    && (forall s :: s in w ==> s.id in b.results && b.results[s.id] == Some(s.result))
    && (forall id :: id in b.results && b.results[id].Some? ==> Settled(id, b.results[id].value) in w)
    && (forall i, j :: 0 <= i < j < |w| ==> w[i].id != w[j].id)
  }

  ghost predicate Inv(b: State, operator: bool, world: Text) {
    WorldInv(b, world) && SourceInv(b, operator, world) && WaitInv(b, operator) && SettledInv(b)
  }

  // ---------- what the pieces keep ----------

  lemma GiveSettled(b: State, id: WaitId, r: Result)
    requires SettledInv(b) && (id in b.results ==> b.results[id].None?)
    ensures SettledInv(Give(b, id, r))
  {
    var w, b' := b.history.settled, Give(b, id, r);
    forall s | s in w ensures s.id != id {}
    forall k | k in b'.results && b'.results[k].Some?
      ensures Settled(k, b'.results[k].value) in b'.history.settled
    {
      if k == id { assert b'.history.settled[|w|] == Settled(id, r); }
      else { assert Settled(k, b.results[k].value) in w; }
    }
  }

  /** The result may be given to this wait. */
  ghost predicate MayGive(b: State, operator: bool, world: Text, id: WaitId, r: Result) {
    r.Resolved? ==>
      if operator then ByOperator(b.history, id, r) else Explained(b.history, world, id, r.signal)
  }

  lemma GiveSource(b: State, operator: bool, world: Text, id: WaitId, r: Result)
    requires SourceInv(b, operator, world) && MayGive(b, operator, world, id, r)
    ensures SourceInv(Give(b, id, r), operator, world)
  {
    var b' := Give(b, id, r);
    forall k | k in b'.results && b'.results[k].Some? && b'.results[k].value.Resolved?
      ensures if operator then ByOperator(b'.history, k, b'.results[k].value)
              else Explained(b'.history, world, k, b'.results[k].value.signal)
    {
      if !operator { Carry(b.history, b'.history, world, k, b'.results[k].value.signal); }
    }
  }

  lemma Carry(h: History, h': History, world: Text, id: WaitId, s: Signal)
    requires Explained(h, world, id, s)
    requires id in h'.made && h'.made[id] == h.made[id]
    requires h.contexts <= h'.contexts && forall c :: c in h.calls ==> c in h'.calls
    ensures Explained(h', world, id, s)
  {
    var c :| c in h.calls && Explains(h, world, h.made[id], s, c);
    assert h'.contexts[..c.at] == h.contexts[..c.at];
    assert Explains(h', world, h'.made[id], s, c);
  }

  /** The waiter at `i` leaves the list and settles. */
  lemma TakeKeeps(b: State, operator: bool, world: Text, i: nat, r: Result)
    requires Inv(b, operator, world) && i < |b.waiters|
    requires MayGive(b, operator, world, b.waiters[i].id, r)
    ensures Inv(Give(b.(waiters := Without(b.waiters, i)), b.waiters[i].id, r), operator, world)
  {
    var id, m := b.waiters[i].id, b.(waiters := Without(b.waiters, i));
    assert b.waiters[i] in b.waiters;
    GiveSettled(m, id, r);
    GiveSource(m, operator, world, id, r);
    TakeWaits(b, operator, i, r);
  }

  lemma TakeWaits(b: State, operator: bool, i: nat, r: Result)
    requires WaitInv(b, operator) && i < |b.waiters|
    ensures WaitInv(Give(b.(waiters := Without(b.waiters, i)), b.waiters[i].id, r), operator)
  {
    var id, ws := b.waiters[i].id, Without(b.waiters, i);
    assert b.waiters[i] in b.waiters;
    OthersStay(b.waiters, i);
    forall k | k in b.results && k != id && IndexOf(b.waiters, k) < |b.waiters|
      ensures IndexOf(ws, k) < |ws|
    {
      StillThere(b.waiters, i, k);
    }
  }

  lemma OthersStay(ws: seq<Waiter>, i: nat)
    requires i < |ws| && forall j, k :: 0 <= j < k < |ws| ==> ws[j].id != ws[k].id
    ensures forall j, k :: 0 <= j < k < |Without(ws, i)| ==> Without(ws, i)[j].id != Without(ws, i)[k].id
    ensures forall w :: w in Without(ws, i) ==> w in ws && w.id != ws[i].id
  {
    var rest := Without(ws, i);
    forall w | w in rest ensures w in ws && w.id != ws[i].id {
      var j :| 0 <= j < |rest| && rest[j] == w;
      assert w == ws[if j < i then j else j + 1];
    }
  }

  lemma StillThere(ws: seq<Waiter>, i: nat, id: WaitId)
    requires i < |ws| && IndexOf(ws, id) < |ws| && ws[i].id != id
    ensures IndexOf(Without(ws, i), id) < |Without(ws, i)|
  {
    var j := IndexOf(ws, id);
    assert Without(ws, i)[if j < i then j else j - 1].id == id;
  }

  lemma SignalKeeps(b: State, world: Text, chan: Chan, context: Context, s: Signal, operator: bool)
    requires Inv(b, operator, world) && chan in b.chans && context in b.chans[chan].worlds
    ensures Inv(OnBindingCalled(b, chan, context, true, Some(s)), operator, world)
  {
    if !b.detached {
      var c := Call(chan, context, s, |b.history.contexts|);
      var m := b.(history := b.history.(calls := b.history.calls + [c]));
      CallKeeps(b, operator, world, c);
      var i := FirstMatch(b.waiters, s);
      if i < |b.waiters| {
        assert m.history.contexts[..c.at] == m.history.contexts;
        assert b.waiters[i] in b.waiters;
        assert c in m.history.calls && Explains(m.history, world, b.waiters[i], s, c);
        TakeKeeps(m, operator, world, i, Resolved(s));
      }
    }
  }

  lemma CallKeeps(b: State, operator: bool, world: Text, c: Call)
    requires Inv(b, operator, world)
    ensures Inv(b.(history := b.history.(calls := b.history.calls + [c])), operator, world)
  {
    var m := b.(history := b.history.(calls := b.history.calls + [c]));
    forall k | k in m.results && m.results[k].Some? && m.results[k].value.Resolved? && !operator
      ensures Explained(m.history, world, k, m.results[k].value.signal)
    {
      Carry(b.history, m.history, world, k, b.results[k].value.signal);
    }
  }

  lemma TimerKeeps(b: State, operator: bool, world: Text, id: WaitId)
    requires Inv(b, operator, world) && IndexOf(b.waiters, id) < |b.waiters|
    ensures Inv(OnTimer(b, id), operator, world)
  {
    TakeKeeps(b, operator, world, IndexOf(b.waiters, id), Failed(TimedOut));
  }

  lemma NewWaitKeeps(b: State, operator: bool, world: Text, id: WaitId, r: Result)
    requires Inv(b, operator, world) && id !in b.results && r.Failed?
    ensures Inv(Give(b, id, r), operator, world)
  {
    GiveSettled(b, id, r);
    GiveSource(b, operator, world, id, r);
  }

  lemma AwaitKeeps(b: State, operator: bool, world: Text, id: WaitId, name: Option<Text>, timeoutMs: int,
                   ticket: Option<Text>, prompt: Option<Frames.Prompt>)
    requires Inv(b, operator, world) && id !in b.results
    ensures Inv(OnAwait(b, operator, id, name, timeoutMs, ticket, prompt), operator, world)
  {
    if operator && b.detached {
      NewWaitKeeps(b, operator, world, id, Failed(Detached));
    } else if operator && prompt.None? {
      NewWaitKeeps(b, operator, world, id, Failed(NoOperatorForm));
    } else if operator {
      AskedKeeps(b, world, id, prompt.value);
    } else if b.detached || b.channels == map[] {
      NewWaitKeeps(b, operator, world, id, Failed(NoHumanChannel));
    } else {
      WaiterKeeps(b, world, Waiter(id, name, ticket, timeoutMs > 0));
    }
  }

  lemma AskedKeeps(b: State, world: Text, id: WaitId, prompt: Frames.Prompt)
    requires Inv(b, true, world) && id !in b.results
    ensures Inv(b.(asked := b.asked[id := prompt], results := b.results[id := None]), true, world)
  {
  }

  function Registered(b: State, w: Waiter): State {
    b.(waiters := b.waiters + [w], results := b.results[w.id := None],
       history := b.history.(made := b.history.made[w.id := w]))
  }

  lemma WaiterKeeps(b: State, world: Text, w: Waiter)
    requires Inv(b, false, world) && w.id !in b.results && !b.detached
    ensures Inv(Registered(b, w), false, world)
  {
    RegisteredWaits(b, w);
    RegisteredSources(b, world, w);
    RegisteredSettled(b, w);
  }

  lemma RegisteredWaits(b: State, w: Waiter)
    requires WaitInv(b, false) && w.id !in b.results && !b.detached
    ensures WaitInv(Registered(b, w), false)
  {
    var b' := Registered(b, w);
    forall i | 0 <= i < |b.waiters| ensures b.waiters[i].id != w.id { assert b.waiters[i] in b.waiters; }
    forall k | k in b'.results && b'.results[k].None?
      ensures IndexOf(b'.waiters, k) < |b'.waiters| || k in b'.asked
    {
      if k == w.id { assert b'.waiters[|b.waiters|].id == k; }
      else { assert b'.waiters[IndexOf(b.waiters, k)].id == k; }
    }
  }

  lemma RegisteredSources(b: State, world: Text, w: Waiter)
    requires SourceInv(b, false, world) && w.id !in b.results
    ensures SourceInv(Registered(b, w), false, world)
  {
    var b' := Registered(b, w);
    forall k | k in b'.results && b'.results[k].Some? && b'.results[k].value.Resolved?
      ensures Explained(b'.history, world, k, b'.results[k].value.signal)
    {
      Carry(b.history, b'.history, world, k, b.results[k].value.signal);
    }
  }

  lemma RegisteredSettled(b: State, w: Waiter)
    requires SettledInv(b) && w.id !in b.results
    ensures SettledInv(Registered(b, w))
  {
  }

  lemma AnsweredKeeps(b: State, operator: bool, world: Text, id: WaitId, r: Link.Result)
    requires Inv(b, operator, world) && id in b.asked
    ensures Inv(OnAnswered(b, id, r), operator, world)
  {
    var d := b.(asked := b.asked - {id});
    var m := if r.Answered? then d.(history := d.history.(answers := d.history.answers[id := (b.asked[id], r.answer)]))
             else d;
    var result := if r.Answered? then SignalOf(b.asked[id], r.answer) else Failed(Operator(r.why));
    GiveSettled(m, id, result);
    GiveSource(m, operator, world, id, result);
  }

  // ---------- detaching ----------

  ghost predicate Held(b: State, ws: seq<Waiter>) {
    && (forall i, j :: 0 <= i < j < |ws| ==> ws[i].id != ws[j].id)
    && (forall w :: w in ws ==> w.id in b.results && b.results[w.id].None? && w.id !in b.asked)
    && (forall id :: id in b.results && b.results[id].None? ==> IndexOf(ws, id) < |ws| || id in b.asked)
  }

  lemma {:induction false} RejectAllKeeps(b: State, operator: bool, world: Text, ws: seq<Waiter>)
    requires WorldInv(b, world) && SourceInv(b, operator, world) && SettledInv(b)
    requires b.waiters == [] && Held(b, ws) && (!operator ==> b.asked == map[])
    requires forall id :: id in b.asked ==> id in b.results && b.results[id].None?
    ensures Inv(RejectAll(b, ws), operator, world)
    decreases |ws|
  {
    if ws != [] {
      var g := Give(b, ws[0].id, Failed(Detached));
      assert ws[0] in ws;
      GiveSettled(b, ws[0].id, Failed(Detached));
      GiveSource(b, operator, world, ws[0].id, Failed(Detached));
      HeldNext(b, ws);
      RejectAllKeeps(g, operator, world, ws[1..]);
    }
  }

  lemma HeldNext(b: State, ws: seq<Waiter>)
    requires Held(b, ws) && ws != []
    ensures Held(Give(b, ws[0].id, Failed(Detached)), ws[1..])
  {
    forall w | w in ws[1..] ensures w in ws && w.id != ws[0].id {
      var j :| 0 <= j < |ws[1..]| && ws[1..][j] == w;
      assert ws[j + 1] == w;
    }
  }

  lemma DetachKeeps(b: State, operator: bool, world: Text)
    requires Inv(b, operator, world)
    ensures Inv(OnDetach(b), operator, world)
  {
    RejectAllKeeps(b.(detached := true, waiters := [], channels := map[]), operator, world, b.waiters);
  }

  // ---------- contexts ----------

  lemma NothingReported(log: seq<ContextEvent>, world: Text, chan: Chan, context: Context)
    requires forall i :: 0 <= i < |log| ==> log[i].chan != chan
    ensures !Live(log, world, chan, context)
  {
  }

  lemma WireKeeps(b: State, operator: bool, world: Text, page: Page)
    requires Inv(b, operator, world)
    ensures Inv(OnWire(b, page), operator, world)
  {
    forall x ensures !Live(b.history.contexts, world, b.nextChan, x) {
      NothingReported(b.history.contexts, world, b.nextChan, x);
    }
  }

  /** The worlds a channel holds follow what was reported of its contexts. */
  lemma ContextWorlds(b: State, world: Text, e: ContextEvent)
    requires WorldInv(b, world) && e.chan in b.chans
    ensures WorldInv(OnContext(b, world, e), world)
  {
    var b' := OnContext(b, world, e);
    var log, log' := b.history.contexts, b'.history.contexts;
    assert log' == log + [e] && log'[..|log| + 1 - 1] == log;
    forall k, x | k in b'.chans ensures x in b'.chans[k].worlds <==> Live(log', world, k, x) {
      assert x in b.chans[k].worlds <==> Live(log, world, k, x);
    }
  }

  lemma ContextKeeps(b: State, operator: bool, world: Text, e: ContextEvent)
    requires Inv(b, operator, world) && e.chan in b.chans
    ensures Inv(OnContext(b, world, e), operator, world)
  {
    ContextWorlds(b, world, e);
    ContextSources(b, operator, world, e);
  }

  lemma ContextSources(b: State, operator: bool, world: Text, e: ContextEvent)
    requires SourceInv(b, operator, world) && e.chan in b.chans
    ensures SourceInv(OnContext(b, world, e), operator, world)
  {
    var b' := OnContext(b, world, e);
    forall k | k in b'.results && b'.results[k].Some? && b'.results[k].value.Resolved? && !operator
      ensures Explained(b'.history, world, k, b'.results[k].value.signal)
    {
      Carry(b.history, b'.history, world, k, b.results[k].value.signal);
    }
  }

  // ---------- runs ----------

  lemma StepKeeps(operator: bool, world: Text, b: State, e: Event)
    requires Inv(b, operator, world)
    ensures Inv(Step(operator, world, b, e), operator, world)
  {
    if Enabled(b, e) {
      match e
      case Awaits(id, name, timeoutMs, ticket, prompt) =>
        AwaitKeeps(b, operator, world, id, name, timeoutMs, ticket, prompt);
      case TimerFires(id) => TimerKeeps(b, operator, world, id);
      case OperatorAnswers(id, r) => AnsweredKeeps(b, operator, world, id, r);
      case Detaches => DetachKeeps(b, operator, world);
      case Wires(page) => WireKeeps(b, operator, world, page);
      case Wired(_) =>
      case PageCloses(_) =>
      case Reports(c) => ContextKeeps(b, operator, world, c);
      case Calls(chan, context, own, payload) =>
        if own && context in b.chans[chan].worlds && payload.Some? {
          SignalKeeps(b, world, chan, context, payload.value, operator);
        }
    }
  }

  lemma {:induction false} RunInv(operator: bool, world: Text, events: seq<Event>)
    ensures Inv(Run(operator, world, FRESH, events), operator, world)
  {
    if events != [] {
      RunInv(operator, world, events[..|events| - 1]);
      StepKeeps(operator, world, Run(operator, world, FRESH, events[..|events| - 1]), events[|events| - 1]);
    }
  }

  /** With the operator wired no DevTools waiter ever exists, so no DevTools signal
      settles anything: what resolves is what the daemon's answer says. */
  lemma {:induction false} OperatorIsTheOnlyRoute(world: Text, events: seq<Event>)
    ensures var b := Run(true, world, FRESH, events);
            && b.waiters == []
            && (forall s :: OnSignal(b, s) == b)
            && (forall id :: id in b.results && b.results[id].Some? && b.results[id].value.Resolved? ==>
                  ByOperator(b.history, id, b.results[id].value))
  {
    RunInv(true, world, events);
  }

  /** Without the operator every resolved wait has a call that explains it: it
      carried that signal, met the waiter's name and ticket, and came from a context
      then alive in the bridge's own world. */
  lemma OnlyTheWorldAnswers(world: Text, events: seq<Event>, id: WaitId, s: Signal)
    requires var b := Run(false, world, FRESH, events); id in b.results && b.results[id] == Some(Resolved(s))
    ensures Explained(Run(false, world, FRESH, events).history, world, id, s)
  {
    RunInv(false, world, events);
  }

  /** Each wait settles once, with one result; it is open exactly while it waits. */
  lemma EveryWaitSettlesOnce(operator: bool, world: Text, events: seq<Event>)
    ensures var b := Run(operator, world, FRESH, events);
            && (forall i, j :: 0 <= i < j < |b.history.settled| ==> b.history.settled[i].id != b.history.settled[j].id)
            && (forall id, r :: id in b.results ==> (b.results[id] == Some(r) <==> Settled(id, r) in b.history.settled))
            && (forall id :: id in b.results ==>
                  (b.results[id].None? <==> IndexOf(b.waiters, id) < |b.waiters| || id in b.asked))
  {
    RunInv(operator, world, events);
    var b := Run(operator, world, FRESH, events);
    forall id | id in b.results && IndexOf(b.waiters, id) < |b.waiters| ensures b.results[id].None? {
      assert b.waiters[IndexOf(b.waiters, id)] in b.waiters;
    }
  }

  /** What a call of the binding does to the waits of `b`. */
  ghost predicate SettlesTheEarliest(b: State, b': State, live: bool, s: Signal) {
    var i := FirstMatch(b.waiters, s);
    if !live then b' == b
    else if i == |b.waiters| then b'.waiters == b.waiters && b'.results == b.results
    else
      var id := b.waiters[i].id;
      && b'.waiters == b.waiters[..i] + b.waiters[i + 1..]
      && id in b.results && b.results[id] == None
      && b'.results == b.results[id := Some(Resolved(s))]
  }

  lemma CallSettles(b: State, chan: Chan, context: Context, s: Signal)
    requires WaitInv(b, false) && chan in b.chans && !b.detached
    ensures SettlesTheEarliest(b, OnBindingCalled(b, chan, context, true, Some(s)), context in b.chans[chan].worlds, s)
  {
    var i := FirstMatch(b.waiters, s);
    if i < |b.waiters| { assert b.waiters[i] in b.waiters; }
  }

  /** A call settles the earliest waiter it answers and no other, and it counts
      exactly when its context is alive in the bridge's own world. */
  lemma CallSettlesTheEarliest(world: Text, events: seq<Event>, chan: Chan, context: Context, s: Signal)
    requires var b := Run(false, world, FRESH, events); chan in b.chans && !b.detached
    ensures var b := Run(false, world, FRESH, events);
            SettlesTheEarliest(b, Step(false, world, b, Calls(chan, context, true, Some(s))),
                               Live(b.history.contexts, world, chan, context), s)
  {
    RunInv(false, world, events);
    CallSettles(Run(false, world, FRESH, events), chan, context, s);
  }
}

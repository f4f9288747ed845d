/** The human channel of one session: waits that a DevTools signal releases, or,
    with the operator wired, that only the daemon's answer does.
    (src/helper/bridge.ts) */
module Bridge {
  import opened Json
  import opened OperatorProtocol
  import Frames = OperatorFrames
  import Link = OperatorLink

  type WaitId = nat
  type Page = nat
  type Chan = nat
  type Context = int

  datatype Payload =
    | Raw(data: Json)
    | Confirmed(value: bool)
    | Proceed
    | Chosen(kind: HumanKind, answer: Option<Json>)

  datatype Signal = Signal(name: Text, data: Payload, ticket: Option<Text>, grant: Option<Grant>)

  datatype Failure =
    | TimedOut | Detached | NoHumanChannel | NoOperatorForm | OperatorAborted | Operator(why: Link.Failure)

  datatype Result = Resolved(signal: Signal) | Failed(failure: Failure)

  datatype Waiter = Waiter(id: WaitId, name: Option<Text>, ticket: Option<Text>, timed: bool)

  /** One page's CDP session: the contexts of the human world it has told of. */
  datatype PageChannel = PageChannel(page: Page, worlds: set<Context>)

  /** History: what CDP reported of execution contexts. */
  datatype ContextEvent =
    | Created(chan: Chan, context: Context, name: Text, isolated: bool, extension: bool)
    | Destroyed(chan: Chan, context: Context)
    | Cleared(chan: Chan)

  /** History: a binding call that was let through, and when. */
  datatype Call = Call(chan: Chan, context: Context, signal: Signal, at: nat)

  datatype Settled = Settled(id: WaitId, result: Result)

  datatype History = History(
    made: map<WaitId, Waiter>,
    contexts: seq<ContextEvent>,
    calls: seq<Call>,
    settled: seq<Settled>,
    answers: map<WaitId, (Frames.Prompt, Link.Answer)>)

  datatype State = State(
    waiters: seq<Waiter>,
    asked: map<WaitId, Frames.Prompt>,
    results: map<WaitId, Option<Result>>,
    chans: map<Chan, PageChannel>,
    channels: map<Page, Chan>,
    nextChan: Chan,
    detached: bool,
    history: History)

  const FRESH := State([], map[], map[], map[], map[], 0, false, History(map[], [], [], [], map[]))

  /** Whether a string constrains at all: JavaScript's truth of a string. */
  predicate Given(t: Option<Text>) { t.Some? && t.value != [] }

  /** The signal meets the waiter's name and ticket. */
  predicate Answers(w: Waiter, s: Signal) {
    && (Given(w.name) ==> w.name.value == s.name)
    && (Given(w.ticket) ==> w.ticket == s.ticket)
  }

  function Give(b: State, id: WaitId, r: Result): State {
    b.(results := b.results[id := Some(r)],
       history := b.history.(settled := b.history.settled + [Settled(id, r)]))
  }

  // ---------- waiting ----------

  function OnAwait(b: State, operator: bool, id: WaitId, name: Option<Text>, timeoutMs: int,
                   ticket: Option<Text>, prompt: Option<Frames.Prompt>): State
  {
    if operator then
      if b.detached then Give(b, id, Failed(Detached))
      else if prompt.None? then Give(b, id, Failed(NoOperatorForm))
      else b.(asked := b.asked[id := prompt.value], results := b.results[id := None])
    else if b.detached || b.channels == map[] then Give(b, id, Failed(NoHumanChannel))
    else
      var w := Waiter(id, name, ticket, timeoutMs > 0);
      b.(waiters := b.waiters + [w], results := b.results[id := None],
         history := b.history.(made := b.history.made[id := w]))
  }

  /** The first waiter the signal answers, or the number of waiters. */
  function FirstMatch(ws: seq<Waiter>, s: Signal): (i: nat)
    ensures i <= |ws|
    ensures forall k :: 0 <= k < i ==> !Answers(ws[k], s)
    ensures i < |ws| ==> Answers(ws[i], s)
  {
    if ws == [] || Answers(ws[0], s) then 0 else 1 + FirstMatch(ws[1..], s)
  }

  function Without(ws: seq<Waiter>, i: nat): seq<Waiter>
    requires i < |ws|
  {
    ws[..i] + ws[i + 1..]
  }

  function OnSignal(b: State, s: Signal): State {
    var i := FirstMatch(b.waiters, s);
    if i == |b.waiters| then b
    else Give(b.(waiters := Without(b.waiters, i)), b.waiters[i].id, Resolved(s))
  }

  function IndexOf(ws: seq<Waiter>, id: WaitId): (i: nat)
    ensures i <= |ws|
    ensures forall k :: 0 <= k < i ==> ws[k].id != id
    ensures i < |ws| ==> ws[i].id == id
  {
    if ws == [] || ws[0].id == id then 0 else 1 + IndexOf(ws[1..], id)
  }

  function OnTimer(b: State, id: WaitId): State
    requires IndexOf(b.waiters, id) < |b.waiters|
  {
    Give(b.(waiters := Without(b.waiters, IndexOf(b.waiters, id))), id, Failed(TimedOut))
  }

  /** Every waiter is rejected, the earliest first. */
  function RejectAll(b: State, ws: seq<Waiter>): State
    decreases |ws|
  {
    if ws == [] then b else RejectAll(Give(b, ws[0].id, Failed(Detached)), ws[1..])
  }

  function OnDetach(b: State): State {
    RejectAll(b.(detached := true, waiters := [], channels := map[]), b.waiters)
  }

  // ---------- the operator's answer ----------

  /** What a channel answer becomes for the caller of `awaitSignal`. */
  function SignalOf(prompt: Frames.Prompt, a: Link.Answer): (r: Result)
    ensures r.Resolved? <==> a.decision != Abort
    ensures r.Resolved? && prompt.Approval? ==>
              r.signal.data == Confirmed(a.decision == Approve) && r.signal.grant == a.grant
    ensures r.Resolved? && prompt.Human? ==>
              && r.signal.grant == None
              && (prompt.humanKind.Acknowledge? <==> r.signal.data == Proceed)
              && (!prompt.humanKind.Acknowledge? ==> r.signal.data == Chosen(prompt.humanKind, a.value))
    ensures r.Resolved? ==> r.signal.ticket == None
    ensures r.Resolved? ==>
              r.signal.name == Lit(if prompt.Human? && prompt.humanKind.Acknowledge? then "proceed" else "respond")
  {
    if a.decision.Abort? then Failed(OperatorAborted)
    else match prompt
      case Approval(_, _, _, _) => Resolved(Signal(Lit("respond"), Confirmed(a.decision == Approve), None, a.grant))
      case Human(kind, _, _) =>
        if kind.Acknowledge? then Resolved(Signal(Lit("proceed"), Proceed, None, None))
        else Resolved(Signal(Lit("respond"), Chosen(kind, a.value), None, None))
  }

  function OnAnswered(b: State, id: WaitId, r: Link.Result): State
    requires id in b.asked
  {
    var d := b.(asked := b.asked - {id});
    match r
    case Failed(why) => Give(d, id, Failed(Operator(why)))
    case Answered(a) =>
      Give(d.(history := d.history.(answers := d.history.answers[id := (b.asked[id], a)])), id,
           SignalOf(b.asked[id], a))
  }

  // ---------- pages and their contexts ----------

  function OnWire(b: State, page: Page): State {
    if b.detached || page in b.channels then b
    else b.(chans := b.chans[b.nextChan := PageChannel(page, {})], nextChan := b.nextChan + 1)
  }

  /** The CDP setup of a page finished; a page that failed it has no channel. */
  function OnWired(b: State, chan: Chan): State
    requires chan in b.chans
  {
    b.(channels := b.channels[b.chans[chan].page := chan])
  }

  function OnPageClosed(b: State, page: Page): State { b.(channels := b.channels - {page}) }

  function Log(b: State, e: ContextEvent): State {
    b.(history := b.history.(contexts := b.history.contexts + [e]))
  }

  function Worlds(b: State, chan: Chan, worlds: set<Context>): State
    requires chan in b.chans
  {
    b.(chans := b.chans[chan := b.chans[chan].(worlds := worlds)])
  }

  /** Only an isolated context under the bridge's own name, of no extension. */
  predicate OfTheWorld(e: ContextEvent, world: Text) {
    e.Created? && e.name == world && e.isolated && !e.extension
  }

  function OnContext(b: State, world: Text, e: ContextEvent): State
    requires e.chan in b.chans
  {
    var l := Log(b, e);
    match e
    case Created(chan, context, _, _, _) =>
      if OfTheWorld(e, world) then Worlds(l, chan, b.chans[chan].worlds + {context}) else l
    case Destroyed(chan, context) => Worlds(l, chan, b.chans[chan].worlds - {context})
    case Cleared(chan) => Worlds(l, chan, {})
  }

  /** A call of the bridge's binding, with its payload when that parsed. */
  function OnBindingCalled(b: State, chan: Chan, context: Context, own: bool, payload: Option<Signal>): State
    requires chan in b.chans
  {
    if b.detached || !own || context !in b.chans[chan].worlds || payload.None? then b
    else
      var c := Call(chan, context, payload.value, |b.history.contexts|);
      OnSignal(b.(history := b.history.(calls := b.history.calls + [c])), payload.value)
  }

  // ---------- the class ----------

  class BridgeObject {
    const operator: bool
    const world: Text
    var waiters: seq<Waiter>
    var asked: map<WaitId, Frames.Prompt>
    var results: map<WaitId, Option<Result>>
    var chans: map<Chan, PageChannel>
    var channels: map<Page, Chan>
    var nextChan: Chan
    var detached: bool
    ghost var history: History

    ghost function St(): State
      reads this
    {
      State(waiters, asked, results, chans, channels, nextChan, detached, history)
    }

    constructor (operator: bool, world: Text)
      ensures St() == FRESH && this.operator == operator && this.world == world
    {
      this.operator, this.world := operator, world;
      waiters, asked, results, chans, channels, nextChan, detached := [], map[], map[], map[], map[], 0, false;
      history := History(map[], [], [], [], map[]);
    }

    method SettleWait(id: WaitId, r: Result)
      modifies this`results, this`history
      ensures St() == Give(old(St()), id, r)
    {
      results := results[id := Some(r)];
      history := history.(settled := history.settled + [Settled(id, r)]);
    }

    method AwaitSignal(id: WaitId, name: Option<Text>, timeoutMs: int, ticket: Option<Text>,
                       prompt: Option<Frames.Prompt>)
      modifies this
      ensures St() == OnAwait(old(St()), operator, id, name, timeoutMs, ticket, prompt)
    {
      if operator {
        if detached {
          SettleWait(id, Failed(Detached));
        } else if prompt.None? {
          SettleWait(id, Failed(NoOperatorForm));
        } else {
          asked := asked[id := prompt.value];
          results := results[id := None];
        }
      } else if detached || channels == map[] {
        SettleWait(id, Failed(NoHumanChannel));
      } else {
        var w := Waiter(id, name, ticket, timeoutMs > 0);
        waiters := waiters + [w];
        results := results[id := None];
        history := history.(made := history.made[id := w]);
      }
    }

    /** The first pending waiter the signal answers gets it; with none it is dropped. */
    method Signalled(s: Signal)
      modifies this`waiters, this`results, this`history
      ensures St() == OnSignal(old(St()), s)
    {
      var i := 0;
      while i < |waiters| && !Answers(waiters[i], s)
        invariant 0 <= i <= |waiters|
        invariant forall k :: 0 <= k < i ==> !Answers(waiters[k], s)
      {
        i := i + 1;
      }
      assert i == FirstMatch(waiters, s);
      if i < |waiters| {
        var w := waiters[i];
        waiters := waiters[..i] + waiters[i + 1..];
        SettleWait(w.id, Resolved(s));
      }
    }

    method TimerFires(id: WaitId)
      requires IndexOf(waiters, id) < |waiters|
      modifies this`waiters, this`results, this`history
      ensures St() == OnTimer(old(St()), id)
    {
      var i := IndexOf(waiters, id);
      waiters := waiters[..i] + waiters[i + 1..];
      SettleWait(id, Failed(TimedOut));
    }

    method Detach()
      modifies this
      ensures St() == OnDetach(old(St()))
    {
      var all := waiters;
      detached, waiters, channels := true, [], map[];
      for i := 0 to |all|
        invariant RejectAll(St(), all[i..]) == OnDetach(old(St()))
      {
        assert all[i..][0] == all[i] && all[i..][1..] == all[i + 1..];
        SettleWait(all[i].id, Failed(Detached));
      }
    }

    method OperatorAnswers(id: WaitId, r: Link.Result)
      requires id in asked
      modifies this`asked, this`results, this`history
      ensures St() == OnAnswered(old(St()), id, r)
    {
      var prompt := asked[id];
      asked := asked - {id};
      match r {
        case Failed(why) => SettleWait(id, Failed(Operator(why)));
        case Answered(a) =>
          history := history.(answers := history.answers[id := (prompt, a)]);
          SettleWait(id, SignalOf(prompt, a));
      }
    }

    method WirePage(page: Page)
      modifies this`chans, this`nextChan
      ensures St() == OnWire(old(St()), page)
    {
      if !detached && page !in channels {
        chans, nextChan := chans[nextChan := PageChannel(page, {})], nextChan + 1;
      }
    }

    method PageWired(chan: Chan)
      requires chan in chans
      modifies this`channels
      ensures St() == OnWired(old(St()), chan)
    {
      channels := channels[chans[chan].page := chan];
    }

    method PageCloses(page: Page)
      modifies this`channels
      ensures St() == OnPageClosed(old(St()), page)
    {
      channels := channels - {page};
    }

    method ContextReported(e: ContextEvent)
      requires e.chan in chans
      modifies this`chans, this`history
      ensures St() == OnContext(old(St()), world, e)
    {
      history := history.(contexts := history.contexts + [e]);
      var worlds := chans[e.chan].worlds;
      match e {
        case Created(chan, context, name, isolated, extension) =>
          if name == world && isolated && !extension {
            chans := chans[chan := chans[chan].(worlds := worlds + {context})];
          }
        case Destroyed(chan, context) => chans := chans[chan := chans[chan].(worlds := worlds - {context})];
        case Cleared(chan) => chans := chans[chan := chans[chan].(worlds := {})];
      }
    }

    method BindingCalled(chan: Chan, context: Context, own: bool, payload: Option<Signal>)
      requires chan in chans
      modifies this
      ensures St() == OnBindingCalled(old(St()), chan, context, own, payload)
    {
      if !detached && own && context in chans[chan].worlds && payload.Some? {
        history := history.(calls := history.calls + [Call(chan, context, payload.value, |history.contexts|)]);
        Signalled(payload.value);
      }
    }
  }
}

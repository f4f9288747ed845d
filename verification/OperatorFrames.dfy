/** Request frames of the operator channel: what each prompt becomes on the wire,
    how it is cut to fit, how a repeat of a page prompt is told, and the size of
    every line the channel builds. (src/helper/operator-frames.ts) */
module OperatorFrames {
  import opened Json
  import opened OperatorProtocol
  import ViewRules

  datatype Prompt =
    | Approval(scope: Text, tool: Text, summary: Text, grantable: Option<Text>)
    | Human(humanKind: HumanKind, prompt: Text, choices: Option<seq<Text>>)

  /** A number and how many characters its JSON text has. No double needs more
      than 25. */
  datatype Figure = Figure(n: real, chars: nat)

  type Number = f: Figure | f.chars <= 25 witness Figure(0.0, 1)

  /** `clean` strips URLs and masks secrets; nothing is known of its result. */
  datatype Ask = Ask(session: Text, expiresAt: Number, clean: Text -> Text, prompt: Prompt)

  datatype PromptClass = Hook | HumanClass | Page

  const MAX_PENDING := 32

  function ClassLimit(c: PromptClass): nat { if c.Page? then 8 else 12 }

  function SessionLimit(c: PromptClass): nat { if c.Page? then 4 else 8 }

  const MAX_SUMMARY_CHARS := 1_000
  const MAX_PROMPT_CHARS := 2_000
  const MAX_CHOICES := 32
  const MAX_CHOICE_CHARS := 100
  const MAX_NAME_CHARS := 128
  const ID_CHARS := 36

  const ELLIPSIS: Unit := 0x2026

  datatype Body =
    | ApprovalBody(scope: Text, tool: Text, summary: Text, grantScopes: bool)
    | HumanBody(humanKind: HumanKind, prompt: Text, choices: Option<seq<Text>>)

  datatype Request = Request(
    id: Text, session: Text, createdAt: Number, expiresAt: Number, body: Body,
    truncated: bool, omittedChoices: nat)

  // ---------- building a request ----------

  function Cut(text: Text, max: nat): (t: Text)
    requires max > 0
    ensures |t| <= max
    ensures t == text <==> |text| <= max
    ensures |text| > max ==> |t| == max && t[..max - 1] == text[..max - 1] && t[max - 1] == ELLIPSIS
  {
    if |text| > max then text[..max - 1] + [ELLIPSIS] else text
  }

  /** The first `MAX_CHOICES` choices, each cleaned and cut. */
  function Offered(clean: Text -> Text, choices: seq<Text>): (r: seq<Text>)
    ensures |r| == if |choices| <= MAX_CHOICES then |choices| else MAX_CHOICES
  {
    var n := if |choices| <= MAX_CHOICES then |choices| else MAX_CHOICES;
    seq(n, i requires 0 <= i < n => Cut(clean(choices[i]), MAX_CHOICE_CHARS))
  }

  /** The body of the request for a prompt. */
  function BodyOf(ask: Ask): Body {
    match ask.prompt
    case Approval(scope, tool, summary, grantable) =>
      ApprovalBody(Cut(scope, MAX_NAME_CHARS), Cut(tool, MAX_NAME_CHARS),
                   Cut(ask.clean(summary), MAX_SUMMARY_CHARS), grantable.Some?)
    case Human(kind, prompt, choices) =>
      HumanBody(kind, Cut(ask.clean(prompt), MAX_PROMPT_CHARS),
                if choices.None? then None else Some(Offered(ask.clean, choices.value)))
  }

  /** Every text the request carries, as it was before the cuts, with its cap. */
  function Sources(ask: Ask): seq<(Text, nat)> {
    [(ask.session, MAX_NAME_CHARS)]
    + match ask.prompt
      case Approval(scope, tool, summary, _) =>
        [(scope, MAX_NAME_CHARS), (tool, MAX_NAME_CHARS), (ask.clean(summary), MAX_SUMMARY_CHARS)]
      case Human(_, prompt, choices) =>
        (if choices.None? then [] else ChoiceSources(ask.clean, choices.value))
        + [(ask.clean(prompt), MAX_PROMPT_CHARS)]
  }

  function ChoiceSources(clean: Text -> Text, choices: seq<Text>): seq<(Text, nat)> {
    var n := |Offered(clean, choices)|;
    seq(n, i requires 0 <= i < n => (clean(choices[i]), MAX_CHOICE_CHARS))
  }

  /** Some text is longer than its cap. */
  predicate SomethingCut(sources: seq<(Text, nat)>) {
    exists i :: 0 <= i < |sources| && |sources[i].0| > sources[i].1
  }

  function Omitted(prompt: Prompt): nat {
    if prompt.Human? && prompt.choices.Some? && |prompt.choices.value| > MAX_CHOICES
    then |prompt.choices.value| - MAX_CHOICES else 0
  }

  function RequestOf(id: Text, ask: Ask, createdAt: Number): Request {
    Request(id, Cut(ask.session, MAX_NAME_CHARS), createdAt, ask.expiresAt, BodyOf(ask),
            SomethingCut(Sources(ask)), Omitted(ask.prompt))
  }

  function RulesOf(prompt: Prompt): AnswerRules {
    match prompt
    case Approval(_, _, _, grantable) => AnswerRules([Approve, Deny], None, 0, grantable)
    case Human(kind, _, choices) =>
      AnswerRules([Done, Abort], Some(kind),
                  if choices.None? then 0
                  else if |choices.value| <= MAX_CHOICES then |choices.value| else MAX_CHOICES,
                  None)
  }

  method Shorten(v: Text, max: nat, truncated: bool) returns (t: Text, flag: bool)
    requires max > 0
    ensures t == Cut(v, max) && flag == (truncated || |v| > max)
  {
    flag := truncated || |v| > max;
    t := Cut(v, max);
  }

  /** `requestFrame`: the cuts flip a flag as they go. */
  method BuildRequest(id: Text, ask: Ask, createdAt: Number) returns (frame: Request, rules: AnswerRules)
    ensures frame == RequestOf(id, ask, createdAt) && rules == RulesOf(ask.prompt)
  {
    var truncated, omitted := false, 0;
    ghost var sources := Sources(ask);
    var session;
    session, truncated := Shorten(ask.session, MAX_NAME_CHARS, truncated);
    assert sources[0] == (ask.session, MAX_NAME_CHARS);
    match ask.prompt {
      case Approval(p, t, s, grantable) =>
        var scope, tool, summary;
        scope, truncated := Shorten(p, MAX_NAME_CHARS, truncated);
        tool, truncated := Shorten(t, MAX_NAME_CHARS, truncated);
        summary, truncated := Shorten(ask.clean(s), MAX_SUMMARY_CHARS, truncated);
        assert sources[1] == (p, MAX_NAME_CHARS) && sources[2] == (t, MAX_NAME_CHARS)
            && sources[3] == (ask.clean(s), MAX_SUMMARY_CHARS);
        frame := Request(id, session, createdAt, ask.expiresAt,
                         ApprovalBody(scope, tool, summary, grantable.Some?), truncated, 0);
        rules := AnswerRules([Approve, Deny], None, 0, grantable);
      case Human(kind, p, asked) =>
        var choices: Option<seq<Text>> := None;
        var count := 0;
        if asked.Some? {
          if |asked.value| > MAX_CHOICES { omitted := |asked.value| - MAX_CHOICES; }
          count := |asked.value| - omitted;
          var list: seq<Text>;
          list, truncated := CleanChoices(ask.clean, asked.value, count, truncated);
          choices := Some(list);
          assert forall i :: 0 <= i < count ==> sources[1 + i] == ChoiceSources(ask.clean, asked.value)[i];
        }
        var prompt;
        prompt, truncated := Shorten(ask.clean(p), MAX_PROMPT_CHARS, truncated);
        assert sources[1 + count] == (ask.clean(p), MAX_PROMPT_CHARS) && |sources| == count + 2;
        frame := Request(id, session, createdAt, ask.expiresAt, HumanBody(kind, prompt, choices),
                         truncated, omitted);
        rules := AnswerRules([Done, Abort], Some(kind), count, None);
    }
  }

  method CleanChoices(clean: Text -> Text, asked: seq<Text>, count: nat, was: bool)
    returns (list: seq<Text>, truncated: bool)
    requires count == |Offered(clean, asked)|
    ensures list == Offered(clean, asked)
    ensures truncated <==> was || SomethingCut(ChoiceSources(clean, asked))
  {
    list, truncated := [], was;
    for i := 0 to count
      invariant list == Offered(clean, asked)[..i]
      invariant truncated <==> was || SomethingCut(ChoiceSources(clean, asked)[..i])
    {
      var c;
      c, truncated := Shorten(clean(asked[i]), MAX_CHOICE_CHARS, truncated);
      assert ChoiceSources(clean, asked)[i] == (clean(asked[i]), MAX_CHOICE_CHARS);
      list := list + [c];
    }
  }

  /** Every text the request puts on the wire. */
  function Texts(r: Request): seq<Text> {
    [r.session]
    + match r.body
      case ApprovalBody(scope, tool, summary, _) => [scope, tool, summary]
      case HumanBody(_, prompt, choices) => (if choices.None? then [] else choices.value) + [prompt]
  }

  /** Nothing is cut or dropped silently: the request says `truncated` exactly when
      some text it carries is not the whole text, and counts each choice left out. */
  lemma CutsAreReported(id: Text, ask: Ask, createdAt: Number)
    ensures var r := RequestOf(id, ask, createdAt);
            && |Texts(r)| == |Sources(ask)|
            && (r.truncated <==> exists i :: 0 <= i < |Texts(r)| && Texts(r)[i] != Sources(ask)[i].0)
            && (ask.prompt.Human? && ask.prompt.choices.Some? ==>
                  |r.body.choices.value| + r.omittedChoices == |ask.prompt.choices.value|)
  {
    TextsAreCuts(id, ask, createdAt);
  }

  /** The text is what its cap leaves of it. */
  predicate IsCut(t: Text, source: (Text, nat)) { source.1 > 0 && t == Cut(source.0, source.1) }

  predicate AllCut(texts: seq<Text>, sources: seq<(Text, nat)>) {
    |texts| == |sources| && forall i :: 0 <= i < |texts| ==> IsCut(texts[i], sources[i])
  }

  lemma AllCutJoins(a: seq<Text>, b: seq<Text>, x: seq<(Text, nat)>, y: seq<(Text, nat)>)
    requires AllCut(a, x) && AllCut(b, y)
    ensures AllCut(a + b, x + y)
  {
    forall i | 0 <= i < |a + b| ensures IsCut((a + b)[i], (x + y)[i]) {
      if i < |a| { assert IsCut(a[i], x[i]); } else { assert IsCut(b[i - |a|], y[i - |a|]); }
    }
  }

  lemma TextsAreCuts(id: Text, ask: Ask, createdAt: Number)
    ensures AllCut(Texts(RequestOf(id, ask, createdAt)), Sources(ask))
  {
    var session := [Cut(ask.session, MAX_NAME_CHARS)];
    match ask.prompt
    case Approval(scope, tool, summary, _) =>
      AllCutJoins(session,
                  [Cut(scope, MAX_NAME_CHARS), Cut(tool, MAX_NAME_CHARS), Cut(ask.clean(summary), MAX_SUMMARY_CHARS)],
                  [(ask.session, MAX_NAME_CHARS)],
                  [(scope, MAX_NAME_CHARS), (tool, MAX_NAME_CHARS), (ask.clean(summary), MAX_SUMMARY_CHARS)]);
    case Human(_, prompt, choices) =>
      var offered := if choices.None? then [] else Offered(ask.clean, choices.value);
      var before := if choices.None? then [] else ChoiceSources(ask.clean, choices.value);
      AllCutJoins(offered, [Cut(ask.clean(prompt), MAX_PROMPT_CHARS)],
                  before, [(ask.clean(prompt), MAX_PROMPT_CHARS)]);
      AllCutJoins(session, offered + [Cut(ask.clean(prompt), MAX_PROMPT_CHARS)],
                  [(ask.session, MAX_NAME_CHARS)], before + [(ask.clean(prompt), MAX_PROMPT_CHARS)]);
  }

  // ---------- classes and repeats ----------

  function ClassOf(p: Prompt): PromptClass {
    if p.Human? then HumanClass else if p.grantable.Some? then Hook else Page
  }

  /** The JSON text of four strings, which tells any two of them apart. */
  datatype Key = Key(session: Text, scope: Text, tool: Text, summary: Text)

  /** Two approvals of the same session that ask for the same thing. */
  predicate SamePrompt(r: Request, s: Request)
    requires r.body.ApprovalBody? && s.body.ApprovalBody?
  {
    && r.session == s.session && r.body.scope == s.body.scope
    && r.body.tool == s.body.tool && r.body.summary == s.body.summary
  }

  function DedupeKey(c: PromptClass, r: Request): (k: Option<Key>)
    requires c.Page? ==> r.body.ApprovalBody?
    ensures k.Some? <==> c.Page?
  {
    if !c.Page? then None
    else Some(Key(r.session, r.body.scope, r.body.tool, r.body.summary))
  }

  /** Two requests have the same key exactly when both are a page's and ask for the same
      thing in the same session. */
  lemma KeysAreOfPrompts(c: PromptClass, d: PromptClass, r: Request, s: Request)
    requires (c.Page? ==> r.body.ApprovalBody?) && (d.Page? ==> s.body.ApprovalBody?)
    ensures DedupeKey(c, r).Some? && DedupeKey(c, r) == DedupeKey(d, s) <==>
              c.Page? && d.Page? && SamePrompt(r, s)
  {
  }

  // ---------- the size of a line ----------

  /** A field of an outgoing frame. A word is a literal of the program, with no
      character that JSON escapes. */
  datatype Value = VNum(n: Number) | VFlag(b: bool) | VText(t: Text) | VWord(w: string) | VList(items: seq<Value>)

  /** UTF-8 bytes of one code unit in a JSON string (section 7 of RFC 8259). A lone
      surrogate is escaped like a control character. */
  function UnitBytes(u: Unit): (n: nat)
    ensures 1 <= n <= 6
  {
    if u in {0x22, 0x5C, 0x08, 0x09, 0x0A, 0x0C, 0x0D} then 2
    else if u < 0x20 || High(u) || Low(u) then 6
    else if u < 0x80 then 1
    else if u < 0x800 then 2
    else 3
  }

  /** A surrogate pair is one character of four bytes. */
  function TextBytes(t: Text): (n: nat)
    ensures n <= 6 * |t|
  {
    if t == [] then 0
    else if |t| >= 2 && High(t[0]) && Low(t[1]) then 4 + TextBytes(t[2..])
    else UnitBytes(t[0]) + TextBytes(t[1..])
  }

  function ValueBytes(v: Value): nat {
    match v
    case VNum(n) => n.chars
    case VFlag(b) => if b then 4 else 5
    case VText(t) => TextBytes(t) + 2
    case VWord(w) => |w| + 2
    case VList(items) => 2 + ListBytes(items)
  }

  /** The items and a comma after each but the last. */
  function ListBytes(items: seq<Value>): nat {
    if items == [] then 0
    else ValueBytes(items[0]) + (if |items| > 1 then 1 else 0) + ListBytes(items[1..])
  }

  type Pairs = seq<(string, Value)>

  /** `"key":value` for each pair, commas and braces. */
  function PairsBytes(ps: Pairs): nat {
    if ps == [] then 0
    else |ps[0].0| + 3 + ValueBytes(ps[0].1) + (if |ps| > 1 then 1 else 0) + PairsBytes(ps[1..])
  }

  function LineBytes(ps: Pairs): nat { 2 + PairsBytes(ps) }

  const VERSION: (string, Value) := ("v", VNum(Figure(1.0, 1)))

  function KindWord(k: HumanKind): (w: string)
    ensures |w| <= 11
  {
    match k
    case Acknowledge => "acknowledge"
    case Confirm => "confirm"
    case Choose => "choose"
    case Input => "input"
  }

  function RequestPairs(r: Request): Pairs {
    HeadPairs(r) + BodyPairs(r.body) + FlagPairs(r)
  }

  function BodyPairs(b: Body): Pairs {
    match b
    case ApprovalBody(scope, tool, summary, grantScopes) =>
      [("kind", VWord("approval")), ("scope", VText(scope)), ("tool", VText(tool)),
       ("summary", VText(summary)), ("untrusted", VList([VWord("summary"), VWord("session")])),
       ("answers", VList([VWord("approve"), VWord("deny")]))]
      + if grantScopes then [("grantScopes", VList([VWord("session"), VWord("workspace")]))] else []
    case HumanBody(kind, prompt, choices) =>
      [("kind", VWord("human")), ("humanKind", VWord(KindWord(kind))), ("prompt", VText(prompt))]
      + (if choices.None? then [] else [("choices", ChoiceValue(choices.value))])
      + HumanTail(b)
  }

  function HumanTail(b: Body): Pairs
    requires b.HumanBody?
  {
    [("untrusted", if b.choices.None? then VList([VWord("prompt"), VWord("session")])
                   else VList([VWord("prompt"), VWord("choices"), VWord("session")])),
     ("answers", VList([VWord("done"), VWord("abort")]))]
  }

  function ChoiceValue(choices: seq<Text>): Value {
    VList(seq(|choices|, i requires 0 <= i < |choices| => VText(choices[i])))
  }

  function FlagPairs(r: Request): Pairs {
    (if r.truncated then [("truncated", VFlag(true))] else [])
    + (if r.omittedChoices > 0 then [("omittedChoices", VNum(Figure(r.omittedChoices as real, 25)))] else [])
  }

  lemma {:induction false} PairsBytesConcat(a: Pairs, b: Pairs)
    ensures PairsBytes(a + b) <= PairsBytes(a) + PairsBytes(b) + 1
  {
    if a == [] {
      assert a + b == b;
    } else {
      assert (a + b)[1..] == a[1..] + b;
      if |a| == 1 { assert a[1..] + b == b; } else { PairsBytesConcat(a[1..], b); }
    }
  }

  lemma {:induction false} ListBytesBound(items: seq<Value>, max: nat)
    requires forall i :: 0 <= i < |items| ==> ValueBytes(items[i]) <= max
    ensures ListBytes(items) <= |items| * (max + 1)
  {
    if items != [] {
      assert forall i :: 0 <= i < |items[1..]| ==> items[1..][i] == items[i + 1];
      ListBytesBound(items[1..], max);
      assert |items| * (max + 1) == (|items| - 1) * (max + 1) + (max + 1);
    }
  }

  /** The most a pair takes, with a comma. */
  function PairBytes(p: (string, Value)): nat { |p.0| + 4 + ValueBytes(p.1) }

  function Sum(ns: seq<nat>): nat { if ns == [] then 0 else ns[0] + Sum(ns[1..]) }

  lemma {:induction false} PairsBound(ps: Pairs, caps: seq<nat>)
    requires |ps| == |caps| && forall i :: 0 <= i < |ps| ==> PairBytes(ps[i]) <= caps[i]
    ensures PairsBytes(ps) <= Sum(caps)
  {
    if ps != [] {
      assert forall i :: 0 <= i < |ps| - 1 ==> ps[1..][i] == ps[i + 1] && caps[1..][i] == caps[i + 1];
      PairsBound(ps[1..], caps[1..]);
    }
  }

  lemma ApprovalBodyBytes(b: Body)
    requires b.ApprovalBody?
    requires |b.scope| <= MAX_NAME_CHARS && |b.tool| <= MAX_NAME_CHARS && |b.summary| <= MAX_SUMMARY_CHARS
    ensures PairsBytes(BodyPairs(b)) <= 8_050
  {
    var plain := b.(grantScopes := false);
    PairsBound(BodyPairs(plain), [50, 800, 800, 6100, 100, 100]);
    assert Sum([50, 800, 800, 6100, 100, 100]) == 7_950;
    if b.grantScopes {
      var grant: Pairs := [("grantScopes", VList([VWord("session"), VWord("workspace")]))];
      assert BodyPairs(b) == BodyPairs(plain) + grant;
      PairsBound(grant, [90]);
      PairsBytesConcat(BodyPairs(plain), grant);
    }
  }

  lemma ChoiceBytes(choices: seq<Text>)
    requires |choices| <= MAX_CHOICES
    requires forall i :: 0 <= i < |choices| ==> |choices[i]| <= MAX_CHOICE_CHARS
    ensures ValueBytes(ChoiceValue(choices)) <= 19_400
  {
    var items := ChoiceValue(choices).items;
    ListBytesBound(items, 602);
    assert |items| * 603 <= 32 * 603;
  }

  lemma HumanBodyBytes(b: Body)
    requires b.HumanBody? && |b.prompt| <= MAX_PROMPT_CHARS
    requires b.choices.Some? ==> |b.choices.value| <= MAX_CHOICES
    requires b.choices.Some? ==> forall c :: c in b.choices.value ==> |c| <= MAX_CHOICE_CHARS
    ensures PairsBytes(BodyPairs(b)) <= 32_000
  {
    var head: Pairs :=
      [("kind", VWord("human")), ("humanKind", VWord(KindWord(b.humanKind))), ("prompt", VText(b.prompt))];
    var choices: Pairs := if b.choices.None? then [] else [("choices", ChoiceValue(b.choices.value))];
    PairsBound(head, [50, 50, 12_050]);
    assert Sum([50, 50, 12_050]) == 12_150;
    if b.choices.Some? {
      ChoiceBytes(b.choices.value);
      PairsBound(choices, [19_450]);
    }
    PairsBytesConcat(head, choices);
    HumanTailBytes(b);
    PairsBytesConcat(head + choices, HumanTail(b));
  }

  lemma HumanTailBytes(b: Body)
    requires b.HumanBody?
    ensures PairsBytes(HumanTail(b)) <= 200
  {
    PairsBound(HumanTail(b), [100, 100]);
    assert Sum([100, 100]) == 200;
  }

  lemma FlagBytes(r: Request)
    ensures PairsBytes(FlagPairs(r)) <= 200
  {
    var truncated := ("truncated", VFlag(true));
    var omitted := ("omittedChoices", VNum(Figure(r.omittedChoices as real, 25)));
    PairsBound(if r.truncated then [truncated] else [], if r.truncated then [50] else []);
    PairsBound(if r.omittedChoices > 0 then [omitted] else [], if r.omittedChoices > 0 then [50] else []);
    PairsBytesConcat(if r.truncated then [truncated] else [], if r.omittedChoices > 0 then [omitted] else []);
  }

  /** The frames the channel itself builds, besides requests. */
  datatype Notice =
    | Hello(nonce: Text, version: Text, pid: Number)
    | Auth(proof: Text)
    | Resolved(id: Text, outcome: Outcome, who: Answerer)
    | UnknownRequest(id: Text)
    | BadAnswer(id: Text, code: Code)
    | ViewDisabled(session: Option<Text>)

  datatype Outcome = Approved | Denied | Finished | Aborted | TimedOut

  datatype Answerer = ByOperator | ByBrowxai | ByTimeout

  function OutcomeOf(d: Decision): Outcome {
    match d
    case Approve => Approved
    case Deny => Denied
    case Done => Finished
    case Abort => Aborted
  }

  function OutcomeWord(o: Outcome): (w: string)
    ensures |w| <= 8
  {
    match o
    case Approved => "approved"
    case Denied => "denied"
    case Finished => "done"
    case Aborted => "aborted"
    case TimedOut => "timeout"
  }

  function AnswererWord(a: Answerer): (w: string)
    ensures |w| <= 8
  {
    match a
    case ByOperator => "operator"
    case ByBrowxai => "browxai"
    case ByTimeout => "timeout"
  }

  function NoticePairs(n: Notice): Pairs {
    [VERSION]
    + match n
      case Hello(nonce, version, pid) =>
        [("type", VWord("hello")), ("nonce", VText(nonce)), ("browxai", VText(version)), ("pid", VNum(pid))]
      case Auth(proof) => [("type", VWord("auth")), ("proof", VText(proof))]
      case Resolved(id, outcome, who) =>
        [("type", VWord("resolved")), ("id", VText(id)), ("outcome", VWord(OutcomeWord(outcome))),
         ("by", VWord(AnswererWord(who)))]
      case UnknownRequest(id) =>
        [("type", VWord("error")), ("id", VText(id)), ("code", VWord("unknown-request"))]
      case BadAnswer(id, code) =>
        [("type", VWord("error")), ("id", VText(id)),
         ("code", VWord(if code.InvalidAnswer? then "invalid-answer" else "grant-not-allowed"))]
      case ViewDisabled(session) =>
        [("type", VWord("error")), ("code", VWord("view-disabled"))]
        + if session.None? then [] else [("session", VText(session.value))]
  }

  /** The texts of a notice are as short as the channel makes them. */
  predicate Short(n: Notice) {
    match n
    case Hello(nonce, version, _) => |nonce| <= 32 && |version| <= 64
    case Auth(proof) => |proof| <= 64
    case Resolved(id, _, _) => |id| <= ID_CHARS
    case UnknownRequest(id) => |id| <= 64
    case BadAnswer(id, _) => |id| <= ID_CHARS
    case ViewDisabled(session) => session.Some? ==> |session.value| <= 128
  }

  lemma NoticeFits(n: Notice)
    requires Short(n)
    ensures LineBytes(NoticePairs(n)) <= 2_000
  {
    match n
    case Hello(_, _, _) => HandshakeFits(n);
    case Auth(_) => HandshakeFits(n);
    case Resolved(_, _, _) => PairsBound(NoticePairs(n), [50, 50, 400, 50, 50]);
      assert Sum([50, 50, 400, 50, 50]) == 600;
    case _ => ErrorFits(n);
  }

  lemma HandshakeFits(n: Notice)
    requires (n.Hello? || n.Auth?) && Short(n)
    ensures LineBytes(NoticePairs(n)) <= 2_000
  {
    if n.Hello? {
      PairsBound(NoticePairs(n), [50, 50, 400, 400, 50]);
      assert Sum([50, 50, 400, 400, 50]) == 950;
    } else {
      PairsBound(NoticePairs(n), [50, 50, 400]);
      assert Sum([50, 50, 400]) == 500;
    }
  }

  lemma ErrorFits(n: Notice)
    requires (n.UnknownRequest? || n.BadAnswer? || n.ViewDisabled?) && Short(n)
    ensures LineBytes(NoticePairs(n)) <= 2_000
  {
    if n == ViewDisabled(None) {
      PairsBound(NoticePairs(n), [50, 50, 50]);
      assert Sum([50, 50, 50]) == 150;
    } else if n.ViewDisabled? {
      PairsBound(NoticePairs(n), [50, 50, 50, 800]);
      assert Sum([50, 50, 50, 800]) == 950;
    } else {
      AnswerErrorFits(n);
    }
  }

  lemma AnswerErrorFits(n: Notice)
    requires (n.UnknownRequest? || n.BadAnswer?) && Short(n)
    ensures LineBytes(NoticePairs(n)) <= 2_000
  {
    PairsBound(NoticePairs(n), [50, 50, 400, 50]);
    assert Sum([50, 50, 400, 50]) == 550;
  }

  function HeadPairs(r: Request): Pairs {
    [VERSION, ("type", VWord("request")), ("id", VText(r.id)), ("session", VText(r.session)),
     ("createdAt", VNum(r.createdAt)), ("expiresAt", VNum(r.expiresAt))]
  }

  lemma HeadBytes(r: Request)
    requires |r.id| <= ID_CHARS && |r.session| <= MAX_NAME_CHARS
    ensures PairsBytes(HeadPairs(r)) <= 1_400
  {
    PairsBound(HeadPairs(r), [50, 50, 400, 800, 50, 50]);
    assert Sum([50, 50, 400, 800, 50, 50]) == 1_400;
  }

  /** Whatever an agent or a page puts into a prompt, its request line stays under
      40 KiB, so the channel's own refusal of an oversized request never happens. */
  lemma RequestFits(id: Text, ask: Ask, createdAt: Number)
    requires |id| <= ID_CHARS
    ensures LineBytes(RequestPairs(RequestOf(id, ask, createdAt))) <= 40 * 1024 < MAX_FRAME_BYTES
  {
    var r := RequestOf(id, ask, createdAt);
    HeadBytes(r);
    if r.body.ApprovalBody? { ApprovalBodyBytes(r.body); } else { HumanBodyBytes(r.body); }
    FlagBytes(r);
    PairsBytesConcat(HeadPairs(r), BodyPairs(r.body));
    PairsBytesConcat(HeadPairs(r) + BodyPairs(r.body), FlagPairs(r));
  }

  // ---------- live view lines ----------

  /** Base64 text takes one byte a character. */
  predicate IsBase64(t: Text) { forall i :: 0 <= i < |t| ==> 0x23 <= t[i] < 0x7F && t[i] != 0x5C }

  lemma {:induction false} Base64Bytes(t: Text)
    requires IsBase64(t)
    ensures TextBytes(t) == |t|
  {
    if t != [] { Base64Bytes(t[1..]); }
  }

  /** A part of a frame, with the picture size when the header gave one. */
  function PartPairs(p: ViewRules.Part, seqNo: Number, at: Number, size: Option<(Number, Number)>,
                     part: Number, parts: Number): Pairs
  {
    PartHead(p.session, seqNo, at) + SizePairs(size)
    + [("part", VNum(part)), ("parts", VNum(parts)), ("data", VText(p.data))]
  }

  function PartHead(session: Text, seqNo: Number, at: Number): Pairs {
    [VERSION, ("type", VWord("frame")), ("session", VText(session)), ("seq", VNum(seqNo)), ("at", VNum(at)),
     ("format", VWord("jpeg"))]
  }

  function SizePairs(size: Option<(Number, Number)>): Pairs {
    if size.None? then [] else [("height", VNum(size.value.0)), ("width", VNum(size.value.1))]
  }

  lemma SizeBytes(size: Option<(Number, Number)>)
    ensures PairsBytes(SizePairs(size)) <= 100
  {
    if size.Some? {
      PairsBound(SizePairs(size), [50, 50]);
      assert Sum([50, 50]) == 100;
    }
  }

  /** A part of a base64 frame fits a line with room to spare. */
  lemma PartFits(p: ViewRules.Part, seqNo: Number, at: Number, size: Option<(Number, Number)>,
                 part: Number, parts: Number)
    requires |p.session| <= ViewRules.MAX_SESSION_CHARS
    requires |p.data| <= ViewRules.PART_CHARS && IsBase64(p.data)
    ensures LineBytes(PartPairs(p, seqNo, at, size, part, parts)) <= 42 * 1024 < MAX_FRAME_BYTES
  {
    Base64Bytes(p.data);
    var head := PartHead(p.session, seqNo, at);
    var tail := [("part", VNum(part)), ("parts", VNum(parts)), ("data", VText(p.data))];
    PairsBound(head, [50, 50, 800, 50, 50, 50]);
    PairsBound(tail, [50, 50, 40_980]);
    assert Sum([50, 50, 800, 50, 50, 50]) == 1_050 && Sum([50, 50, 40_980]) == 41_080;
    SizeBytes(size);
    PairsBytesConcat(head, SizePairs(size));
    PairsBytesConcat(head + SizePairs(size), tail);
  }
}

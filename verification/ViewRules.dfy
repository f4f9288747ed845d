/** The live view's rules: what a `view.start` may ask for, the quality ladder
    with the adapter that walks it, and the cut of one frame into parts.
    (src/helper/operator-view.ts) */
module ViewRules {
  import opened Json
  import opened Reals

  const MAX_STREAMS := 4
  const PART_CHARS := 40_960
  const MAX_PARTS := 16
  const ACK_TIMEOUT_MS := 5_000.0
  const STALL_STOP_MS := 30_000.0
  const MAX_SESSION_CHARS := 128

  datatype ViewParams = ViewParams(maxFps: real, maxWidth: int, quality: real)

  datatype ViewLevel = ViewLevel(fps: real, width: int)

  /** What `ParseViewStart` lets through. */
  predicate InCeiling(p: ViewParams) {
    && 0.2 <= p.maxFps <= 5.0
    && 160 <= p.maxWidth <= 1280
    && 10.0 <= p.quality <= 80.0
  }

  /** What a start is given that names no numbers. */
  const DEFAULTS := ViewParams(5.0, 960, 60.0)

  /** The parameters of a start that was let through. */
  type Params = p: ViewParams | InCeiling(p) witness DEFAULTS

  function MinReal(a: real, b: real): real { if a <= b then a else b }

  function MaxReal(a: real, b: real): real { if a >= b then a else b }

  function MinInt(a: int, b: int): int { if a <= b then a else b }

  /** `Math.round`: to the nearest integer, halves up. */
  function Round(x: real): int { (x + 0.5).Floor }

  // ---------- view.start ----------

  datatype Number = Bad | Value(n: real)

  /** The number a field names, or its default. */
  function AskedFor(f: Fields, key: string, fallback: real): real {
    if key in f && f[key].Num? then f[key].n else fallback
  }

  function Distance(a: real, b: real): real { if a <= b then b - a else a - b }

  /** Nothing between the bounds is nearer to what was asked for. */
  ghost predicate Nearest(x: real, asked: real, min: real, max: real) {
    min <= x <= max && forall y :: min <= y <= max ==> Distance(x, asked) <= Distance(y, asked)
  }

  /** A field of a `view.start`: its default when absent, clamped when finite. */
  function Clamped(f: Fields, key: string, fallback: real, min: real, max: real): (r: Number)
    requires min <= fallback <= max
    ensures r.Bad? <==> key in f && !f[key].Num?
    ensures r.Value? ==> min <= r.n <= max && Nearest(r.n, AskedFor(f, key, fallback), min, max)
  {
    if key !in f then Value(fallback)
    else if !f[key].Num? then Bad
    else Value(MinReal(max, MaxReal(min, f[key].n)))
  }

  datatype ViewStart = Refused | Accepted(session: Text, params: ViewParams)

  function ParseViewStart(f: Fields): (r: ViewStart)
    ensures r.Accepted? ==> InCeiling(r.params) && 0 < |r.session| <= MAX_SESSION_CHARS
    ensures r.Accepted? ==> "session" in f && f["session"] == Str(r.session)
    ensures r.Accepted? ==>
              && Nearest(r.params.maxFps, AskedFor(f, "maxFps", 5.0), 0.2, 5.0)
              && Nearest(r.params.quality, AskedFor(f, "quality", 60.0), 10.0, 80.0)
              && exists w :: Nearest(w, AskedFor(f, "maxWidth", 960.0), 160.0, 1280.0) && r.params.maxWidth == Round(w)
    ensures r.Accepted? <==>
            && "session" in f && f["session"].Str? && 0 < |f["session"].s| <= MAX_SESSION_CHARS
            && ("format" !in f || Is(f, "format", "jpeg"))
            && forall key :: key in ["maxFps", "maxWidth", "quality"] && key in f ==> f[key].Num?
  {
    if "session" !in f || !f["session"].Str? || |f["session"].s| == 0
       || |f["session"].s| > MAX_SESSION_CHARS then Refused
    else if "format" in f && !Is(f, "format", "jpeg") then
      Refused
    else
      var maxFps := Clamped(f, "maxFps", 5.0, 0.2, 5.0);
      var maxWidth := Clamped(f, "maxWidth", 960.0, 160.0, 1280.0);
      var quality := Clamped(f, "quality", 60.0, 10.0, 80.0);
      assert "maxFps" in ["maxFps", "maxWidth", "quality"];
      assert "maxWidth" in ["maxFps", "maxWidth", "quality"];
      assert "quality" in ["maxFps", "maxWidth", "quality"];
      if maxFps.Bad? || maxWidth.Bad? || quality.Bad? then Refused
      else Accepted(f["session"].s, ViewParams(maxFps.n, Round(maxWidth.n), quality.n))
  }

  // ---------- the ladder ----------

  const STEPS: nat := 4

  /** The point a share `t` of the way from `top` to `floor`. */
  function Mix(top: real, floor: real, t: real): real { top + (floor - top) * t }

  function LevelBetween(p: ViewParams, floorFps: real, floorWidth: int, t: real): ViewLevel {
    ViewLevel(
      Round(Mix(p.maxFps, floorFps, t) * 10.0) as real / 10.0,
      Round(Mix(p.maxWidth as real, floorWidth as real, t)))
  }

  /** The share of the way down that step `i` has gone. */
  function Share(i: nat): real { i as real / (STEPS - 1) as real }

  /** The picture `i` of `STEPS - 1` steps down from the request to the floor. */
  function LevelAt(p: ViewParams, i: nat): ViewLevel {
    LevelBetween(p, MinReal(p.maxFps, 1.0), MinInt(p.maxWidth, 640), Share(i))
  }

  /** All `STEPS` pictures, from the request to the floor. */
  function Levels(p: ViewParams): (ls: seq<ViewLevel>)
    ensures |ls| == STEPS
  {
    seq(STEPS, i requires 0 <= i < STEPS => LevelAt(p, i))
  }

  /** A list with immediate repeats left out. */
  function Compress(ls: seq<ViewLevel>): seq<ViewLevel> {
    if ls == [] then []
    else
      var out, level := Compress(ls[..|ls| - 1]), ls[|ls| - 1];
      if out != [] && out[|out| - 1] == level then out else out + [level]
  }

  function Ladder(p: ViewParams): seq<ViewLevel> { Compress(Levels(p)) }

  /** No level is richer than one before it, and no level comes twice. */
  predicate Descending(levels: seq<ViewLevel>) {
    forall i, j :: 0 <= i < j < |levels| ==>
      && levels[i].fps >= levels[j].fps
      && levels[i].width >= levels[j].width
      && levels[i] != levels[j]
  }

  method LevelsFor(p: ViewParams) returns (out: seq<ViewLevel>)
    ensures out == Ladder(p)
  {
    var floorFps := MinReal(p.maxFps, 1.0);
    var floorWidth := MinInt(p.maxWidth, 640);
    out := [];
    for i := 0 to STEPS
      invariant out == Compress(Levels(p)[..i])
    {
      assert Levels(p)[..i + 1][..i] == Levels(p)[..i];
      var level := LevelBetween(p, floorFps, floorWidth, Share(i));
      if out == [] || out[|out| - 1] != level {
        out := out + [level];
      }
    }
    assert Levels(p)[..STEPS] == Levels(p);
  }

  lemma RoundMonotone(x: real, y: real)
    requires x <= y
    ensures Round(x) <= Round(y)
  {
  }

  lemma MixDescends(top: real, floor: real, t: real, u: real)
    requires floor <= top && t <= u
    ensures Mix(top, floor, u) <= Mix(top, floor, t)
  {
    ProductNonNegative(top - floor, u - t);
    assert Mix(top, floor, t) - Mix(top, floor, u) == (top - floor) * (u - t);
  }

  /** One step further down never asks for more. */
  lemma LevelStepsDown(p: ViewParams, i: nat)
    ensures LevelAt(p, i).fps >= LevelAt(p, i + 1).fps
    ensures LevelAt(p, i).width >= LevelAt(p, i + 1).width
  {
    var t, u := Share(i), Share(i + 1);
    var f, w := MinReal(p.maxFps, 1.0), MinInt(p.maxWidth, 640) as real;
    MixDescends(p.maxFps, f, t, u);
    MixDescends(p.maxWidth as real, w, t, u);
    RoundMonotone(Mix(p.maxFps, f, u) * 10.0, Mix(p.maxFps, f, t) * 10.0);
    RoundMonotone(Mix(p.maxWidth as real, w, u), Mix(p.maxWidth as real, w, t));
  }

  lemma {:induction false} CompressDescends(ls: seq<ViewLevel>)
    requires ls != []
    requires forall i :: 0 <= i < |ls| - 1 ==> ls[i].fps >= ls[i + 1].fps && ls[i].width >= ls[i + 1].width
    ensures var out := Compress(ls);
            && 0 < |out| <= |ls| && Descending(out)
            && out[0] == ls[0] && out[|out| - 1] == ls[|ls| - 1]
  {
    if |ls| > 1 {
      var front := ls[..|ls| - 1];
      CompressDescends(front);
      assert front[|front| - 1] == ls[|ls| - 2];
    }
  }

  lemma EndsOfTheLadder(p: ViewParams)
    ensures Levels(p)[0] == ViewLevel(Round(p.maxFps * 10.0) as real / 10.0, p.maxWidth)
    ensures Levels(p)[STEPS - 1]
         == ViewLevel(Round(MinReal(p.maxFps, 1.0) * 10.0) as real / 10.0, MinInt(p.maxWidth, 640))
  {
    assert Share(0) == 0.0 && Share(3) == 1.0;
  }

  /** The ladder the adapter walks: it starts at the request, ends at the floors,
      only ever goes down, and holds no level twice. Rates are rounded to 0.1. */
  lemma LadderShape(p: ViewParams)
    ensures var levels := Ladder(p);
            && 1 <= |levels| <= STEPS
            && Descending(levels)
            && levels[0] == ViewLevel(Round(p.maxFps * 10.0) as real / 10.0, p.maxWidth)
            && levels[|levels| - 1]
               == ViewLevel(Round(MinReal(p.maxFps, 1.0) * 10.0) as real / 10.0, MinInt(p.maxWidth, 640))
  {
    forall i | 0 <= i < STEPS - 1
      ensures Levels(p)[i].fps >= Levels(p)[i + 1].fps && Levels(p)[i].width >= Levels(p)[i + 1].width
    {
      LevelStepsDown(p, i);
    }
    CompressDescends(Levels(p));
    EndsOfTheLadder(p);
  }

  /** No request that `ParseViewStart` accepts steps under 0.2 fps or 160 px. */
  lemma LadderFloor(p: ViewParams)
    requires InCeiling(p)
    ensures forall level :: level in Ladder(p) ==> 0.2 <= level.fps && 160 <= level.width
  {
    LadderShape(p);
    RoundMonotone(2.0, MinReal(p.maxFps, 1.0) * 10.0);
    assert Round(2.0) == 2;
  }

  // ---------- the adapter ----------

  datatype Move = Down | Up | Same

  datatype Adapter = Adapter(
    levels: seq<ViewLevel>, index: nat, sent: nat, dropped: nat, clean: nat, rtt: Option<real>)
  {
    predicate Valid() { index < |levels| && forall l :: l in levels ==> l.fps > 0.0 }

    function Level(): ViewLevel
      requires Valid()
    {
      levels[index]
    }

    function NoteAck(ms: real): Adapter {
      this.(rtt := Some(if rtt.None? then ms else rtt.value * 0.7 + ms * 0.3))
    }

    /** A window with two drops or more, at least 40% of its frames. */
    predicate Slow() { dropped >= 2 && 10 * dropped >= 4 * (sent + dropped) }

    /** A window that sent something and dropped nothing. */
    predicate Clean() { dropped == 0 && sent > 0 }

    /** The acks leave room for the next level up. */
    predicate Headroom()
      requires Valid()
    {
      index > 0 && rtt.Some? && rtt.value < 1000.0 / levels[index - 1].fps * 0.6
    }

    /** Which way the level moves when the window closes. */
    function Decide(): (m: Move)
      requires Valid()
      ensures m == Down ==> index + 1 < |levels|
      ensures m == Up ==> index > 0
    {
      if Slow() then (if index < |levels| - 1 then Down else Same)
      else if Clean() && clean + 1 >= 5 && Headroom() then Up
      else Same
    }

    function Closed(): (a: Adapter)
      requires Valid()
      ensures a.Valid()
    {
      var m := Decide();
      this.(
        sent := 0,
        dropped := 0,
        index := match m case Down => index + 1 case Up => index - 1 case Same => index,
        clean := if Clean() && m == Same then clean + 1 else 0)
    }
  }

  /** The share of a window's frames that were dropped, against 40%. */
  lemma DropShare(dropped: nat, total: nat)
    requires total > 0
    ensures dropped as real / total as real >= 0.4 <==> 10 * dropped >= 4 * total
  {
    ShareAtLeast(dropped as real, total as real, 0.4);
  }

  function NewAdapter(p: ViewParams): Adapter {
    Adapter(Ladder(p), 0, 0, 0, 0, None)
  }

  lemma NewAdapterValid(p: ViewParams)
    requires InCeiling(p)
    ensures NewAdapter(p).Valid()
  {
    LadderShape(p);
    LadderFloor(p);
  }

  class ViewAdapter {
    const levels: seq<ViewLevel>
    var index: nat
    var sent: nat
    var dropped: nat
    var clean: nat
    var rtt: Option<real>

    ghost function State(): Adapter
      reads this
    {
      Adapter(levels, index, sent, dropped, clean, rtt)
    }

    constructor (p: ViewParams)
      ensures State() == NewAdapter(p)
    {
      var ladder := LevelsFor(p);
      levels := ladder;
      index, sent, dropped, clean, rtt := 0, 0, 0, 0, None;
    }

    method NoteSent()
      modifies this
      ensures State() == old(State()).(sent := old(sent) + 1)
    {
      sent := sent + 1;
    }

    method NoteDropped()
      modifies this
      ensures State() == old(State()).(dropped := old(dropped) + 1)
    {
      dropped := dropped + 1;
    }

    method NoteAck(rttMs: real)
      modifies this
      ensures State() == old(State()).NoteAck(rttMs)
    {
      rtt := Some(if rtt.None? then rttMs else rtt.value * (1.0 - 0.3) + rttMs * 0.3);
    }

    method CloseWindow() returns (move: Move)
      requires State().Valid()
      modifies this
      ensures State() == old(State()).Closed() && move == old(State()).Decide()
    {
      var sent0, dropped0 := sent, dropped;
      sent, dropped := 0, 0;
      var total := sent0 + dropped0;
      if total > 0 { DropShare(dropped0, total); }
      move := Same;
      if dropped0 >= 2 && dropped0 as real / total as real >= 0.4 {
        clean := 0;
        if index < |levels| - 1 {
          index := index + 1;
          move := Down;
        }
      } else if dropped0 > 0 || sent0 == 0 {
        clean := 0;
      } else {
        clean := clean + 1;
        if clean >= 5 && index >= 1 && rtt.Some? && rtt.value < 1000.0 / levels[index - 1].fps * 0.6 {
          clean := 0;
          index := index - 1;
          move := Up;
        }
      }
    }
  }

  // ---------- runs of the adapter ----------

  datatype AdapterEvent = Sent | Dropped | Acked(ms: real) | WindowEnds

  /** What one closed window saw and did. */
  datatype Window = Window(clean: bool, move: Move)

  datatype AdapterRun = AdapterRun(adapter: Adapter, windows: seq<Window>)

  function AdapterStep(r: AdapterRun, e: AdapterEvent): (r': AdapterRun)
    requires r.adapter.Valid()
    ensures r'.adapter.Valid() && r'.adapter.levels == r.adapter.levels
  {
    var a := r.adapter;
    match e
    case Sent => r.(adapter := a.(sent := a.sent + 1))
    case Dropped => r.(adapter := a.(dropped := a.dropped + 1))
    case Acked(ms) => r.(adapter := a.NoteAck(ms))
    case WindowEnds => AdapterRun(a.Closed(), r.windows + [Window(a.Clean(), a.Decide())])
  }

  function RunAdapter(a: Adapter, events: seq<AdapterEvent>): (r: AdapterRun)
    requires a.Valid()
    ensures r.adapter.Valid() && r.adapter.levels == a.levels
  {
    if events == [] then AdapterRun(a, [])
    else AdapterStep(RunAdapter(a, events[..|events| - 1]), events[|events| - 1])
  }

  function Count(windows: seq<Window>, m: Move): (n: nat)
    ensures n <= |windows|
  {
    if windows == [] then 0
    else Count(windows[..|windows| - 1], m) + if windows[|windows| - 1].move == m then 1 else 0
  }

  /** `n` windows ending just before position `k` were clean and moved nothing. */
  predicate CleanStretch(windows: seq<Window>, k: nat, n: nat)
    requires k <= |windows|
  {
    n <= k && forall i :: k - n <= i < k ==> windows[i] == Window(true, Same)
  }

  predicate RunInv(r: AdapterRun) {
    && r.adapter.index == Count(r.windows, Down) - Count(r.windows, Up)
    && CleanStretch(r.windows, |r.windows|, r.adapter.clean)
    && 5 * Count(r.windows, Up) + r.adapter.clean <= |r.windows|
    && forall k :: 0 <= k < |r.windows| && r.windows[k].move == Up ==>
         r.windows[k].clean && CleanStretch(r.windows, k, 4)
  }

  lemma RunInvStep(r: AdapterRun, e: AdapterEvent)
    requires r.adapter.Valid() && RunInv(r)
    ensures RunInv(AdapterStep(r, e))
  {
    if e.WindowEnds? {
      var r' := AdapterStep(r, e);
      var n := |r.windows|;
      assert r'.windows[..n] == r.windows;
      forall k | 0 <= k < |r'.windows| && r'.windows[k].move == Up
        ensures r'.windows[k].clean && CleanStretch(r'.windows, k, 4)
      {
        if k < n {
          assert CleanStretch(r.windows, k, 4);
        }
      }
    }
  }

  /** Over any run from a fresh adapter the index is downs minus ups and stays on
      the ladder. A rise ends five clean windows in a row with no move among the
      first four, so a run of n windows rises at most n/5 times. */
  lemma {:induction false} AdapterHysteresis(p: ViewParams, events: seq<AdapterEvent>)
    requires NewAdapter(p).Valid()
    ensures var r := RunAdapter(NewAdapter(p), events);
            && 0 <= r.adapter.index == Count(r.windows, Down) - Count(r.windows, Up)
            && r.adapter.index < |Ladder(p)|
            && 5 * Count(r.windows, Up) <= |r.windows|
            && forall k :: 0 <= k < |r.windows| && r.windows[k].move == Up ==>
                 r.windows[k].clean && CleanStretch(r.windows, k, 4)
    ensures RunInv(RunAdapter(NewAdapter(p), events))
  {
    if events != [] {
      var front := events[..|events| - 1];
      AdapterHysteresis(p, front);
      RunInvStep(RunAdapter(NewAdapter(p), front), events[|events| - 1]);
    }
  }

  // ---------- frame parts ----------

  datatype Part = Part(session: Text, seqNo: nat, at: real, part: nat, parts: nat, data: Text)

  /** The pieces a frame of `n` characters needs, one at the least. */
  function PartCount(n: nat): nat {
    if n == 0 then 1 else (n + PART_CHARS - 1) / PART_CHARS
  }

  function Joined(parts: seq<Part>): Text {
    if parts == [] then [] else Joined(parts[..|parts| - 1]) + parts[|parts| - 1].data
  }

  /** The cut of `base64`: every piece but the last holds exactly `PART_CHARS`
      characters, a multiple of four, and the pieces join back to the frame. */
  ghost predicate IsCut(session: Text, seqNo: nat, at: real, base64: Text, parts: seq<Part>) {
    && |parts| == PartCount(|base64|)
    && Joined(parts) == base64
    && (forall i :: 0 <= i < |parts| ==>
          && parts[i].session == session && parts[i].seqNo == seqNo && parts[i].at == at
          && parts[i].part == i && parts[i].parts == |parts|
          && |parts[i].data| <= PART_CHARS)
    && (forall i :: 0 <= i < |parts| - 1 ==> |parts[i].data| == PART_CHARS)
  }

  /** `base64.slice(part * PART_CHARS, (part + 1) * PART_CHARS)`. */
  function Piece(base64: Text, part: nat): Text {
    var from := part * PART_CHARS;
    if |base64| <= from then [] else Prefix(base64[from..], PART_CHARS)
  }

  method FrameParts(session: Text, seqNo: nat, at: real, base64: Text) returns (r: Option<seq<Part>>)
    ensures r == CutFrame(session, seqNo, at, base64)
  {
    var parts := PartCount(|base64|);
    if parts > MAX_PARTS {
      return None;
    }
    var out: seq<Part> := [];
    for part := 0 to parts
      invariant out == Pieces(session, seqNo, at, base64, parts, part)
    {
      out := out + [Part(session, seqNo, at, part, parts, Piece(base64, part))];
    }
    return Some(out);
  }

  function Pieces(session: Text, seqNo: nat, at: real, base64: Text, parts: nat, n: nat): (ps: seq<Part>)
    ensures |ps| == n
  {
    if n == 0 then []
    else Pieces(session, seqNo, at, base64, parts, n - 1)
         + [Part(session, seqNo, at, n - 1, parts, Piece(base64, n - 1))]
  }

  function CutFrame(session: Text, seqNo: nat, at: real, base64: Text): Option<seq<Part>> {
    var parts := PartCount(|base64|);
    if parts > MAX_PARTS then None else Some(Pieces(session, seqNo, at, base64, parts, parts))
  }

  lemma PieceExtends(base64: Text, n: nat)
    ensures Prefix(base64, n * PART_CHARS) + Piece(base64, n) == Prefix(base64, (n + 1) * PART_CHARS)
  {
    var from := n * PART_CHARS;
    if |base64| > from {
      assert base64 == base64[..from] + base64[from..];
      if |base64| - from > PART_CHARS {
        assert base64[from..][..PART_CHARS] == base64[from..from + PART_CHARS];
      }
    }
  }

  /** The first `n` pieces carry the first `n * PART_CHARS` characters. */
  lemma {:induction false} PiecesJoin(session: Text, seqNo: nat, at: real, base64: Text, parts: nat, n: nat)
    requires n <= parts == PartCount(|base64|)
    ensures var ps := Pieces(session, seqNo, at, base64, parts, n);
            && Joined(ps) == Prefix(base64, n * PART_CHARS)
            && (forall i :: 0 <= i < n ==> ps[i] == Part(session, seqNo, at, i, parts, Piece(base64, i)))
  {
    if n > 0 {
      PiecesJoin(session, seqNo, at, base64, parts, n - 1);
      PieceExtends(base64, n - 1);
      assert Pieces(session, seqNo, at, base64, parts, n)[..n - 1]
          == Pieces(session, seqNo, at, base64, parts, n - 1);
    } else {
      assert Prefix(base64, 0) == [];
    }
  }

  /** `PartCount` pieces are enough, and one fewer is not. */
  lemma PartCountFits(n: nat)
    ensures n <= PartCount(n) * PART_CHARS
    ensures PartCount(n) == 1 || (PartCount(n) - 1) * PART_CHARS < n
  {
  }

  lemma PieceLength(base64: Text, i: nat)
    ensures |Piece(base64, i)| <= PART_CHARS
    ensures (i + 1) * PART_CHARS <= |base64| ==> |Piece(base64, i)| == PART_CHARS
  {
  }

  /** A frame is refused exactly when it is longer than sixteen full parts, and
      what goes out otherwise is a cut of it. */
  lemma CutFrameIsCut(session: Text, seqNo: nat, at: real, base64: Text)
    ensures var r := CutFrame(session, seqNo, at, base64);
            && (r.None? <==> |base64| > MAX_PARTS * PART_CHARS)
            && (r.Some? ==> IsCut(session, seqNo, at, base64, r.value))
            && PART_CHARS % 4 == 0
  {
    var parts := PartCount(|base64|);
    PartCountFits(|base64|);
    if parts <= MAX_PARTS {
      var ps := Pieces(session, seqNo, at, base64, parts, parts);
      PiecesJoin(session, seqNo, at, base64, parts, parts);
      forall i | 0 <= i < parts
        ensures ps[i] == Part(session, seqNo, at, i, parts, Piece(base64, i)) && |ps[i].data| <= PART_CHARS
        ensures i < parts - 1 ==> |ps[i].data| == PART_CHARS
      {
        PieceLength(base64, i);
        assert i < parts - 1 ==> (i + 1) * PART_CHARS <= (parts - 1) * PART_CHARS;
      }
    }
  }
}

/** Script coverage: which byte ranges of a script never ran, merged, and what share of
    it did. (src/page/coverage.ts) */
module Coverage {
  import opened Collections
  import opened Json
  import opened Reals

  /** A half-open range of offsets; one that ends where or before it starts is empty. */
  type Range = (int, int)

  /** A CDP range. A field that is not a number is `None`. */
  datatype CdpRange = CdpRange(start: Option<int>, end: Option<int>, count: Option<int>)

  datatype Script = Script(url: string, functions: seq<seq<CdpRange>>)

  datatype Entry = Entry(url: string, totalBytes: int, usedBytes: int, usagePercent: real, deadRanges: seq<Range>)

  const MAX_DEAD_RANGES_PER_SCRIPT := 50

  // ---------- reading the ranges ----------

  function Furthest(total: int, ranges: seq<CdpRange>): int
    decreases |ranges|
  {
    if ranges == [] then total
    else
      var end := ranges[0].end;
      Furthest(if end.Some? && end.value > total then end.value else total, ranges[1..])
  }

  function SpanFrom(total: int, functions: seq<seq<CdpRange>>): int
    decreases |functions|
  {
    if functions == [] then total else SpanFrom(Furthest(total, functions[0]), functions[1..])
  }

  method ScriptTotalSpan(s: Script) returns (total: int)
    ensures total == SpanFrom(0, s.functions)
  {
    total := 0;
    for f := 0 to |s.functions|
      invariant SpanFrom(total, s.functions[f..]) == SpanFrom(0, s.functions)
    {
      var ranges := s.functions[f];
      ghost var was := total;
      for i := 0 to |ranges|
        invariant Furthest(total, ranges[i..]) == Furthest(was, ranges)
      {
        assert ranges[i..][0] == ranges[i] && ranges[i..][1..] == ranges[i + 1..];
        if ranges[i].end.Some? && ranges[i].end.value > total { total := ranges[i].end.value; }
      }
      assert s.functions[f..][0] == ranges && s.functions[f..][1..] == s.functions[f + 1..];
    }
  }

  /** A range whose code never ran and whose two ends are numbers. */
  predicate Idle(r: CdpRange) { r.count == Some(0) && r.start.Some? && r.end.Some? }

  function Ends(r: CdpRange): Range
    requires r.start.Some? && r.end.Some?
  {
    (r.start.value, r.end.value)
  }

  function IdleOf(ranges: seq<CdpRange>): seq<Range> {
    if ranges == [] then []
    else (if Idle(ranges[0]) then [Ends(ranges[0])] else []) + IdleOf(ranges[1..])
  }

  /** The dead ranges of one function: its whole body, or the idle blocks within. */
  function DeadOf(ranges: seq<CdpRange>): seq<Range> {
    if ranges == [] || ranges[0].start.None? || ranges[0].end.None? then []
    else if ranges[0].count == Some(0) then [Ends(ranges[0])]
    else IdleOf(ranges[1..])
  }

  function AllDead(functions: seq<seq<CdpRange>>): seq<Range> {
    if functions == [] then [] else DeadOf(functions[0]) + AllDead(functions[1..])
  }

  lemma IdleStep(ranges: seq<CdpRange>, i: nat)
    requires i < |ranges|
    ensures IdleOf(ranges[i..]) == (if Idle(ranges[i]) then [Ends(ranges[i])] else []) + IdleOf(ranges[i + 1..])
  {
    assert ranges[i..][0] == ranges[i] && ranges[i..][1..] == ranges[i + 1..];
  }

  method IdleBlocks(ranges: seq<CdpRange>) returns (dead: seq<Range>)
    requires ranges != []
    ensures dead == IdleOf(ranges[1..])
  {
    dead := [];
    for i := 1 to |ranges|
      invariant dead + IdleOf(ranges[i..]) == IdleOf(ranges[1..])
    {
      IdleStep(ranges, i);
      var r := ranges[i];
      var more := if r.count == Some(0) && r.start.Some? && r.end.Some? then [(r.start.value, r.end.value)] else [];
      Regroup(dead, more, IdleOf(ranges[i + 1..]));
      dead := dead + more;
    }
  }

  method DeadRangesOf(ranges: seq<CdpRange>) returns (dead: seq<Range>)
    ensures dead == DeadOf(ranges)
  {
    dead := [];
    if |ranges| > 0 && ranges[0].start.Some? && ranges[0].end.Some? {
      if ranges[0].count == Some(0) {
        dead := [(ranges[0].start.value, ranges[0].end.value)];
      } else {
        dead := IdleBlocks(ranges);
      }
    }
  }

  method CollectDeadRanges(s: Script) returns (dead: seq<Range>)
    ensures dead == AllDead(s.functions)
  {
    dead := [];
    for f := 0 to |s.functions|
      invariant dead + AllDead(s.functions[f..]) == AllDead(s.functions)
    {
      var more := DeadRangesOf(s.functions[f]);
      assert s.functions[f..][0] == s.functions[f] && s.functions[f..][1..] == s.functions[f + 1..];
      dead := dead + more;
    }
  }

  // ---------- merging ----------

  function Insert(r: Range, sorted: seq<Range>): seq<Range> {
    if sorted == [] || r.0 <= sorted[0].0 then [r] + sorted else [sorted[0]] + Insert(r, sorted[1..])
  }

  /** The ranges by start; those that start together keep their order. */
  function ByStart(ranges: seq<Range>): seq<Range> {
    if ranges == [] then [] else Insert(ranges[0], ByStart(ranges[1..]))
  }

  /** What is pushed from here on: the range in hand, then the rest. */
  function MergeFrom(sorted: seq<Range>, dStart: int, dEnd: int): seq<Range>
    decreases |sorted|
  {
    var inHand := if dEnd > dStart then [(dStart, dEnd)] else [];
    if sorted == [] then inHand
    else
      var (s, e) := sorted[0];
      if s > dEnd then inHand + MergeFrom(sorted[1..], s, e)
      else MergeFrom(sorted[1..], dStart, if e > dEnd then e else dEnd)
  }

  function Merge(ranges: seq<Range>): seq<Range> { MergeFrom(ByStart(ranges), -1, -1) }

  method MergeRanges(ranges: seq<Range>) returns (merged: seq<Range>)
    ensures merged == Merge(ranges)
  {
    var sorted := ByStart(ranges);
    merged := [];
    var dStart, dEnd := -1, -1;
    for i := 0 to |sorted|
      invariant merged + MergeFrom(sorted[i..], dStart, dEnd) == Merge(ranges)
    {
      var (s, e) := sorted[i];
      ghost var was, todo := merged, MergeFrom(sorted[i..], dStart, dEnd);
      assert sorted[i..][0] == sorted[i] && sorted[i..][1..] == sorted[i + 1..];
      if s > dEnd {
        if dEnd > dStart { merged := merged + [(dStart, dEnd)]; }
        dStart, dEnd := s, e;
      } else if e > dEnd {
        dEnd := e;
      }
      assert merged + MergeFrom(sorted[i + 1..], dStart, dEnd) == was + todo;
    }
    if dEnd > dStart { merged := merged + [(dStart, dEnd)]; }
  }

  // ---------- what merging means ----------

  /** Some range holds the offset. */
  ghost predicate Covered(ranges: seq<Range>, x: int) {
    exists i :: 0 <= i < |ranges| && ranges[i].0 <= x < ranges[i].1
  }

  /** Non-empty ranges in order, with a gap between any two. */
  ghost predicate Canonical(m: seq<Range>) {
    && (forall i :: 0 <= i < |m| ==> m[i].0 < m[i].1)
    && (forall i, j :: 0 <= i < j < |m| ==> m[i].1 < m[j].0)
  }

  ghost predicate Sorted(ranges: seq<Range>) {
    forall i, j :: 0 <= i < j < |ranges| ==> ranges[i].0 <= ranges[j].0
  }

  lemma {:induction false} InsertAddsOne(r: Range, sorted: seq<Range>)
    ensures multiset(Insert(r, sorted)) == multiset([r] + sorted)
  {
    if sorted != [] && r.0 > sorted[0].0 {
      InsertAddsOne(r, sorted[1..]);
      assert sorted == [sorted[0]] + sorted[1..];
    }
  }

  lemma {:induction false} InsertSorts(r: Range, sorted: seq<Range>)
    requires Sorted(sorted)
    ensures Sorted(Insert(r, sorted))
  {
    if sorted != [] && r.0 > sorted[0].0 {
      InsertSorts(r, sorted[1..]);
      InsertAddsOne(r, sorted[1..]);
      var rest := Insert(r, sorted[1..]);
      forall j | 0 <= j < |rest| ensures sorted[0].0 <= rest[j].0 {
        assert rest[j] in multiset([r] + sorted[1..]);
      }
    }
  }

  lemma {:induction false} ByStartSorts(ranges: seq<Range>)
    ensures Sorted(ByStart(ranges)) && multiset(ByStart(ranges)) == multiset(ranges)
  {
    if ranges != [] {
      ByStartSorts(ranges[1..]);
      InsertSorts(ranges[0], ByStart(ranges[1..]));
      InsertAddsOne(ranges[0], ByStart(ranges[1..]));
      assert ranges == [ranges[0]] + ranges[1..];
    }
  }

  lemma SameRangesCover(a: seq<Range>, b: seq<Range>, x: int)
    requires multiset(a) == multiset(b) && Covered(a, x)
    ensures Covered(b, x)
  {
    var i :| 0 <= i < |a| && a[i].0 <= x < a[i].1;
    assert a[i] in multiset(b);
    var j :| 0 <= j < |b| && b[j] == a[i];
  }

  lemma CoveredSplits(r: Range, rest: seq<Range>, x: int)
    ensures Covered([r] + rest, x) <==> r.0 <= x < r.1 || Covered(rest, x)
  {
    var all := [r] + rest;
    if Covered(rest, x) {
      var i :| 0 <= i < |rest| && rest[i].0 <= x < rest[i].1;
      assert all[i + 1] == rest[i];
    }
    if r.0 <= x < r.1 { assert all[0] == r; }
    if Covered(all, x) {
      var i :| 0 <= i < |all| && all[i].0 <= x < all[i].1;
      if i > 0 { assert rest[i - 1] == all[i]; }
    }
  }

  lemma {:induction false} MergeFromShape(sorted: seq<Range>, dStart: int, dEnd: int)
    requires Sorted(sorted) && (dStart <= dEnd || forall i :: 0 <= i < |sorted| ==> dStart <= sorted[i].0)
    ensures Canonical(MergeFrom(sorted, dStart, dEnd))
    ensures forall r :: r in MergeFrom(sorted, dStart, dEnd) ==> dStart <= r.0
    decreases |sorted|
  {
    if sorted != [] {
      var (s, e) := sorted[0];
      if s > dEnd { MergeFromShape(sorted[1..], s, e); }
      else { MergeFromShape(sorted[1..], dStart, if e > dEnd then e else dEnd); }
    }
  }

  lemma {:induction false} MergeFromCovers(sorted: seq<Range>, dStart: int, dEnd: int, x: int)
    requires Sorted(sorted) && (dStart <= dEnd || forall i :: 0 <= i < |sorted| ==> dStart <= sorted[i].0)
    ensures Covered(MergeFrom(sorted, dStart, dEnd), x) <==> dStart <= x && (x < dEnd || Covered(sorted, x))
    decreases |sorted|
  {
    if sorted == [] {
      CoveredSplits((dStart, dEnd), [], x);
      assert [(dStart, dEnd)] + [] == [(dStart, dEnd)];
    } else {
      var (s, e) := sorted[0];
      var d := if e > dEnd then e else dEnd;
      CoveredSplits(sorted[0], sorted[1..], x);
      assert [sorted[0]] + sorted[1..] == sorted;
      if s > dEnd {
        MergeFromCovers(sorted[1..], s, e, x);
        CoveredSplits((dStart, dEnd), MergeFrom(sorted[1..], s, e), x);
        assert [] + MergeFrom(sorted[1..], s, e) == MergeFrom(sorted[1..], s, e);
      } else {
        MergeFromCovers(sorted[1..], dStart, d, x);
      }
    }
  }

  /** Merging gives non-empty ranges in order with gaps between, which cover exactly the
      offsets from -1 up that the given ranges cover. */
  lemma MergeIsTheUnion(ranges: seq<Range>, x: int)
    ensures Canonical(Merge(ranges))
    ensures Covered(Merge(ranges), x) <==> x >= -1 && Covered(ranges, x)
  {
    ByStartSorts(ranges);
    MergeFromShape(ByStart(ranges), -1, -1);
    MergeFromCovers(ByStart(ranges), -1, -1, x);
    if Covered(ranges, x) { SameRangesCover(ranges, ByStart(ranges), x); }
    if Covered(ByStart(ranges), x) { SameRangesCover(ByStart(ranges), ranges, x); }
  }

  /** The merged ranges cover what the given ones do exactly when no non-empty range
      starts below -1; so they do for every range that a script can have. */
  lemma UnionExactly(ranges: seq<Range>)
    ensures (forall x :: Covered(Merge(ranges), x) <==> Covered(ranges, x))
            <==> (forall i :: 0 <= i < |ranges| && ranges[i].0 < -1 ==> ranges[i].1 <= ranges[i].0)
  {
    forall x ensures Covered(Merge(ranges), x) <==> x >= -1 && Covered(ranges, x) { MergeIsTheUnion(ranges, x); }
    if i :| 0 <= i < |ranges| && ranges[i].0 < -1 && ranges[i].0 < ranges[i].1 {
      assert Covered(ranges, ranges[i].0);
    }
  }

  lemma FirstOfCanonical(m: seq<Range>)
    requires Canonical(m) && m != []
    ensures Covered(m, m[0].0) && !Covered(m, m[0].1)
  {
  }

  lemma SameFirst(m: seq<Range>, n: seq<Range>)
    requires Canonical(m) && Canonical(n) && m != [] && n != []
    requires forall x :: Covered(m, x) <==> Covered(n, x)
    ensures m[0] == n[0]
  {
    FirstOfCanonical(m);
    FirstOfCanonical(n);
    assert Covered(m, n[0].0) && Covered(n, m[0].0);
    assert !Covered(m, n[0].1) && !Covered(n, m[0].1);
  }

  /** Two canonical lists that cover the same offsets are the same list. */
  lemma {:induction false} CanonicalIsUnique(m: seq<Range>, n: seq<Range>)
    requires Canonical(m) && Canonical(n) && forall x :: Covered(m, x) <==> Covered(n, x)
    ensures m == n
    decreases |m|
  {
    if n != [] { FirstOfCanonical(n); }
    if m != [] {
      FirstOfCanonical(m);
      SameFirst(m, n);
      forall x ensures Covered(m[1..], x) <==> Covered(n[1..], x) {
        assert m == [m[0]] + m[1..] && n == [n[0]] + n[1..];
        CoveredSplits(m[0], m[1..], x);
        CoveredSplits(n[0], n[1..], x);
      }
      CanonicalIsUnique(m[1..], n[1..]);
    }
  }

  /** The result depends on nothing but the set of offsets covered: neither on the order
      of the ranges nor on how they overlap. */
  lemma MergeForgetsTheRest(a: seq<Range>, b: seq<Range>)
    requires forall x :: Covered(a, x) <==> Covered(b, x)
    ensures Merge(a) == Merge(b)
  {
    forall x ensures Covered(Merge(a), x) <==> Covered(Merge(b), x) {
      MergeIsTheUnion(a, x);
      MergeIsTheUnion(b, x);
    }
    MergeIsTheUnion(a, 0);
    MergeIsTheUnion(b, 0);
    CanonicalIsUnique(Merge(a), Merge(b));
  }

  // ---------- the entry ----------

  function Length(m: seq<Range>): int { if m == [] then 0 else m[0].1 - m[0].0 + Length(m[1..]) }

  /** `Math.round((used / total) * 10000) / 100`, on real numbers. */
  function Percent(used: int, total: int): real {
    if total == 0 then 100.0
    else (used as real / total as real * 10000.0 + 0.5).Floor as real / 100.0
  }

  function Parse(s: Script): Option<Entry> {
    if s.url == "" then None
    else
      var total, merged := SpanFrom(0, s.functions), Merge(AllDead(s.functions));
      var left := total - Length(merged);
      var used := if left > 0 then left else 0;
      Some(Entry(s.url, total, used, Percent(used, total),
                 if |merged| <= MAX_DEAD_RANGES_PER_SCRIPT then merged else merged[..MAX_DEAD_RANGES_PER_SCRIPT]))
  }

  method ParseScriptCoverage(s: Script) returns (entry: Option<Entry>)
    ensures entry == Parse(s)
  {
    if s.url == "" {
      entry := None;
    } else {
      var total := ScriptTotalSpan(s);
      var dead := CollectDeadRanges(s);
      var mergedDead := MergeRanges(dead);
      var used := total - Length(mergedDead);
      if used < 0 { used := 0; }
      var shown := if |mergedDead| <= MAX_DEAD_RANGES_PER_SCRIPT then mergedDead
                    else mergedDead[..MAX_DEAD_RANGES_PER_SCRIPT];
      entry := Some(Entry(s.url, total, used, Percent(used, total), shown));
    }
  }

  // ---------- what the entry means ----------

  lemma {:induction false} FurthestIs(total: int, ranges: seq<CdpRange>)
    ensures total <= Furthest(total, ranges)
    ensures forall r :: r in ranges && r.end.Some? ==> r.end.value <= Furthest(total, ranges)
    ensures Furthest(total, ranges) == total || Some(Furthest(total, ranges)) in Ending(ranges)
    decreases |ranges|
  {
    if ranges != [] {
      var on := if ranges[0].end.Some? && ranges[0].end.value > total then ranges[0].end.value else total;
      FurthestIs(on, ranges[1..]);
      assert ranges == [ranges[0]] + ranges[1..];
    }
  }

  function Ending(ranges: seq<CdpRange>): set<Option<int>> { set r | r in ranges :: r.end }

  /** The span is an upper bound of every end there is, and the least one from 0 up. */
  lemma {:induction false} SpanIsTheFurthestEnd(total: int, functions: seq<seq<CdpRange>>)
    ensures total <= SpanFrom(total, functions)
    ensures forall f, r :: f in functions && r in f && r.end.Some? ==> r.end.value <= SpanFrom(total, functions)
    ensures SpanFrom(total, functions) == total
            || exists f :: f in functions && Some(SpanFrom(total, functions)) in Ending(f)
    decreases |functions|
  {
    if functions != [] {
      FurthestIs(total, functions[0]);
      SpanIsTheFurthestEnd(Furthest(total, functions[0]), functions[1..]);
      assert functions == [functions[0]] + functions[1..];
    }
  }

  /** The range at `i` of a function is dead: its body when that never ran, and else
      any later block of it that did not. */
  predicate DeadAt(ranges: seq<CdpRange>, i: nat) {
    && i < |ranges| && ranges[0].start.Some? && ranges[0].end.Some? && Idle(ranges[i])
    && (i == 0 || ranges[0].count != Some(0))
  }

  lemma {:induction false} IdleOfHolds(ranges: seq<CdpRange>, d: Range)
    ensures d in IdleOf(ranges) <==> exists i :: 0 <= i < |ranges| && Idle(ranges[i]) && Ends(ranges[i]) == d
  {
    if ranges != [] {
      IdleOfHolds(ranges[1..], d);
      assert forall i :: 0 < i < |ranges| ==> ranges[1..][i - 1] == ranges[i];
    }
  }

  lemma DeadOfHolds(ranges: seq<CdpRange>, d: Range)
    ensures d in DeadOf(ranges) <==> exists i: nat :: DeadAt(ranges, i) && Ends(ranges[i]) == d
  {
    if ranges != [] && ranges[0].start.Some? && ranges[0].end.Some? {
      if ranges[0].count == Some(0) {
        assert DeadAt(ranges, 0);
      } else {
        IdleOfHolds(ranges[1..], d);
        forall i: nat | DeadAt(ranges, i) && Ends(ranges[i]) == d ensures d in DeadOf(ranges) {
          assert ranges[1..][i - 1] == ranges[i];
        }
        if d in DeadOf(ranges) {
          var i :| 0 <= i < |ranges[1..]| && Idle(ranges[1..][i]) && Ends(ranges[1..][i]) == d;
          assert DeadAt(ranges, i + 1) && Ends(ranges[i + 1]) == d;
        }
      }
    }
  }

  ghost predicate DeadSomewhere(functions: seq<seq<CdpRange>>, d: Range) {
    exists f, i: nat :: f in functions && DeadAt(f, i) && Ends(f[i]) == d
  }

  /** The dead ranges are those of bodies that never ran and of the idle blocks of
      bodies that did, and no others. */
  lemma {:induction false} DeadIsWhatNeverRan(functions: seq<seq<CdpRange>>, d: Range)
    ensures d in AllDead(functions) <==> DeadSomewhere(functions, d)
  {
    if functions != [] {
      DeadIsWhatNeverRan(functions[1..], d);
      DeadOfHolds(functions[0], d);
      assert functions == [functions[0]] + functions[1..];
    }
  }

  lemma DeadEndsWithin(functions: seq<seq<CdpRange>>, d: Range)
    requires d in AllDead(functions)
    ensures d.1 <= SpanFrom(0, functions)
  {
    DeadIsWhatNeverRan(functions, d);
    SpanIsTheFurthestEnd(0, functions);
    var f, i: nat :| f in functions && DeadAt(f, i) && Ends(f[i]) == d;
    assert f[i] in f;
  }

  /** How many of the offsets from `lo` up to `hi` some range holds. */
  ghost function Count(ranges: seq<Range>, lo: int, hi: int): nat
    decreases hi - lo
  {
    if hi <= lo then 0 else Count(ranges, lo, hi - 1) + (if Covered(ranges, hi - 1) then 1 else 0)
  }

  lemma {:induction false} CountOne(r: Range, lo: int, hi: int)
    requires lo <= r.0 <= r.1
    ensures Count([r], lo, hi) == if hi <= r.0 then 0 else if hi <= r.1 then hi - r.0 else r.1 - r.0
    decreases hi - lo
  {
    if lo < hi {
      CountOne(r, lo, hi - 1);
      CoveredSplits(r, [], hi - 1);
      assert [r] + [] == [r];
    }
  }

  lemma {:induction false} CountSplits(r: Range, rest: seq<Range>, lo: int, hi: int)
    requires forall x :: r.0 <= x < r.1 ==> !Covered(rest, x)
    ensures Count([r] + rest, lo, hi) == Count([r], lo, hi) + Count(rest, lo, hi)
    decreases hi - lo
  {
    if lo < hi {
      CountSplits(r, rest, lo, hi - 1);
      CoveredSplits(r, rest, hi - 1);
      CoveredSplits(r, [], hi - 1);
      assert [r] + [] == [r];
    }
  }

  lemma {:induction false} CountsAgree(m: seq<Range>, n: seq<Range>, lo: int, hi: int)
    requires forall x :: lo <= x < hi ==> (Covered(m, x) <==> Covered(n, x))
    ensures Count(m, lo, hi) == Count(n, lo, hi)
    decreases hi - lo
  {
    if lo < hi { CountsAgree(m, n, lo, hi - 1); }
  }

  lemma {:induction false} CountOfNone(lo: int, hi: int)
    ensures Count([], lo, hi) == 0
    decreases hi - lo
  {
    if lo < hi { CountOfNone(lo, hi - 1); }
  }

  /** The length of canonical ranges is the number of offsets they hold. */
  lemma {:induction false} LengthCounts(m: seq<Range>, lo: int, hi: int)
    requires Canonical(m) && forall i :: 0 <= i < |m| ==> lo <= m[i].0 && m[i].1 <= hi
    ensures Length(m) == Count(m, lo, hi)
  {
    if m == [] {
      CountOfNone(lo, hi);
    } else {
      LengthCounts(m[1..], lo, hi);
      CountSplits(m[0], m[1..], lo, hi);
      CountOne(m[0], lo, hi);
      assert [m[0]] + m[1..] == m;
    }
  }

  lemma {:induction false} CountFrom(m: seq<Range>, lo: int, hi: int)
    requires lo < hi
    ensures Count(m, lo, hi) == Count(m, lo + 1, hi) + (if Covered(m, lo) then 1 else 0)
    decreases hi - lo
  {
    if lo + 1 < hi { CountFrom(m, lo, hi - 1); }
  }

  /** How many offsets below `hi` no range holds. */
  ghost function Free(ranges: seq<Range>, hi: int): nat
    decreases hi
  {
    if hi <= 0 then 0 else Free(ranges, hi - 1) + (if Covered(ranges, hi - 1) then 0 else 1)
  }

  lemma {:induction false} FreeAndCovered(ranges: seq<Range>, hi: nat)
    ensures Free(ranges, hi) + Count(ranges, 0, hi) == hi
  {
    if hi > 0 { FreeAndCovered(ranges, hi - 1); }
  }

  lemma {:induction false} FreeOfAll(ranges: seq<Range>, hi: nat)
    requires Free(ranges, hi) < hi
    ensures exists x :: 0 <= x < hi && Covered(ranges, x)
  {
    if !Covered(ranges, hi - 1) { FreeOfAll(ranges, hi - 1); }
  }

  /** How many offsets of the script lie in no dead range. */
  ghost function Live(s: Script): nat { Free(AllDead(s.functions), SpanFrom(0, s.functions)) }

  lemma MergedEndsWithin(s: Script, i: nat)
    requires i < |Merge(AllDead(s.functions))|
    ensures -1 <= Merge(AllDead(s.functions))[i].0 && Merge(AllDead(s.functions))[i].1 <= SpanFrom(0, s.functions)
  {
    var dead := AllDead(s.functions);
    var m := Merge(dead);
    MergeIsTheUnion(dead, m[i].0);
    MergeIsTheUnion(dead, m[i].1 - 1);
    assert Covered(m, m[i].0) && Covered(m, m[i].1 - 1);
    var k :| 0 <= k < |dead| && dead[k].0 <= m[i].1 - 1 < dead[k].1;
    DeadEndsWithin(s.functions, dead[k]);
  }

  /** The merged length counts the dead offsets of the script, and -1 when a dead range
      reaches it. */
  lemma DeadAndLiveMakeTheWhole(s: Script)
    ensures Length(Merge(AllDead(s.functions))) + Live(s)
            == SpanFrom(0, s.functions) + (if Covered(AllDead(s.functions), -1) then 1 else 0)
  {
    var total, dead := SpanFrom(0, s.functions), AllDead(s.functions);
    var m := Merge(dead);
    SpanIsTheFurthestEnd(0, s.functions);
    MergeIsTheUnion(dead, 0);
    forall i | 0 <= i < |m| ensures -1 <= m[i].0 && m[i].1 <= total { MergedEndsWithin(s, i); }
    LengthCounts(m, -1, total);
    forall x | -1 <= x < total ensures Covered(m, x) <==> Covered(dead, x) { MergeIsTheUnion(dead, x); }
    CountsAgree(m, dead, -1, total);
    CountFrom(dead, -1, total);
    FreeAndCovered(dead, total);
  }

  /** The bytes used are the offsets of the script that no dead range covers: always so
      when no dead range holds -1, that is for every range starting at 0 or later, where
      the clamp at 0 then never acts; and otherwise only when no offset is live. */
  lemma UsedIsWhatLives(s: Script)
    requires s.url != ""
    ensures Parse(s).value.usedBytes == Live(s) <==> !Covered(AllDead(s.functions), -1) || Live(s) == 0
    ensures !Covered(AllDead(s.functions), -1) ==>
              Parse(s).value.usedBytes == SpanFrom(0, s.functions) - Length(Merge(AllDead(s.functions)))
  {
    DeadAndLiveMakeTheWhole(s);
  }

  /** The share is between 0 and 100. It is 100 exactly when at most one offset in
      20,000 is dead: less than 100 means dead code, but 100 does not mean there is
      none. */
  lemma {:induction false} PercentMeans(used: int, total: int)
    requires 0 <= used <= total
    ensures 0.0 <= Percent(used, total) <= 100.0
    ensures Percent(used, total) == 100.0 <==> 20_000 * (total - used) <= total
  {
    if total > 0 {
      var q := used as real / total as real;
      SharesAre(used, total);
      RoundedShare(q);
    }
  }

  /** A share lies between 0 and 1, and reaches 0.99995 with all but one in 20,000. */
  lemma SharesAre(used: int, total: int)
    requires 0 <= used <= total && total > 0
    ensures 0.0 <= used as real / total as real <= 1.0
    ensures used as real / total as real >= 0.99995 <==> 20_000 * (total - used) <= total
  {
    ShareAtLeast(used as real, total as real, 0.0);
    ShareAtLeast(used as real, total as real, 0.99995);
    ShareAtMost(used as real, total as real, 1.0);
  }

  /** Rounding to two decimals comes to 100 from 99.995 on. */
  lemma RoundedShare(q: real)
    requires 0.0 <= q <= 1.0
    ensures 0.0 <= (q * 10000.0 + 0.5).Floor as real / 100.0 <= 100.0
    ensures (q * 10000.0 + 0.5).Floor as real / 100.0 == 100.0 <==> q >= 0.99995
  {
    var n := (q * 10000.0 + 0.5).Floor;
    assert 0 <= n <= 10000;
    assert n == 10000 <==> q * 10000.0 + 0.5 >= 10000.0;
  }

  /** For every script: the share is 100 if and only if at most one byte in 20,000 is not
      used; a share below 100 has a dead offset behind it. Where no dead range holds -1
      that offset is one of the script's, and what is not used are the offsets in dead
      ranges. */
  lemma HundredExactly(s: Script)
    requires s.url != ""
    ensures var p, total, dead := Parse(s).value, SpanFrom(0, s.functions), AllDead(s.functions);
            && p.totalBytes == total && 0 <= p.usedBytes <= total
            && 0.0 <= p.usagePercent <= 100.0
            && (p.usagePercent == 100.0 <==> 20_000 * (total - p.usedBytes) <= total)
            && (p.usagePercent < 100.0 ==> exists x :: -1 <= x < total && Covered(dead, x))
            && (!Covered(dead, -1) ==>
                  && (p.usagePercent == 100.0 <==> 20_000 * (total - Live(s)) <= total)
                  && (p.usagePercent < 100.0 ==> exists x :: 0 <= x < total && Covered(dead, x)))
  {
    var total, dead := SpanFrom(0, s.functions), AllDead(s.functions);
    SpanIsTheFurthestEnd(0, s.functions);
    DeadAndLiveMakeTheWhole(s);
    FreeAndCovered(dead, total);
    PercentMeans(Parse(s).value.usedBytes, total);
    if Live(s) < total { FreeOfAll(dead, total); }
  }

  /** A function of 20,000 bytes that ran, but for one byte. */
  function NearlyAll(): Script {
    Script("u", [[CdpRange(Some(0), Some(20_000), Some(1)), CdpRange(Some(5), Some(6), Some(0))]])
  }

  /** A script with dead code and a share of 100. */
  lemma HundredCanBeDead()
    ensures Parse(NearlyAll()).value.usagePercent == 100.0
    ensures Covered(AllDead(NearlyAll().functions), 5) && Parse(NearlyAll()).value.usedBytes == 19_999
  {
    var s := NearlyAll();
    var ranges, dead: seq<Range> := s.functions[0], [(5, 6)];
    assert ranges[1..] == [ranges[1]] && IdleOf(ranges[1..]) == dead;
    assert s.functions[1..] == [] && AllDead(s.functions) == dead;
    assert ranges[1..][1..] == [] && SpanFrom(0, s.functions) == 20_000;
    assert dead[0] == (5, 6) && Covered(dead, 5);
    assert ByStart(dead) == dead && dead[1..] == [];
    assert MergeFrom(dead, -1, -1) == [] + MergeFrom([], 5, 6);
    assert Merge(dead) == dead && Length(dead) == 1;
    PercentMeans(19_999, 20_000);
  }
}

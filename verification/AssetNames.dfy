/** Names for exported assets: a flat, visible file name from what a URL ends in, and a
    fresh one when it is taken. (src/page/asset-export-naming.ts) */
module AssetNames {
  import opened Collections
  import opened Json

  const FILENAME_MAX_CHARS := 200
  const MAX_SUFFIX := 999_999

  const DOT: Unit := 0x2e
  const DASH: Unit := 0x2d
  const UNDERSCORE: Unit := 0x5f
  const SLASH: Unit := 0x2f
  const BACKSLASH: Unit := 0x5c

  /** A control character or a path separator. */
  predicate Unsafe(u: Unit) { u <= 0x1f || u == 0x7f || u == SLASH || u == BACKSLASH }

  /** JavaScript's `\s`. */
  predicate Space(u: Unit) {
    || 0x09 <= u <= 0x0d || u == 0x20 || u == 0xa0 || u == 0x1680 || 0x2000 <= u <= 0x200a
    || u == 0x2028 || u == 0x2029 || u == 0x202f || u == 0x205f || u == 0x3000 || u == 0xfeff
  }

  predicate Edge(u: Unit) { u == DOT || u == UNDERSCORE || Space(u) }

  // ---------- sanitising ----------

  function Masked(s: Text): Text {
    seq(|s|, k requires 0 <= k < |s| => if Unsafe(s[k]) then UNDERSCORE else s[k])
  }

  /** Every run of `c` becomes one. */
  function Collapsed(s: Text, c: Unit): Text {
    if |s| < 2 then s
    else if s[0] == c && s[1] == c then Collapsed(s[1..], c)
    else [s[0]] + Collapsed(s[1..], c)
  }

  function AfterDots(s: Text): Text { if s != [] && s[0] == DOT then AfterDots(s[1..]) else s }

  function AfterEdge(s: Text): Text { if s != [] && Edge(s[0]) then AfterEdge(s[1..]) else s }

  function BeforeEdge(s: Text): Text { if s != [] && Edge(s[|s| - 1]) then BeforeEdge(s[..|s| - 1]) else s }

  /** The name before it is cut to length. */
  function Trimmed(raw: Text): Text {
    BeforeEdge(AfterEdge(AfterDots(Collapsed(Collapsed(Masked(raw), DOT), UNDERSCORE))))
  }

  function Sanitise(raw: Text): Text {
    var name := Prefix(Trimmed(raw), FILENAME_MAX_CHARS);
    if name == [] then Lit("asset") else name
  }

  /** No two of `c` in a row. */
  predicate NoRun(s: Text, c: Unit) { forall k :: 0 < k < |s| ==> !(s[k - 1] == c && s[k] == c) }

  predicate AllSafe(s: Text) { forall u :: u in s ==> !Unsafe(u) }

  /** Not empty, not hidden, with nothing in it that a path could take for its own. */
  predicate Plain(s: Text) { s != [] && AllSafe(s) && !Edge(s[0]) }

  predicate Clean(s: Text) {
    Plain(s) && |s| <= FILENAME_MAX_CHARS && NoRun(s, DOT) && NoRun(s, UNDERSCORE)
  }

  lemma {:induction false} CollapsedHas(s: Text, c: Unit)
    ensures NoRun(Collapsed(s, c), c) && |Collapsed(s, c)| <= |s|
    ensures s != [] ==> Collapsed(s, c) != [] && Collapsed(s, c)[0] == s[0]
    ensures forall u :: u in Collapsed(s, c) ==> u in s
  {
    if |s| >= 2 { CollapsedHas(s[1..], c); }
  }

  lemma {:induction false} CollapsedKeeps(s: Text, c: Unit, d: Unit)
    requires NoRun(s, d) && c != d
    ensures NoRun(Collapsed(s, c), d)
  {
    if |s| >= 2 {
      forall k | 0 < k < |s[1..]| ensures !(s[1..][k - 1] == d && s[1..][k] == d) {
        assert s[k + 1] == s[1..][k] && s[(k + 1) - 1] == s[1..][k - 1];
      }
      CollapsedKeeps(s[1..], c, d);
      CollapsedHas(s[1..], c);
      assert !(s[1 - 1] == d && s[1] == d);
    }
  }

  lemma {:induction false} CollapsedIsSame(s: Text, c: Unit)
    requires NoRun(s, c)
    ensures Collapsed(s, c) == s
  {
    if |s| >= 2 {
      assert !(s[1 - 1] == c && s[1] == c);
      forall k | 0 < k < |s[1..]| ensures !(s[1..][k - 1] == c && s[1..][k] == c) {
        assert s[k + 1] == s[1..][k] && s[(k + 1) - 1] == s[1..][k - 1];
      }
      CollapsedIsSame(s[1..], c);
    }
  }

  predicate Tidy(s: Text) { AllSafe(s) && NoRun(s, DOT) && NoRun(s, UNDERSCORE) }

  lemma SliceNoRun(s: Text, i: nat, j: nat, c: Unit)
    requires i <= j <= |s| && NoRun(s, c)
    ensures NoRun(s[i..j], c)
  {
    forall k | 0 < k < j - i ensures !(s[i..j][k - 1] == c && s[i..j][k] == c) {
      assert !(s[(i + k) - 1] == c && s[i + k] == c);
    }
  }

  lemma SliceTidy(s: Text, i: nat, j: nat)
    requires i <= j <= |s| && Tidy(s)
    ensures Tidy(s[i..j])
  {
    SliceNoRun(s, i, j, DOT);
    SliceNoRun(s, i, j, UNDERSCORE);
  }

  lemma {:induction false} AfterDotsTidy(s: Text)
    requires Tidy(s)
    ensures Tidy(AfterDots(s))
  {
    if s != [] && s[0] == DOT {
      SliceTidy(s, 1, |s|);
      AfterDotsTidy(s[1..]);
    }
  }

  lemma {:induction false} AfterEdgeTidy(s: Text)
    requires Tidy(s)
    ensures Tidy(AfterEdge(s)) && (AfterEdge(s) != [] ==> !Edge(AfterEdge(s)[0]))
  {
    if s != [] && Edge(s[0]) {
      SliceTidy(s, 1, |s|);
      AfterEdgeTidy(s[1..]);
    }
  }

  lemma {:induction false} BeforeEdgeIs(s: Text)
    ensures BeforeEdge(s) <= s && (BeforeEdge(s) != [] ==> !Edge(BeforeEdge(s)[|BeforeEdge(s)| - 1]))
  {
    if s != [] && Edge(s[|s| - 1]) { BeforeEdgeIs(s[..|s| - 1]); }
  }

  lemma CollapsedTidy(raw: Text)
    ensures Tidy(Collapsed(Collapsed(Masked(raw), DOT), UNDERSCORE))
  {
    var m := Masked(raw);
    CollapsedHas(m, DOT);
    CollapsedHas(Collapsed(m, DOT), UNDERSCORE);
    CollapsedKeeps(Collapsed(m, DOT), UNDERSCORE, DOT);
  }

  /** Whatever a URL ends in, the name is flat and visible: not empty, at most 200
      characters, no separator or control character, no dot or blank first, no two
      dots or underscores in a row. */
  lemma SanitisedIsClean(raw: Text)
    ensures Clean(Sanitise(raw))
  {
    var p := Collapsed(Collapsed(Masked(raw), DOT), UNDERSCORE);
    CollapsedTidy(raw);
    AfterDotsTidy(p);
    var e := AfterEdge(AfterDots(p));
    AfterEdgeTidy(AfterDots(p));
    BeforeEdgeIs(e);
    var n := Prefix(BeforeEdge(e), FILENAME_MAX_CHARS);
    assert n <= e;
    SliceTidy(e, 0, |n|);
    assert e[0..|n|] == n;
  }

  lemma EdgesAreSame(s: Text)
    requires s != [] && !Edge(s[0])
    ensures AfterDots(s) == s && AfterEdge(s) == s
    ensures !Edge(s[|s| - 1]) ==> BeforeEdge(s) == s
  {
  }

  lemma CleanIsSame(s: Text)
    requires Clean(s)
    ensures Sanitise(s) == (if BeforeEdge(s) == [] then Lit("asset") else BeforeEdge(s))
  {
    assert Masked(s) == s;
    CollapsedIsSame(s, DOT);
    CollapsedIsSame(s, UNDERSCORE);
    EdgesAreSame(s);
    BeforeEdgeIs(s);
  }

  /** Sanitising changes nothing exactly when the name is clean and does not end in a
      dot, an underscore or a blank. */
  lemma FixedExactly(s: Text)
    ensures Sanitise(s) == s <==> Clean(s) && !Edge(s[|s| - 1])
  {
    SanitisedIsClean(s);
    if Clean(s) {
      CleanIsSame(s);
      EdgesAreSame(s);
      FirstStays(s);
    }
  }

  lemma {:induction false} FirstStays(s: Text)
    requires s != [] && !Edge(s[0])
    ensures BeforeEdge(s) != []
    ensures Edge(s[|s| - 1]) ==> BeforeEdge(s) != s
  {
    BeforeEdgeIs(s);
    if Edge(s[|s| - 1]) { FirstStays(s[..|s| - 1]); }
  }

  /** The trimmed name is cut, and right after a dot, an underscore or a blank. */
  predicate CutAtAnEdge(raw: Text) {
    |Trimmed(raw)| > FILENAME_MAX_CHARS && Edge(Trimmed(raw)[FILENAME_MAX_CHARS - 1])
  }

  lemma EndOfSanitised(raw: Text)
    ensures Sanitise(raw) != [] && (Edge(Sanitise(raw)[|Sanitise(raw)| - 1]) <==> CutAtAnEdge(raw))
  {
    BeforeEdgeIs(AfterEdge(AfterDots(Collapsed(Collapsed(Masked(raw), DOT), UNDERSCORE))));
    var n := Trimmed(raw);
    if n == [] {
      assert Lit("asset")[4] == 't' as int;
    } else if |n| > FILENAME_MAX_CHARS {
      assert n[..FILENAME_MAX_CHARS][FILENAME_MAX_CHARS - 1] == n[FILENAME_MAX_CHARS - 1];
    }
  }

  /** The name comes out clean at both ends if and only if the cut at 200 does not fall
      right after a dot, an underscore or a blank; only then is a second pass idle. */
  lemma TwiceExactly(raw: Text)
    ensures Sanitise(Sanitise(raw)) == Sanitise(raw) <==> !CutAtAnEdge(raw)
    ensures Edge(Sanitise(raw)[|Sanitise(raw)| - 1]) <==> CutAtAnEdge(raw)
  {
    SanitisedIsClean(raw);
    EndOfSanitised(raw);
    FixedExactly(Sanitise(raw));
  }

  lemma TidyIsTrimmed(s: Text)
    requires Tidy(s) && s != [] && !Edge(s[0]) && !Edge(s[|s| - 1])
    ensures Trimmed(s) == s
  {
    assert Masked(s) == s;
    CollapsedIsSame(s, DOT);
    CollapsedIsSame(s, UNDERSCORE);
    EdgesAreSame(s);
  }

  const LETTER: Unit := 0x61

  /** 199 letters, a dot and a letter. */
  function Overlong(): Text { seq(FILENAME_MAX_CHARS - 1, _ => LETTER) + [DOT, LETTER] }

  /** A name of 201 characters that comes out with a dot at its end. */
  lemma CutCanLeaveADot()
    ensures |Overlong()| == FILENAME_MAX_CHARS + 1
    ensures |Sanitise(Overlong())| == FILENAME_MAX_CHARS && Sanitise(Overlong())[FILENAME_MAX_CHARS - 1] == DOT
    ensures Sanitise(Sanitise(Overlong())) != Sanitise(Overlong())
  {
    var s := Overlong();
    forall k | 0 < k < |s| ensures !(s[k - 1] == DOT && s[k] == DOT) && s[k] != UNDERSCORE {}
    TidyIsTrimmed(s);
    TwiceExactly(s);
  }

  // ---------- a fresh name ----------

  /** `lastIndexOf(".")`. */
  function LastDot(s: Text): (i: int)
    ensures -1 <= i < |s|
  {
    if s == [] then -1 else if s[|s| - 1] == DOT then |s| - 1 else LastDot(s[..|s| - 1])
  }

  function Stem(name: Text): Text { if LastDot(name) > 0 then name[..LastDot(name)] else name }

  function Extension(name: Text): Text { if LastDot(name) > 0 then name[LastDot(name)..] else [] }

  /** A number in decimal. */
  function Digits(n: nat): (t: Text)
    ensures t != [] && forall u :: u in t ==> 0x30 <= u <= 0x39
  {
    if n < 10 then [0x30 + n] else Digits(n / 10) + [0x30 + n % 10]
  }

  function Suffixed(name: Text, tail: Text): Text { Stem(name) + [DASH] + tail + Extension(name) }

  function Candidate(name: Text, i: nat): Text { Suffixed(name, Digits(i)) }

  function FirstFree(name: Text, used: set<Text>, i: nat): Option<Text>
    decreases MAX_SUFFIX + 1 - i
  {
    if i > MAX_SUFFIX then None
    else if Candidate(name, i) !in used then Some(Candidate(name, i))
    else FirstFree(name, used, i + 1)
  }

  /** `tail` is the clock and the random text of the last resort. */
  function Resolve(name: Text, used: set<Text>, tail: Text): Text {
    if name !in used then name
    else
      var free := FirstFree(name, used, 1);
      if free.Some? then free.value else Suffixed(name, tail)
  }

  method ResolveCollision(name: Text, used: set<Text>, tail: Text) returns (free: Text)
    ensures free == Resolve(name, used, tail)
  {
    free := name;
    if name in used {
      var stem, ext := Stem(name), Extension(name);
      var i := 1;
      while i <= MAX_SUFFIX && stem + [DASH] + Digits(i) + ext in used
        invariant 1 <= i <= MAX_SUFFIX + 1
        invariant FirstFree(name, used, i) == FirstFree(name, used, 1)
      {
        i := i + 1;
      }
      free := if i <= MAX_SUFFIX then stem + [DASH] + Digits(i) + ext else stem + [DASH] + tail + ext;
    }
  }

  lemma {:induction false} DigitsTellApart(m: nat, n: nat)
    requires Digits(m) == Digits(n)
    ensures m == n
  {
    var d, e := Digits(m), Digits(n);
    assert d[|d| - 1] == 0x30 + m % 10 && e[|e| - 1] == 0x30 + n % 10;
    if m >= 10 && n >= 10 {
      assert d[..|d| - 1] == Digits(m / 10) && e[..|e| - 1] == Digits(n / 10);
      DigitsTellApart(m / 10, n / 10);
    }
  }

  lemma CandidatesTellApart(name: Text, i: nat, j: nat)
    requires Candidate(name, i) == Candidate(name, j)
    ensures i == j
  {
    var c, stem, ext := Candidate(name, i), Stem(name), Extension(name);
    var d, e := Digits(i), Digits(j);
    assert |d| == |e|;
    assert c[|stem| + 1..|c| - |ext|] == d;
    assert Candidate(name, j)[|stem| + 1..|c| - |ext|] == e;
    DigitsTellApart(i, j);
  }

  function Candidates(name: Text, n: nat): set<Text> {
    if n == 0 then {} else Candidates(name, n - 1) + {Candidate(name, n)}
  }

  lemma {:induction false} CandidatesAre(name: Text, n: nat, t: Text)
    ensures t in Candidates(name, n) <==> exists i :: 1 <= i <= n && Candidate(name, i) == t
  {
    if n > 0 { CandidatesAre(name, n - 1, t); }
  }

  lemma {:induction false} CandidatesCount(name: Text, n: nat)
    ensures |Candidates(name, n)| == n
  {
    if n > 0 {
      CandidatesCount(name, n - 1);
      CandidatesAre(name, n - 1, Candidate(name, n));
      forall i | 1 <= i <= n - 1 ensures Candidate(name, i) != Candidate(name, n) {
        if Candidate(name, i) == Candidate(name, n) { CandidatesTellApart(name, i, n); }
      }
    }
  }

  /** The least number from `i` on whose candidate is free, or one past the last. */
  function LeastFree(name: Text, used: set<Text>, i: nat): (k: nat)
    requires i <= MAX_SUFFIX + 1
    ensures i <= k <= MAX_SUFFIX + 1
    ensures forall j :: i <= j < k ==> Candidate(name, j) in used
    ensures k <= MAX_SUFFIX ==> Candidate(name, k) !in used
    decreases MAX_SUFFIX + 1 - i
  {
    if i > MAX_SUFFIX || Candidate(name, i) !in used then i else LeastFree(name, used, i + 1)
  }

  lemma {:induction false} FirstFreeAtLeast(name: Text, used: set<Text>, i: nat)
    requires 1 <= i <= MAX_SUFFIX + 1
    ensures var k := LeastFree(name, used, i);
            FirstFree(name, used, i) == if k <= MAX_SUFFIX then Some(Candidate(name, k)) else None
    decreases MAX_SUFFIX + 1 - i
  {
    if i <= MAX_SUFFIX && Candidate(name, i) in used { FirstFreeAtLeast(name, used, i + 1); }
  }

  lemma FirstFreeIs(name: Text, used: set<Text>, i: nat)
    requires 1 <= i <= MAX_SUFFIX + 1
    ensures var free := FirstFree(name, used, i);
            if free.None? then forall k :: i <= k <= MAX_SUFFIX ==> Candidate(name, k) in used
            else exists k :: i <= k <= MAX_SUFFIX && free.value == Candidate(name, k) && Candidate(name, k) !in used
                             && forall j :: i <= j < k ==> Candidate(name, j) in used
  {
    FirstFreeAtLeast(name, used, i);
  }

  /** The name is taken, and so is every numbered one. */
  ghost predicate AllTaken(name: Text, used: set<Text>) {
    name in used && forall i :: 1 <= i <= MAX_SUFFIX ==> Candidate(name, i) in used
  }

  /** The name itself when it is free, else the first numbered one that is; only when
      none is free does the last resort, which nothing checks, come in. */
  lemma {:induction false} FreshUnlessAllTaken(name: Text, used: set<Text>, tail: Text)
    ensures name !in used ==> Resolve(name, used, tail) == name
    ensures name in used && !AllTaken(name, used) ==>
              exists k :: 1 <= k <= MAX_SUFFIX && Resolve(name, used, tail) == Candidate(name, k)
                          && Candidate(name, k) !in used
                          && forall j :: 1 <= j < k ==> Candidate(name, j) in used
    ensures AllTaken(name, used) ==> Resolve(name, used, tail) == Suffixed(name, tail)
  {
    FirstFreeIs(name, used, 1);
  }

  /** A million names must be used before the numbered ones run out. */
  lemma FewerThanAMillionIsEnough(name: Text, used: set<Text>, tail: Text)
    requires |used| <= MAX_SUFFIX
    ensures Resolve(name, used, tail) !in used
  {
    FreshUnlessAllTaken(name, used, tail);
    if AllTaken(name, used) {
      var all := Candidates(name, MAX_SUFFIX) + {name};
      CandidatesCount(name, MAX_SUFFIX);
      CandidatesAre(name, MAX_SUFFIX, name);
      assert forall i :: 1 <= i <= MAX_SUFFIX ==> |Candidate(name, i)| > |name|;
      assert |all| == MAX_SUFFIX + 1;
      forall t | t in all ensures t in used { CandidatesAre(name, MAX_SUFFIX, t); }
      SubsetSize(all, used);
    }
  }

  /** The texts the last resort may add: the clock and base-36 digits. */
  predicate Tail(t: Text) { forall u :: u in t ==> 0x30 <= u <= 0x39 || 0x61 <= u <= 0x7a || u == DASH }

  lemma SuffixedIsPlain(name: Text, tail: Text)
    requires Plain(name) && Tail(tail)
    ensures Plain(Suffixed(name, tail)) && Suffixed(name, tail)[0] == name[0]
  {
    var t := Suffixed(name, tail);
    assert t[0] == name[0];
    forall u | u in t ensures !Unsafe(u) {
      assert u in Stem(name) || u == DASH || u in tail || u in Extension(name);
    }
  }

  /** Whatever is tried for an asset is a flat, visible name, so never `_manifest.json`
      and never a name that leaves its directory. */
  lemma ResolvedIsPlain(name: Text, used: set<Text>, tail: Text)
    requires Plain(name) && Tail(tail)
    ensures Plain(Resolve(name, used, tail))
    ensures Resolve(name, used, tail) != Lit("_manifest.json")
  {
    SuffixedIsPlain(name, tail);
    FirstFreeIs(name, used, 1);
    if FirstFree(name, used, 1).Some? {
      var k :| 1 <= k <= MAX_SUFFIX && FirstFree(name, used, 1).value == Candidate(name, k);
      SuffixedIsPlain(name, Digits(k));
    }
    assert Lit("_manifest.json")[0] == UNDERSCORE;
  }

  // ---------- how many bytes ----------

  /** The bytes of a name in UTF-8. Half a surrogate pair is written as U+FFFD. */
  function Utf8(t: Text): nat {
    if t == [] then 0
    else if |t| >= 2 && High(t[0]) && Low(t[1]) then 4 + Utf8(t[2..])
    else (if t[0] < 0x80 then 1 else if t[0] < 0x800 then 2 else 3) + Utf8(t[1..])
  }

  const NAME_MAX_BYTES := 255

  lemma {:induction false} Utf8Joins(a: Text, b: Text)
    requires b != [] ==> !Low(b[0])
    ensures Utf8(a + b) == Utf8(a) + Utf8(b)
  {
    if a == [] {
      assert a + b == b;
    } else if |a| >= 2 && High(a[0]) && Low(a[1]) {
      assert (a + b)[2..] == a[2..] + b;
      Utf8Joins(a[2..], b);
    } else {
      assert (a + b)[1..] == a[1..] + b;
      Utf8Joins(a[1..], b);
    }
  }

  predicate Ascii(t: Text) { forall k :: 0 <= k < |t| ==> t[k] < 0x80 }

  lemma {:induction false} AsciiBytes(t: Text)
    requires Ascii(t)
    ensures Utf8(t) == |t|
  {
    if t != [] {
      AsciiBytes(t[1..]);
    }
  }

  lemma DotStarts(name: Text)
    ensures Extension(name) != [] ==> Extension(name)[0] == DOT
    ensures Stem(name) + Extension(name) == name
  {
    LastDotIs(name);
  }

  lemma {:induction false} LastDotIs(name: Text)
    ensures LastDot(name) >= 0 ==> name[LastDot(name)] == DOT
  {
    if name != [] && name[|name| - 1] != DOT { LastDotIs(name[..|name| - 1]); }
  }

  /** A suffix takes as many bytes as it has characters. */
  lemma SuffixedBytes(name: Text, tail: Text)
    requires Tail(tail)
    ensures Utf8(Suffixed(name, tail)) == Utf8(name) + 1 + |tail|
    ensures |Suffixed(name, tail)| == |name| + 1 + |tail|
  {
    var stem, middle, ext := Stem(name), [DASH] + tail, Extension(name);
    DotStarts(name);
    Utf8Joins(stem, ext);
    assert Suffixed(name, tail) == (stem + middle) + ext;
    Utf8Joins(stem + middle, ext);
    Utf8Joins(stem, middle);
    forall k | 0 <= k < |middle| ensures middle[k] < 0x80 { if k > 0 { assert tail[k - 1] in tail; } }
    AsciiBytes(middle);
  }

  lemma DigitsAreTail(n: nat)
    ensures Tail(Digits(n))
  {
  }

  /** How many characters the name must be given to be fresh: none when it is free, else a
      dash and the least number that is, else a dash and the last resort's text. */
  function Added(name: Text, used: set<Text>, tail: Text): nat {
    var k := LeastFree(name, used, 1);
    if name !in used then 0
    else if k <= MAX_SUFFIX then 1 + |Digits(k)|
    else 1 + |tail|
  }

  lemma ResolvedAtLeast(name: Text, used: set<Text>, tail: Text)
    ensures var k := LeastFree(name, used, 1);
            Resolve(name, used, tail)
            == if name !in used then name
               else Suffixed(name, if k <= MAX_SUFFIX then Digits(k) else tail)
  {
    FirstFreeAtLeast(name, used, 1);
  }

  lemma FreshBytes(name: Text, used: set<Text>, tail: Text)
    requires Tail(tail)
    ensures Utf8(Resolve(name, used, tail)) == Utf8(name) + Added(name, used, tail)
    ensures |Resolve(name, used, tail)| == |name| + Added(name, used, tail)
  {
    ResolvedAtLeast(name, used, tail);
    var k := LeastFree(name, used, 1);
    DigitsAreTail(k);
    SuffixedBytes(name, Digits(k));
    SuffixedBytes(name, tail);
  }

  /** The trimmed name cut at 200 characters, or what stands for an empty one. */
  function Named(raw: Text): Text {
    if Trimmed(raw) == [] then Lit("asset") else Prefix(Trimmed(raw), FILENAME_MAX_CHARS)
  }

  lemma SanitisedIsNamed(raw: Text)
    ensures Sanitise(raw) == Named(raw)
  {
  }

  /** A fresh name keeps to the 255 bytes that a file system allows if and only if the
      trimmed name, cut at 200 characters, does so with what must be added to it. */
  lemma BytesFitExactly(raw: Text, used: set<Text>, tail: Text)
    requires Tail(tail)
    ensures Utf8(Resolve(Sanitise(raw), used, tail)) <= NAME_MAX_BYTES
            <==> Utf8(Named(raw)) + Added(Named(raw), used, tail) <= NAME_MAX_BYTES
  {
    SanitisedIsNamed(raw);
    FreshBytes(Sanitise(raw), used, tail);
  }

  lemma {:induction false} TrimmedUnits(raw: Text)
    ensures forall u :: u in Trimmed(raw) ==> u in raw || u == UNDERSCORE
  {
    var m := Masked(raw);
    CollapsedHas(m, DOT);
    CollapsedHas(Collapsed(m, DOT), UNDERSCORE);
    var p := Collapsed(Collapsed(m, DOT), UNDERSCORE);
    AfterDotsUnits(p);
    AfterEdgeUnits(AfterDots(p));
    BeforeEdgeIs(AfterEdge(AfterDots(p)));
    forall u | u in m ensures u in raw || u == UNDERSCORE {
      var k :| 0 <= k < |m| && m[k] == u;
      assert Unsafe(raw[k]) || raw[k] == u;
    }
  }

  lemma {:induction false} AfterDotsUnits(s: Text)
    ensures forall u :: u in AfterDots(s) ==> u in s
  {
    if s != [] && s[0] == DOT { AfterDotsUnits(s[1..]); }
  }

  lemma {:induction false} AfterEdgeUnits(s: Text)
    ensures forall u :: u in AfterEdge(s) ==> u in s
  {
    if s != [] && Edge(s[0]) { AfterEdgeUnits(s[1..]); }
  }

  /** A name of ASCII characters always keeps to 255 bytes, numbered or not. */
  lemma AsciiAlwaysFits(raw: Text, used: set<Text>, tail: Text)
    requires Ascii(raw) && Tail(tail) && !AllTaken(Sanitise(raw), used)
    ensures Utf8(Resolve(Sanitise(raw), used, tail)) <= NAME_MAX_BYTES
  {
    TrimmedUnits(raw);
    forall k | 0 <= k < |Sanitise(raw)| ensures Sanitise(raw)[k] < 0x80 {
      if Trimmed(raw) != [] { assert Trimmed(raw)[k] == Sanitise(raw)[k] && Trimmed(raw)[k] in Trimmed(raw); }
      else { assert Sanitise(raw) == Lit("asset"); }
    }
    AsciiBytes(Sanitise(raw));
    FreshBytes(Sanitise(raw), used, tail);
    ResolvedIsShort(raw, used, tail);
  }

  const HAN: Unit := 0x4E00

  lemma {:induction false} HanBytes(n: nat)
    ensures Utf8(seq(n, _ => HAN)) == 3 * n
  {
    if n > 0 {
      assert seq(n, _ => HAN)[1..] == seq(n - 1, _ => HAN);
      HanBytes(n - 1);
    }
  }

  /** A name of 86 characters of three bytes each does not. */
  lemma LongInBytes()
    ensures var raw := seq(86, _ => HAN);
            Resolve(Sanitise(raw), {}, []) == raw && Utf8(raw) > NAME_MAX_BYTES
  {
    var raw: Text := seq(86, _ => HAN);
    TidyIsTrimmed(raw);
    HanBytes(86);
  }

  lemma {:induction false} FewDigits(n: nat, k: nat)
    requires n < Power10(k) && k > 0
    ensures |Digits(n)| <= k
  {
    if n >= 10 { FewDigits(n / 10, k - 1); }
  }

  function Power10(k: nat): nat { if k == 0 then 1 else 10 * Power10(k - 1) }

  /** A numbered name has at most 207 characters. */
  lemma ResolvedIsShort(raw: Text, used: set<Text>, tail: Text)
    requires !AllTaken(Sanitise(raw), used)
    ensures |Resolve(Sanitise(raw), used, tail)| <= FILENAME_MAX_CHARS + 7
  {
    var name := Sanitise(raw);
    SanitisedIsClean(raw);
    FreshUnlessAllTaken(name, used, tail);
    if name in used {
      var k :| 1 <= k <= MAX_SUFFIX && Resolve(name, used, tail) == Candidate(name, k);
      assert Power10(6) == 1_000_000 by {
        assert Power10(3) == 1_000;
        assert Power10(5) == 10 * 10 * Power10(3);
      }
      FewDigits(k, 6);
    }
  }
}

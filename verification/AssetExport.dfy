/** The export of matched responses to files: bounded in count and bytes, never over a
    file that is there, and with every match accounted for. (src/page/asset-export.ts) */
module AssetExport {
  import opened Json
  import opened AssetNames

  type Byte = b: int | 0 <= b < 256
  type Bytes = seq<Byte>

  const HARD_MAX_COUNT := 50_000
  const HARD_MAX_BYTES := 2 * 1024 * 1024 * 1024
  const DEFAULT_MAX_COUNT := 10_000
  const DEFAULT_MAX_BYTES := 500 * 1024 * 1024
  const SINGLE_BODY_MAX_BYTES := 64 * 1024 * 1024
  const MAX_NAME_ATTEMPTS := 1000

  datatype Fetched = NotFetched | Body(bytes: Bytes)

  /** What a write to a name that is free does: it may fail, and leave a part. */
  datatype Wrote = Whole | Broken(left: Option<Bytes>)

  /** A response of the ring: whether the filter takes it, what its URL ends in, its
      size as reported, its body, and what the disk does with each attempt: the write
      itself, the size that `stat` then gives, and the tail of the last resort. */
  datatype Entry = Entry(
    matches: bool, raw: Text, reported: Option<nat>, body: Fetched,
    writes: nat -> Wrote, stat: Option<nat>, tails: nat -> Text)

  datatype Saved = Saved(name: Text, sizeBytes: nat, bytes: Bytes)

  /** Where an export goes, and which names in it the workspace lets it write. */
  datatype Target = Target(maxCount: int, maxBytes: int, writable: Text -> bool)

  /** The files of the directory, and the names this run has tried. */
  datatype Files = Files(disk: map<Text, Bytes>, used: set<Text>)

  /** `notPersisted` is the number in the warning of a run stopped by its count. */
  datatype State = State(
    files: Files, manifest: seq<Saved>, matched: nat, dropped: nat, running: nat, notPersisted: Option<int>)

  datatype Disposition = Continue | Break

  /** `Math.min(Math.max(1, x ?? default), hard)`. */
  function Clamp(x: Option<int>, otherwise: int, hard: int): (r: int)
    requires 1 <= otherwise <= hard
    ensures 1 <= r <= hard
  {
    var wanted := if x.Some? then x.value else otherwise;
    var raised := if wanted > 1 then wanted else 1;
    if raised < hard then raised else hard
  }

  function TargetFor(maxCount: Option<int>, maxBytes: Option<int>, writable: Text -> bool): Target {
    Target(Clamp(maxCount, DEFAULT_MAX_COUNT, HARD_MAX_COUNT), Clamp(maxBytes, DEFAULT_MAX_BYTES, HARD_MAX_BYTES),
           writable)
  }

  function Start(disk: map<Text, Bytes>): State { State(Files(disk, {}), [], 0, 0, 0, None) }

  /** Joined to a directory, the name stays directly inside it. */
  predicate Flat(name: Text) {
    && name != [] && name != [DOT] && name != [DOT, DOT]
    && forall u :: u in name ==> u != SLASH && u != BACKSLASH
  }

  // ---------- writing one file ----------

  /** After these names were found taken; the result is `None` when the asset is dropped. */
  function WriteFrom(t: Target, f: Files, base: Text, e: Entry, bytes: Bytes, taken: seq<Text>): (Files, Option<Text>)
    decreases MAX_NAME_ATTEMPTS - |taken|
  {
    if |taken| >= MAX_NAME_ATTEMPTS then (f, None)
    else
      var name := Resolve(base, f.used, e.tails(|taken|));
      var u := f.(used := f.used + {name});
      if !Flat(name) || !t.writable(name) then (u, None)
      else if name in f.disk then WriteFrom(t, u, base, e, bytes, taken + [name])
      else match e.writes(|taken|)
        case Whole => (u.(disk := f.disk[name := bytes]), Some(name))
        case Broken(left) => (if left.Some? then u.(disk := f.disk[name := left.value]) else u, None)
  }

  function WriteAsset(t: Target, f: Files, e: Entry, bytes: Bytes): (Files, Option<Text>) {
    WriteFrom(t, f, Sanitise(e.raw), e, bytes, [])
  }

  // ---------- one entry ----------

  function Drop(s: State): State { s.(dropped := s.dropped + 1) }

  /** What became of a write: a drop, or one more line of the manifest. */
  function Recorded(s: State, w: (Files, Option<Text>), e: Entry, bytes: Bytes): State {
    var written := s.(files := w.0);
    if w.1.None? then Drop(written)
    else
      var size := if e.stat.Some? then e.stat.value else |bytes|;
      written.(running := s.running + size, manifest := s.manifest + [Saved(w.1.value, size, bytes)])
  }

  function Persist(t: Target, s: State, e: Entry, bytes: Bytes): (State, Disposition) {
    if s.running + |bytes| > t.maxBytes then (s, Break)
    else (Recorded(s, WriteAsset(t, s.files, e, bytes), e, bytes), Continue)
  }

  function Process(t: Target, s: State, e: Entry): (State, Disposition) {
    var m := s.(matched := s.matched + 1);
    if |m.manifest| >= t.maxCount then (m.(notPersisted := Some(m.matched - |m.manifest|)), Break)
    else if e.reported.Some? && e.reported.value > SINGLE_BODY_MAX_BYTES then (Drop(m), Continue)
    else if e.body.NotFetched? || |e.body.bytes| > SINGLE_BODY_MAX_BYTES then (Drop(m), Continue)
    else Persist(t, m, e, e.body.bytes)
  }

  /** The entries from here on, until one stops the run. */
  function ExportFrom(t: Target, s: State, entries: seq<Entry>): (State, Disposition)
    decreases |entries|
  {
    if entries == [] then (s, Continue)
    else if !entries[0].matches then ExportFrom(t, s, entries[1..])
    else
      var r := Process(t, s, entries[0]);
      if r.1.Break? then r else ExportFrom(t, r.0, entries[1..])
  }

  // ---------- the code ----------

  class Exporter {
    const target: Target
    var disk: map<Text, Bytes>
    var used: set<Text>
    var manifest: seq<Saved>
    var matched: nat
    var dropped: nat
    var running: nat
    var notPersisted: Option<int>

    ghost function St(): State
      reads this
    {
      State(Files(disk, used), manifest, matched, dropped, running, notPersisted)
    }

    constructor (maxCount: Option<int>, maxBytes: Option<int>, writable: Text -> bool, disk: map<Text, Bytes>)
      ensures target == TargetFor(maxCount, maxBytes, writable) && St() == Start(disk)
    {
      target := TargetFor(maxCount, maxBytes, writable);
      this.disk, used, manifest, matched, dropped, running, notPersisted := disk, {}, [], 0, 0, 0, None;
    }

    method WriteAssetFile(e: Entry, bytes: Bytes) returns (saved: Option<Text>)
      modifies this`used, this`disk
      ensures (Files(disk, used), saved) == WriteAsset(target, old(Files(disk, used)), e, bytes)
    {
      var base := Sanitise(e.raw);
      saved := None;
      var attempt, done := 0, false;
      ghost var taken, goal := [], WriteAsset(target, Files(disk, used), e, bytes);
      while !done && attempt < MAX_NAME_ATTEMPTS
        invariant 0 <= attempt <= MAX_NAME_ATTEMPTS && |taken| == attempt
        invariant !done ==> saved == None
        invariant !done ==> WriteFrom(target, Files(disk, used), base, e, bytes, taken) == goal
        invariant done ==> (Files(disk, used), saved) == goal
        decreases MAX_NAME_ATTEMPTS - attempt, !done
      {
        var name := ResolveCollision(base, used, e.tails(attempt));
        used := used + {name};
        if !Flat(name) || !target.writable(name) {
          done := true;
        } else if name in disk {
          attempt := attempt + 1;
          taken := taken + [name];
        } else {
          done := true;
          match e.writes(attempt) {
            case Whole =>
              disk := disk[name := bytes];
              saved := Some(name);
            case Broken(left) =>
              if left.Some? { disk := disk[name := left.value]; }
          }
        }
      }
    }

    method PersistAssetBody(e: Entry, bytes: Bytes) returns (d: Disposition)
      modifies this
      ensures (St(), d) == Persist(target, old(St()), e, bytes)
    {
      d := Continue;
      if running + |bytes| > target.maxBytes {
        d := Break;
      } else {
        var saved := WriteAssetFile(e, bytes);
        if saved.None? {
          dropped := dropped + 1;
        } else {
          var sizeBytes := if e.stat.Some? then e.stat.value else |bytes|;
          running := running + sizeBytes;
          manifest := manifest + [Saved(saved.value, sizeBytes, bytes)];
        }
      }
    }

    method ProcessAssetEntry(e: Entry) returns (d: Disposition)
      modifies this
      ensures (St(), d) == Process(target, old(St()), e)
    {
      d := Continue;
      matched := matched + 1;
      if |manifest| >= target.maxCount {
        notPersisted := Some(matched - |manifest|);
        d := Break;
      } else if e.reported.Some? && e.reported.value > SINGLE_BODY_MAX_BYTES {
        dropped := dropped + 1;
      } else if e.body.NotFetched? || |e.body.bytes| > SINGLE_BODY_MAX_BYTES {
        dropped := dropped + 1;
      } else {
        d := PersistAssetBody(e, e.body.bytes);
      }
    }

    method Export(all: seq<Entry>) returns (d: Disposition)
      modifies this
      ensures (St(), d) == ExportFrom(target, old(St()), all)
    {
      d := Continue;
      var i := 0;
      while i < |all| && d.Continue?
        invariant 0 <= i <= |all|
        invariant d.Continue? ==> ExportFrom(target, St(), all[i..]) == ExportFrom(target, old(St()), all)
        invariant d.Break? ==> (St(), d) == ExportFrom(target, old(St()), all)
      {
        assert all[i..][0] == all[i] && all[i..][1..] == all[i + 1..];
        if all[i].matches {
          d := ProcessAssetEntry(all[i]);
        }
        i := i + 1;
      }
    }

    method WriteManifest(manifest: Bytes)
      modifies this`disk
      ensures disk == Finished(old(disk), manifest)
    {
      disk := disk[Lit("_manifest.json") := manifest];
    }
  }

  // ---------- what every export keeps ----------

  /** The last resort adds nothing but digits, letters and dashes. */
  ghost predicate PlainTails(e: Entry) { forall k: nat :: Tail(e.tails(k)) }

  function Total(m: seq<Saved>): nat { if m == [] then 0 else Total(m[..|m| - 1]) + m[|m| - 1].sizeBytes }

  /** Files that were there are as they were. */
  ghost predicate Unharmed(d0: map<Text, Bytes>, d: map<Text, Bytes>) {
    forall n :: n in d0 ==> n in d && d[n] == d0[n]
  }

  /** The saved file is new, flat, not the manifest, and holds what was fetched. */
  predicate SavedFile(d0: map<Text, Bytes>, d: map<Text, Bytes>, m: Saved) {
    && Flat(m.name) && m.name != Lit("_manifest.json")
    && m.name !in d0 && m.name in d && d[m.name] == m.bytes
  }

  /** Every saved file is so, and no two share a name. */
  ghost predicate AllSaved(d0: map<Text, Bytes>, d: map<Text, Bytes>, manifest: seq<Saved>) {
    && (forall k :: 0 <= k < |manifest| ==> SavedFile(d0, d, manifest[k]))
    && (forall j, k :: 0 <= j < k < |manifest| ==> manifest[j].name != manifest[k].name)
  }

  ghost predicate FilesOk(d0: map<Text, Bytes>, s: State) {
    Unharmed(d0, s.files.disk) && AllSaved(d0, s.files.disk, s.manifest)
  }

  lemma PlainIsFlat(n: Text)
    requires Plain(n)
    ensures Flat(n)
  {
    assert Edge(DOT);
    forall u | u in n ensures u != SLASH && u != BACKSLASH { assert !Unsafe(u); }
  }

  /** A write only ever adds a file, and what it reports as saved is that file. */
  lemma {:induction false} WriteAddsOne(t: Target, f: Files, base: Text, e: Entry, bytes: Bytes, taken: seq<Text>)
    requires PlainTails(e) && Plain(base)
    ensures var r := WriteFrom(t, f, base, e, bytes, taken);
            && Unharmed(f.disk, r.0.disk)
            && (r.1.Some? ==> SavedFile(f.disk, r.0.disk, Saved(r.1.value, 0, bytes)))
    decreases MAX_NAME_ATTEMPTS - |taken|
  {
    if |taken| < MAX_NAME_ATTEMPTS {
      var name := Resolve(base, f.used, e.tails(|taken|));
      ResolvedIsPlain(base, f.used, e.tails(|taken|));
      PlainIsFlat(name);
      if t.writable(name) && name in f.disk {
        WriteAddsOne(t, f.(used := f.used + {name}), base, e, bytes, taken + [name]);
      }
    }
  }

  lemma OneMoreSaved(d0: map<Text, Bytes>, d: map<Text, Bytes>, d': map<Text, Bytes>, manifest: seq<Saved>, m: Saved)
    requires Unharmed(d0, d) && Unharmed(d, d') && AllSaved(d0, d, manifest) && SavedFile(d, d', m)
    ensures Unharmed(d0, d') && AllSaved(d0, d', manifest + [m])
  {
    forall k | 0 <= k < |manifest| ensures manifest[k].name != m.name && SavedFile(d0, d', manifest[k]) {
      assert SavedFile(d0, d, manifest[k]);
    }
  }

  lemma RecordedFiles(d0: map<Text, Bytes>, s: State, w: (Files, Option<Text>), e: Entry, bytes: Bytes)
    requires FilesOk(d0, s) && Unharmed(s.files.disk, w.0.disk)
    requires w.1.Some? ==> SavedFile(s.files.disk, w.0.disk, Saved(w.1.value, 0, bytes))
    ensures FilesOk(d0, Recorded(s, w, e, bytes))
  {
    if w.1.Some? {
      var size := if e.stat.Some? then e.stat.value else |bytes|;
      OneMoreSaved(d0, s.files.disk, w.0.disk, s.manifest, Saved(w.1.value, size, bytes));
    } else {
      forall k | 0 <= k < |s.manifest| ensures SavedFile(d0, w.0.disk, s.manifest[k]) {
        assert SavedFile(d0, s.files.disk, s.manifest[k]);
      }
    }
  }

  lemma ProcessFiles(t: Target, d0: map<Text, Bytes>, s: State, e: Entry)
    requires FilesOk(d0, s) && PlainTails(e)
    ensures FilesOk(d0, Process(t, s, e).0)
  {
    if e.body.Body? {
      SanitisedIsClean(e.raw);
      WriteAddsOne(t, s.files, Sanitise(e.raw), e, e.body.bytes, []);
      RecordedFiles(d0, s.(matched := s.matched + 1), WriteAsset(t, s.files, e, e.body.bytes), e, e.body.bytes);
    }
  }

  lemma {:induction false} ExportFiles(t: Target, d0: map<Text, Bytes>, s: State, entries: seq<Entry>)
    requires FilesOk(d0, s) && forall k :: 0 <= k < |entries| ==> PlainTails(entries[k])
    ensures FilesOk(d0, ExportFrom(t, s, entries).0)
    decreases |entries|
  {
    if entries != [] {
      if !entries[0].matches {
        ExportFiles(t, d0, s, entries[1..]);
      } else {
        ProcessFiles(t, d0, s, entries[0]);
        if Process(t, s, entries[0]).1.Continue? { ExportFiles(t, d0, Process(t, s, entries[0]).0, entries[1..]); }
      }
    }
  }

  /** The manifest is written last, over one that is there. */
  function Finished(d: map<Text, Bytes>, manifest: Bytes): map<Text, Bytes> { d[Lit("_manifest.json") := manifest] }

  /** Files that were there stay as they were, but for an older manifest. The saved names
      are new, distinct and flat, none of them the manifest's, and each file holds what
      was fetched, when the run ends as before the manifest is written. */
  lemma ExportNeverClobbers(t: Target, disk: map<Text, Bytes>, entries: seq<Entry>, manifest: Bytes)
    requires forall k :: 0 <= k < |entries| ==> PlainTails(entries[k])
    ensures var x := ExportFrom(t, Start(disk), entries).0;
            && Unharmed(disk, x.files.disk) && AllSaved(disk, x.files.disk, x.manifest)
            && Unharmed(disk - {Lit("_manifest.json")}, Finished(x.files.disk, manifest))
            && AllSaved(disk, Finished(x.files.disk, manifest), x.manifest)
  {
    ExportFiles(t, disk, Start(disk), entries);
    var x := ExportFrom(t, Start(disk), entries).0;
    forall k | 0 <= k < |x.manifest| ensures SavedFile(disk, Finished(x.files.disk, manifest), x.manifest[k]) {
      assert SavedFile(disk, x.files.disk, x.manifest[k]);
    }
  }

  // ---------- counts and bytes ----------

  ghost predicate Tallies(t: Target, s: State) {
    s.matched == |s.manifest| + s.dropped && |s.manifest| <= t.maxCount && s.running == Total(s.manifest)
  }

  /** The cap that stops a run at this entry. */
  predicate AtCount(t: Target, s: State) { |s.manifest| >= t.maxCount }

  predicate OverBytes(t: Target, s: State, e: Entry) {
    && !AtCount(t, s) && e.body.Body? && |e.body.bytes| <= SINGLE_BODY_MAX_BYTES
    && (e.reported.Some? ==> e.reported.value <= SINGLE_BODY_MAX_BYTES)
    && s.running + |e.body.bytes| > t.maxBytes
  }

  lemma ProcessTallies(t: Target, s: State, e: Entry)
    requires Tallies(t, s)
    ensures var r := Process(t, s, e);
            && (r.1.Break? <==> AtCount(t, s) || OverBytes(t, s, e))
            && (if r.1.Continue? then Tallies(t, r.0) && r.0.matched == s.matched + 1
                else r.0 == s.(matched := s.matched + 1, notPersisted := r.0.notPersisted))
  {
    var p := Process(t, s, e).0;
    if |p.manifest| > |s.manifest| { assert p.manifest[..|s.manifest|] == s.manifest; }
  }

  function CountMatching(entries: seq<Entry>): nat {
    if entries == [] then 0 else (if entries[0].matches then 1 else 0) + CountMatching(entries[1..])
  }

  /** Every match is persisted, dropped, or the one that a cap stopped the run at, and
      without a stop every match of the ring was seen. */
  lemma {:induction false} ExportTallies(t: Target, s: State, entries: seq<Entry>)
    requires Tallies(t, s)
    ensures var r := ExportFrom(t, s, entries);
            && r.0.matched == |r.0.manifest| + r.0.dropped + (if r.1.Break? then 1 else 0)
            && |r.0.manifest| <= t.maxCount && r.0.running == Total(r.0.manifest)
            && (if r.1.Continue? then r.0.matched == s.matched + CountMatching(entries)
                else r.0.matched <= s.matched + CountMatching(entries))
    decreases |entries|
  {
    if entries != [] {
      if !entries[0].matches {
        ExportTallies(t, s, entries[1..]);
      } else {
        ProcessTallies(t, s, entries[0]);
        if Process(t, s, entries[0]).1.Continue? { ExportTallies(t, Process(t, s, entries[0]).0, entries[1..]); }
      }
    }
  }

  lemma ExportConserves(maxCount: Option<int>, maxBytes: Option<int>, writable: Text -> bool,
                        disk: map<Text, Bytes>, entries: seq<Entry>)
    ensures var r := ExportFrom(TargetFor(maxCount, maxBytes, writable), Start(disk), entries);
            && r.0.matched == |r.0.manifest| + r.0.dropped + (if r.1.Break? then 1 else 0)
            && (r.1.Continue? ==> r.0.matched == CountMatching(entries))
            && |r.0.manifest| <= HARD_MAX_COUNT
  {
    ExportTallies(TargetFor(maxCount, maxBytes, writable), Start(disk), entries);
  }

  /** The size on disk is that of the body. */
  predicate Honest(e: Entry) {
    e.body.Body? && e.stat.Some? ==> e.stat.value == |e.body.bytes|
  }

  lemma ProcessBytes(t: Target, s: State, e: Entry)
    requires Honest(e) && s.running <= t.maxBytes
    ensures Process(t, s, e).0.running <= t.maxBytes
  {
  }

  lemma {:induction false} ExportBytes(t: Target, s: State, entries: seq<Entry>)
    requires s.running <= t.maxBytes && forall k :: 0 <= k < |entries| ==> Honest(entries[k])
    ensures ExportFrom(t, s, entries).0.running <= t.maxBytes
    decreases |entries|
  {
    if entries != [] {
      if !entries[0].matches {
        ExportBytes(t, s, entries[1..]);
      } else {
        ProcessBytes(t, s, entries[0]);
        if Process(t, s, entries[0]).1.Continue? { ExportBytes(t, Process(t, s, entries[0]).0, entries[1..]); }
      }
    }
  }

  /** When `stat` gives the size of what was written, the sizes recorded add up to no
      more than the byte cap, which is never above 2 GiB. */
  lemma RecordedSizesFit(maxCount: Option<int>, maxBytes: Option<int>, writable: Text -> bool,
                         disk: map<Text, Bytes>, entries: seq<Entry>)
    requires forall k :: 0 <= k < |entries| ==> Honest(entries[k])
    ensures var t := TargetFor(maxCount, maxBytes, writable);
            Total(ExportFrom(t, Start(disk), entries).0.manifest) <= t.maxBytes <= HARD_MAX_BYTES
  {
    var t := TargetFor(maxCount, maxBytes, writable);
    ExportBytes(t, Start(disk), entries);
    ExportTallies(t, Start(disk), entries);
  }

  /** The number that the warning gives when the count stops a run is the drops so far
      and one more: the matches after it are not in it. */
  lemma {:induction false} WarnedNumber(t: Target, s: State, entries: seq<Entry>)
    requires Tallies(t, s) && s.notPersisted.None?
    ensures var x := ExportFrom(t, s, entries).0;
            x.notPersisted.Some? ==> x.notPersisted.value == x.dropped + 1
    decreases |entries|
  {
    if entries != [] {
      if !entries[0].matches {
        WarnedNumber(t, s, entries[1..]);
      } else {
        ProcessTallies(t, s, entries[0]);
        var r := Process(t, s, entries[0]);
        KeepsQuiet(t, s, entries[0]);
        if r.1.Continue? { WarnedNumber(t, r.0, entries[1..]); }
      }
    }
  }

  lemma KeepsQuiet(t: Target, s: State, e: Entry)
    requires s.notPersisted.None?
    ensures var r := Process(t, s, e);
            && (r.1.Continue? ==> r.0.notPersisted.None?)
            && (r.0.notPersisted.Some? ==> r.0.notPersisted.value == s.matched + 1 - |s.manifest|)
  {
  }

  lemma {:induction false} ExportSplits(t: Target, s: State, a: seq<Entry>, b: seq<Entry>)
    ensures var r := ExportFrom(t, s, a);
            ExportFrom(t, s, a + b) == if r.1.Break? then r else ExportFrom(t, r.0, b)
    decreases |a|
  {
    if a == [] {
      assert a + b == b;
    } else {
      assert (a + b)[0] == a[0] && (a + b)[1..] == a[1..] + b;
      if !a[0].matches {
        ExportSplits(t, s, a[1..], b);
      } else if Process(t, s, a[0]).1.Continue? {
        ExportSplits(t, Process(t, s, a[0]).0, a[1..], b);
      }
    }
  }

  lemma {:induction false} CountSplits(a: seq<Entry>, b: seq<Entry>)
    ensures CountMatching(a + b) == CountMatching(a) + CountMatching(b)
  {
    if a == [] {
      assert a + b == b;
    } else {
      assert (a + b)[0] == a[0] && (a + b)[1..] == a[1..] + b;
      CountSplits(a[1..], b);
    }
  }

  /** The run comes as far as `e`, a match, and finds its count reached. */
  predicate StopsAt(t: Target, s: State, pre: seq<Entry>, e: Entry) {
    var r := ExportFrom(t, s, pre);
    r.1.Continue? && e.matches && AtCount(t, r.0)
  }

  /** How a run ends that its count stopped at `e`. */
  lemma StopState(t: Target, disk: map<Text, Bytes>, pre: seq<Entry>, e: Entry, post: seq<Entry>)
    requires t.maxCount >= 1 && StopsAt(t, Start(disk), pre, e)
    ensures var x := ExportFrom(t, Start(disk), pre + [e] + post).0;
            && |x.manifest| == t.maxCount && x.matched == CountMatching(pre) + 1
            && x.matched == |x.manifest| + x.dropped + 1
            && x.notPersisted == Some(x.matched - |x.manifest|)
            && x.dropped == ExportFrom(t, Start(disk), pre).0.dropped
  {
    var r := ExportFrom(t, Start(disk), pre);
    ExportTallies(t, Start(disk), pre);
    ExportSplits(t, Start(disk), pre, [e] + post);
    assert pre + [e] + post == pre + ([e] + post);
    ProcessTallies(t, r.0, e);
    assert ([e] + post)[0] == e;
  }

  /** The warning names the number of matches not persisted if and only if no match comes
      after the entry that the run stopped at; and when nothing was dropped up to it, if
      and only if there is exactly one match more than the count allows. */
  lemma {:induction false} WarningIsRightExactly(
    t: Target, disk: map<Text, Bytes>, pre: seq<Entry>, e: Entry, post: seq<Entry>)
    requires t.maxCount >= 1 && StopsAt(t, Start(disk), pre, e)
    ensures var entries := pre + [e] + post;
            var x := ExportFrom(t, Start(disk), entries).0;
            && x.notPersisted.Some?
            && (x.notPersisted.value == CountMatching(entries) - |x.manifest| <==> CountMatching(post) == 0)
            && (ExportFrom(t, Start(disk), pre).0.dropped == 0 ==>
                  (x.notPersisted.value == CountMatching(entries) - |x.manifest|
                   <==> CountMatching(entries) == t.maxCount + 1))
  {
    StopState(t, disk, pre, e, post);
    CountSplits(pre, [e] + post);
    CountSplits([e], post);
    assert pre + [e] + post == pre + ([e] + post);
  }

  /** Every warned run is stopped at some entry. */
  lemma {:induction false} WarnedIsStopped(t: Target, s: State, entries: seq<Entry>)
    returns (pre: seq<Entry>, e: Entry, post: seq<Entry>)
    requires Tallies(t, s) && s.notPersisted.None? && ExportFrom(t, s, entries).0.notPersisted.Some?
    ensures entries == pre + [e] + post && StopsAt(t, s, pre, e)
    decreases |entries|
  {
    var first := entries[0];
    if !first.matches {
      pre, e, post := WarnedIsStopped(t, s, entries[1..]);
      pre := [first] + pre;
      assert entries == [first] + entries[1..] && pre[0] == first;
    } else {
      ProcessTallies(t, s, first);
      KeepsQuiet(t, s, first);
      var r := Process(t, s, first);
      if r.1.Continue? {
        pre, e, post := WarnedIsStopped(t, r.0, entries[1..]);
        ghost var rest := pre;
        pre := [first] + pre;
        assert pre[1..] == rest && entries == [first] + entries[1..];
      } else {
        pre, e, post := [], first, entries[1..];
        assert entries == [] + [first] + entries[1..];
      }
    }
  }

  /** A response that is saved under the name its URL ends in, unless that is taken. */
  function Plainly(raw: Text): Entry { Entry(true, raw, None, Body([]), _ => Whole, None, _ => []) }

  /** One file allowed and three good matches: the warning says one, and two were not
      persisted. */
  lemma {:induction false} WarningCanBeWrong()
    ensures var t, e := Target(1, 1, _ => true), Plainly(Lit("a"));
            var x := ExportFrom(t, Start(map[]), [e, e, e]).0;
            x.notPersisted == Some(1) && CountMatching([e, e, e]) - |x.manifest| == 2
  {
    var t, e := Target(1, 1, _ => true), Plainly(Lit("a"));
    FirstIsSaved(t, e);
    assert [e] + [e] + [e] == [e, e, e] && [e][1..] == [];
    assert ExportFrom(t, Start(map[]), [e]) == ExportFrom(t, Process(t, Start(map[]), e).0, []);
    StopState(t, map[], [e], e, [e]);
    CountSplits([e], [e, e]);
    CountSplits([e], [e]);
    assert [e] + [e, e] == [e, e, e] && [e] + [e] == [e, e];
    assert CountMatching([e]) == 1;
  }

  lemma FirstIsSaved(t: Target, e: Entry)
    requires t == Target(1, 1, t.writable) && t.writable(Sanitise(e.raw))
    requires e.matches && e.reported.None? && e.body == Body([]) && e.writes(0).Whole?
    ensures var r := Process(t, Start(map[]), e); r.1.Continue? && |r.0.manifest| == 1
  {
    SanitisedIsClean(e.raw);
    PlainIsFlat(Sanitise(e.raw));
    assert Resolve(Sanitise(e.raw), {}, e.tails(0)) == Sanitise(e.raw);
  }
}

/** Writing the user's config: to a temp file beside it, then a rename over it, with
    the previous contents kept in a backup. Every file-system call may fail, and the
    one write may write less than it was given. (src/cli/init-user-config.ts) */
module ConfigWrite {
  type Byte = b: int | 0 <= b < 256
  type Bits = set<nat>

  datatype Path = Path(dir: string, name: string)

  datatype File = File(data: seq<Byte>, mode: Bits)

  type Disk = map<Path, File>

  /** The permission bits, `0o777`. */
  const PERMISSIONS: Bits := {0, 1, 2, 3, 4, 5, 6, 7, 8}
  /** `0o600`. */
  const PRIVATE: Bits := {7, 8}

  /** What `writeSync` does: nothing, or the first bytes up to some number. */
  datatype WriteOutcome = WriteFails | Wrote(n: nat)

  /** Which calls of one replacement fail. */
  datatype Faults = Faults(
    create: bool, write: WriteOutcome, chmod: bool, sync: bool, close: bool, rename: bool, remove: bool)

  /** Which calls of the whole write fail: making the directory or resolving the
      path, the `stat`, the read of the old file, and those of both replacements. */
  datatype AllFaults = AllFaults(setup: bool, stat: bool, read: bool, backup: Faults, target: Faults)

  /** The disk now, and as it was after every change: where a crash may stop. */
  datatype State = State(disk: Disk, trace: seq<Disk>)

  datatype Step = Step(state: State, ok: bool)

  function Changed(s: State, d: Disk): State { State(d, s.trace + [d]) }

  function BackupOf(p: Path): Path { p.(name := p.name + ".browxai-bak") }

  /** `hex` is six random bytes in hexadecimal. */
  function TempOf(p: Path, hex: string): Path { p.(name := "." + p.name + "." + hex + ".tmp") }

  function First(data: seq<Byte>, n: nat): seq<Byte> { if n < |data| then data[..n] else data }

  function Written(data: seq<Byte>, w: WriteOutcome): seq<Byte> {
    if w.Wrote? then First(data, w.n) else []
  }

  // ---------- what each call does ----------

  function OnCreate(s: State, tmp: Path, mode: Bits, umask: Bits, f: Faults): Step {
    if f.create || tmp in s.disk then Step(s, false)
    else Step(Changed(s, s.disk[tmp := File([], mode - umask)]), true)
  }

  function OnWrite(s: State, tmp: Path, data: seq<Byte>, f: Faults): Step
    requires tmp in s.disk
  {
    if f.write.WriteFails? then Step(s, false)
    else Step(Changed(s, s.disk[tmp := s.disk[tmp].(data := First(data, f.write.n))]), true)
  }

  function OnChmod(s: State, tmp: Path, mode: Bits, f: Faults): Step
    requires tmp in s.disk
  {
    if f.chmod then Step(s, false) else Step(Changed(s, s.disk[tmp := s.disk[tmp].(mode := mode)]), true)
  }

  function OnWriteNew(s: State, tmp: Path, data: seq<Byte>, mode: Bits, umask: Bits, f: Faults): (r: Step)
    ensures r.ok ==> tmp in r.state.disk
  {
    var c := OnCreate(s, tmp, mode, umask, f);
    if !c.ok then c
    else
      var w := OnWrite(c.state, tmp, data, f);
      if !w.ok then w
      else
        var m := OnChmod(w.state, tmp, mode, f);
        Step(m.state, m.ok && !f.sync && !f.close)
  }

  function OnReplaceVia(s: State, path: Path, tmp: Path, data: seq<Byte>, mode: Bits, umask: Bits, f: Faults): Step {
    var w := OnWriteNew(s, tmp, data, mode, umask, f);
    if w.ok && !f.rename then
      Step(Changed(w.state, w.state.disk[path := w.state.disk[tmp]] - {tmp}), true)
    else if f.remove then Step(w.state, false)
    else Step(Changed(w.state, w.state.disk - {tmp}), false)
  }

  datatype Names = Names(target: Path, hex1: string, hex2: string)

  predicate ValidNames(n: Names) { |n.hex1| == 12 && |n.hex2| == 12 }

  function OnApply(s: State, n: Names, after: seq<Byte>, umask: Bits, f: AllFaults): Step {
    if f.setup || f.stat then Step(s, false)
    else if n.target !in s.disk then
      OnReplaceVia(s, n.target, TempOf(n.target, n.hex2), after, PRIVATE, umask, f.target)
    else if f.read then Step(s, false)
    else
      var was := s.disk[n.target];
      var mode, bak := was.mode * PERMISSIONS, BackupOf(n.target);
      var b := OnReplaceVia(s, bak, TempOf(bak, n.hex1), was.data, mode, umask, f.backup);
      if !b.ok then b
      else OnReplaceVia(b.state, n.target, TempOf(n.target, n.hex2), after, mode, umask, f.target)
  }

  // ---------- the code ----------

  class FileSystem {
    var disk: Disk
    const umask: Bits
    ghost var trace: seq<Disk>

    ghost function St(): State
      reads this
    {
      State(disk, trace)
    }

    constructor (disk: Disk, umask: Bits)
      ensures St() == State(disk, [disk]) && this.umask == umask
    {
      this.disk, this.umask, trace := disk, umask, [disk];
    }

    method Create(tmp: Path, mode: Bits, f: Faults) returns (ok: bool)
      modifies this
      ensures Step(St(), ok) == OnCreate(old(St()), tmp, mode, umask, f)
    {
      ok := !f.create && tmp !in disk;
      if ok {
        disk := disk[tmp := File([], mode - umask)];
        trace := trace + [disk];
      }
    }

    method Write(tmp: Path, data: seq<Byte>, f: Faults) returns (ok: bool)
      requires tmp in disk
      modifies this
      ensures Step(St(), ok) == OnWrite(old(St()), tmp, data, f)
    {
      ok := f.write.Wrote?;
      if ok {
        disk := disk[tmp := disk[tmp].(data := First(data, f.write.n))];
        trace := trace + [disk];
      }
    }

    method Chmod(tmp: Path, mode: Bits, f: Faults) returns (ok: bool)
      requires tmp in disk
      modifies this
      ensures Step(St(), ok) == OnChmod(old(St()), tmp, mode, f)
    {
      ok := !f.chmod;
      if ok {
        disk := disk[tmp := disk[tmp].(mode := mode)];
        trace := trace + [disk];
      }
    }

    /** The number of bytes that `writeSync` wrote is not looked at. */
    method WriteNew(tmp: Path, data: seq<Byte>, mode: Bits, f: Faults) returns (ok: bool)
      modifies this
      ensures Step(St(), ok) == OnWriteNew(old(St()), tmp, data, mode, umask, f)
    {
      ok := Create(tmp, mode, f);
      if ok {
        ok := Write(tmp, data, f);
        if ok {
          ok := Chmod(tmp, mode, f);
          ok := ok && !f.sync && !f.close;
        }
      }
    }

    method ReplaceVia(path: Path, hex: string, data: seq<Byte>, mode: Bits, f: Faults) returns (ok: bool)
      modifies this
      ensures Step(St(), ok) == OnReplaceVia(old(St()), path, TempOf(path, hex), data, mode, umask, f)
    {
      var tmp := TempOf(path, hex);
      ok := WriteNew(tmp, data, mode, f);
      if ok && !f.rename {
        disk := disk[path := disk[tmp]] - {tmp};
        trace := trace + [disk];
      } else {
        ok := false;
        if !f.remove {
          disk := disk - {tmp};
          trace := trace + [disk];
        }
      }
    }

    method ApplyUserConfig(n: Names, after: seq<Byte>, f: AllFaults) returns (ok: bool)
      modifies this
      ensures Step(St(), ok) == OnApply(old(St()), n, after, umask, f)
    {
      ok := !f.setup && !f.stat;
      if ok {
        var mode := PRIVATE;
        if n.target in disk {
          mode := disk[n.target].mode * PERMISSIONS;
          ok := !f.read;
          if ok {
            ok := ReplaceVia(BackupOf(n.target), n.hex1, disk[n.target].data, mode, f.backup);
          }
        }
        if ok {
          ok := ReplaceVia(n.target, n.hex2, after, mode, f.target);
        }
      }
    }
  }

  // ---------- what one replacement keeps ----------

  /** Two disks say the same of `p`. */
  predicate Agree(d: Disk, e: Disk, p: Path) {
    (p in d <==> p in e) && (p in d ==> d[p] == e[p])
  }

  predicate Holds(d: Disk, p: Path, f: File) { p in d && d[p] == f }

  predicate Succeeds(s: State, tmp: Path, f: Faults) {
    && tmp !in s.disk && !f.create && f.write.Wrote?
    && !f.chmod && !f.sync && !f.close && !f.rename
  }

  /** The two disks differ at most in the temp file. */
  ghost predicate OffTemp(d: Disk, e: Disk, tmp: Path) { forall p :: p != tmp ==> Agree(d, e, p) }

  /** From `s` to `t` only the temp file was touched. */
  ghost predicate Beside(s: State, t: State, tmp: Path) {
    && s.trace <= t.trace && OffTemp(t.disk, s.disk, tmp)
    && forall k :: |s.trace| <= k < |t.trace| ==> OffTemp(t.trace[k], s.disk, tmp)
  }

  lemma BesideNext(s: State, t: State, d: Disk, tmp: Path)
    requires Beside(s, t, tmp) && OffTemp(d, t.disk, tmp)
    ensures Beside(s, Changed(t, d), tmp)
  {
    forall p | p != tmp ensures Agree(d, s.disk, p) { assert Agree(d, t.disk, p) && Agree(t.disk, s.disk, p); }
  }

  lemma NewFileIsBeside(s: State, tmp: Path, data: seq<Byte>, mode: Bits, umask: Bits, f: Faults)
    ensures var w := OnWriteNew(s, tmp, data, mode, umask, f);
            && Beside(s, w.state, tmp)
            && (w.ok <==> tmp !in s.disk && !f.create && f.write.Wrote? && !f.chmod && !f.sync && !f.close)
            && (w.ok ==> w.state.disk[tmp] == File(Written(data, f.write), mode))
            && (tmp in w.state.disk <==> tmp in s.disk || !f.create)
  {
    var c := OnCreate(s, tmp, mode, umask, f);
    if c.ok {
      BesideNext(s, s, c.state.disk, tmp);
      var w := OnWrite(c.state, tmp, data, f);
      if w.ok {
        BesideNext(s, c.state, w.state.disk, tmp);
        var m := OnChmod(w.state, tmp, mode, f);
        if m.ok { BesideNext(s, w.state, m.state.disk, tmp); }
      }
    }
  }

  /** A replacement does all or nothing to its path, at every point where it may be
      stopped; it touches no other path but the temp file's; and the temp file is left
      behind only when removing it failed. */
  lemma ReplaceIsAtomic(s: State, path: Path, tmp: Path, data: seq<Byte>, mode: Bits, umask: Bits, f: Faults)
    requires tmp != path
    ensures var r := OnReplaceVia(s, path, tmp, data, mode, umask, f);
            && r.ok == Succeeds(s, tmp, f)
            && s.trace <= r.state.trace
            && (if r.ok then Holds(r.state.disk, path, File(Written(data, f.write), mode))
                else Agree(r.state.disk, s.disk, path))
            && (forall k :: |s.trace| <= k < |r.state.trace| ==>
                  Agree(r.state.trace[k], s.disk, path) || (r.ok && r.state.trace[k] == r.state.disk))
            && (forall k, p :: |s.trace| <= k < |r.state.trace| && p != path && p != tmp ==>
                  Agree(r.state.trace[k], s.disk, p))
            && (forall p :: p != path && p != tmp ==> Agree(r.state.disk, s.disk, p))
            && (tmp in r.state.disk <==> !r.ok && f.remove && (tmp in s.disk || !f.create))
  {
    NewFileIsBeside(s, tmp, data, mode, umask, f);
  }

  // ---------- the whole write ----------

  /** No two of the paths are the same. */
  lemma PathsDiffer(n: Names)
    requires ValidNames(n)
    ensures var bak := BackupOf(n.target); var t1, t2 := TempOf(bak, n.hex1), TempOf(n.target, n.hex2);
            && bak != n.target && t1 != t2
            && t1 != n.target && t1 != bak && t2 != n.target && t2 != bak
  {
  }

  function ModeFor(d: Disk, target: Path): Bits {
    if target in d then d[target].mode * PERMISSIONS else PRIVATE
  }

  /** What the target is to hold, as far as the write wrote it. */
  function NewFile(d: Disk, n: Names, after: seq<Byte>, f: AllFaults): File {
    File(Written(after, f.target.write), ModeFor(d, n.target))
  }

  function BackupFile(was: File, f: AllFaults): File {
    File(Written(was.data, f.backup.write), was.mode * PERMISSIONS)
  }

  /** What a crash may find: the target as it was or whole and new, and in the second
      case the backup holding what it was. */
  predicate Sound(d0: Disk, d: Disk, n: Names, after: seq<Byte>, f: AllFaults) {
    if Agree(d, d0, n.target) then true
    else
      && Holds(d, n.target, NewFile(d0, n, after, f))
      && (n.target in d0 ==> Holds(d, BackupOf(n.target), BackupFile(d0[n.target], f)))
  }

  /** Stopped after any step, the write leaves the target as it was or new; once a file
      that was there is replaced, the backup holds it; and a failure leaves the target as
      it was. */
  lemma {:induction false} WriteIsAtomic(d0: Disk, n: Names, after: seq<Byte>, umask: Bits, f: AllFaults)
    requires ValidNames(n)
    ensures var r := OnApply(State(d0, [d0]), n, after, umask, f);
            && (forall k :: 0 <= k < |r.state.trace| ==> Sound(d0, r.state.trace[k], n, after, f))
            && (if r.ok then
                  && Holds(r.state.disk, n.target, NewFile(d0, n, after, f))
                  && (n.target in d0 ==> Holds(r.state.disk, BackupOf(n.target), BackupFile(d0[n.target], f)))
                else Agree(r.state.disk, d0, n.target))
  {
    PathsDiffer(n);
    var s := State(d0, [d0]);
    if !f.setup && !f.stat {
      if n.target !in d0 {
        ReplaceIsAtomic(s, n.target, TempOf(n.target, n.hex2), after, PRIVATE, umask, f.target);
      } else if !f.read {
        BackedUp(d0, n, umask, f);
        var b := BackedUpState(d0, n, umask, f);
        if b.ok { ThenReplaced(d0, n, after, umask, f, b.state); }
      }
    }
  }

  function BackedUpState(d0: Disk, n: Names, umask: Bits, f: AllFaults): Step
    requires n.target in d0
  {
    OnReplaceVia(State(d0, [d0]), BackupOf(n.target), TempOf(BackupOf(n.target), n.hex1), d0[n.target].data,
                 d0[n.target].mode * PERMISSIONS, umask, f.backup)
  }

  /** Making the backup never touches the target. */
  lemma BackedUp(d0: Disk, n: Names, umask: Bits, f: AllFaults)
    requires ValidNames(n) && n.target in d0
    ensures var b := BackedUpState(d0, n, umask, f);
            && [d0] <= b.state.trace && Agree(b.state.disk, d0, n.target)
            && (forall k :: 0 <= k < |b.state.trace| ==> Agree(b.state.trace[k], d0, n.target))
            && (b.ok ==> Holds(b.state.disk, BackupOf(n.target), BackupFile(d0[n.target], f)))
  {
    PathsDiffer(n);
    ReplaceIsAtomic(State(d0, [d0]), BackupOf(n.target), TempOf(BackupOf(n.target), n.hex1), d0[n.target].data,
                    d0[n.target].mode * PERMISSIONS, umask, f.backup);
  }

  lemma ThenReplaced(d0: Disk, n: Names, after: seq<Byte>, umask: Bits, f: AllFaults, b: State)
    requires ValidNames(n) && n.target in d0 && Agree(b.disk, d0, n.target)
    requires Holds(b.disk, BackupOf(n.target), BackupFile(d0[n.target], f))
    requires forall k :: 0 <= k < |b.trace| ==> Agree(b.trace[k], d0, n.target)
    ensures var r := OnReplaceVia(b, n.target, TempOf(n.target, n.hex2), after, ModeFor(d0, n.target), umask, f.target);
            && (forall k :: 0 <= k < |r.state.trace| ==> Sound(d0, r.state.trace[k], n, after, f))
            && Sound(d0, r.state.disk, n, after, f)
            && (if r.ok then Holds(r.state.disk, n.target, NewFile(d0, n, after, f))
                else Agree(r.state.disk, d0, n.target))
            && Agree(r.state.disk, b.disk, BackupOf(n.target))
  {
    PathsDiffer(n);
    var r := OnReplaceVia(b, n.target, TempOf(n.target, n.hex2), after, ModeFor(d0, n.target), umask, f.target);
    ReplaceIsAtomic(b, n.target, TempOf(n.target, n.hex2), after, ModeFor(d0, n.target), umask, f.target);
    assert Agree(r.state.disk, b.disk, BackupOf(n.target));
    forall k | 0 <= k < |r.state.trace| ensures Sound(d0, r.state.trace[k], n, after, f) {
      if k < |b.trace| { assert r.state.trace[k] == b.trace[k]; }
    }
  }

  /** No path is touched but the target, its backup and the two temp files. */
  lemma {:induction false} OnlyNamedPathsChange(
    d0: Disk, n: Names, after: seq<Byte>, umask: Bits, f: AllFaults, p: Path)
    requires ValidNames(n) && !Named(n, p)
    ensures var r := OnApply(State(d0, [d0]), n, after, umask, f);
            forall k :: 0 <= k < |r.state.trace| ==> Agree(r.state.trace[k], d0, p)
  {
    PathsDiffer(n);
    var s := State(d0, [d0]);
    if !f.setup && !f.stat {
      if n.target !in d0 {
        ReplaceIsAtomic(s, n.target, TempOf(n.target, n.hex2), after, PRIVATE, umask, f.target);
      } else if !f.read {
        var bak, mode := BackupOf(n.target), d0[n.target].mode * PERMISSIONS;
        ReplaceIsAtomic(s, bak, TempOf(bak, n.hex1), d0[n.target].data, mode, umask, f.backup);
        var b := BackedUpState(d0, n, umask, f);
        if b.ok {
          ReplaceIsAtomic(b.state, n.target, TempOf(n.target, n.hex2), after, mode, umask, f.target);
          assert Agree(b.state.disk, d0, p);
        }
      }
    }
  }

  predicate Named(n: Names, p: Path) {
    var bak := BackupOf(n.target);
    p == n.target || p == bak || p == TempOf(bak, n.hex1) || p == TempOf(n.target, n.hex2)
  }

  /** When each write wrote everything it was given, the target and the backup are whole wherever the run is stopped. */
  lemma {:induction false} FullWritesAreWhole(d0: Disk, n: Names, after: seq<Byte>, umask: Bits, f: AllFaults)
    requires ValidNames(n)
    requires f.target.write.Wrote? ==> f.target.write.n >= |after|
    requires n.target in d0 && f.backup.write.Wrote? ==> f.backup.write.n >= |d0[n.target].data|
    ensures var r := OnApply(State(d0, [d0]), n, after, umask, f);
            forall k :: 0 <= k < |r.state.trace| && !Agree(r.state.trace[k], d0, n.target) ==>
              var d := r.state.trace[k];
              && Holds(d, n.target, File(after, ModeFor(d0, n.target)))
              && (n.target in d0 ==>
                    Holds(d, BackupOf(n.target), File(d0[n.target].data, d0[n.target].mode * PERMISSIONS)))
  {
    WriteIsAtomic(d0, n, after, umask, f);
    Reached(d0, n, after, umask, f);
  }

  /** The target differs from what it was only after both writes came back. */
  lemma Reached(d0: Disk, n: Names, after: seq<Byte>, umask: Bits, f: AllFaults)
    requires ValidNames(n)
    ensures var r := OnApply(State(d0, [d0]), n, after, umask, f);
            forall k :: 0 <= k < |r.state.trace| && !Agree(r.state.trace[k], d0, n.target) ==>
              f.target.write.Wrote? && (n.target in d0 ==> f.backup.write.Wrote?)
  {
    PathsDiffer(n);
    var bak := BackupOf(n.target);
    var t1, t2 := TempOf(bak, n.hex1), TempOf(n.target, n.hex2);
    var s := State(d0, [d0]);
    if !f.setup && !f.stat {
      if n.target !in d0 {
        ReplaceIsAtomic(s, n.target, t2, after, PRIVATE, umask, f.target);
      } else if !f.read {
        var mode := d0[n.target].mode * PERMISSIONS;
        ReplaceIsAtomic(s, bak, t1, d0[n.target].data, mode, umask, f.backup);
        var b := OnReplaceVia(s, bak, t1, d0[n.target].data, mode, umask, f.backup);
        if b.ok {
          ReplaceIsAtomic(b.state, n.target, t2, after, mode, umask, f.target);
        }
      }
    }
  }

  /** A run that reports success has written the config if and only if the one write of
      the target took every byte, and has kept the old contents if and only if the one
      write of the backup did. */
  lemma {:induction false} SuccessIsWholeExactly(d0: Disk, n: Names, after: seq<Byte>, umask: Bits, f: AllFaults)
    requires ValidNames(n) && OnApply(State(d0, [d0]), n, after, umask, f).ok
    ensures var d, bak := OnApply(State(d0, [d0]), n, after, umask, f).state.disk, BackupOf(n.target);
            && f.target.write.Wrote? && n.target in d
            && (d[n.target].data == after <==> f.target.write.n >= |after|)
            && (n.target in d0 ==>
                  && f.backup.write.Wrote? && bak in d
                  && (d[bak].data == d0[n.target].data <==> f.backup.write.n >= |d0[n.target].data|))
  {
    WriteIsAtomic(d0, n, after, umask, f);
    PathsDiffer(n);
    if n.target in d0 { BackupWasWritten(d0, n, after, umask, f); }
  }

  lemma BackupWasWritten(d0: Disk, n: Names, after: seq<Byte>, umask: Bits, f: AllFaults)
    requires ValidNames(n) && OnApply(State(d0, [d0]), n, after, umask, f).ok && n.target in d0
    ensures f.backup.write.Wrote? && f.target.write.Wrote?
  {
    PathsDiffer(n);
    var bak := BackupOf(n.target);
    ReplaceIsAtomic(State(d0, [d0]), bak, TempOf(bak, n.hex1), d0[n.target].data, d0[n.target].mode * PERMISSIONS,
                    umask, f.backup);
  }

  const NO_FAULTS := Faults(false, Wrote(1000), false, false, false, false, false)

  function ExampleNames(): Names { Names(Path("d", "c"), "000000000000", "111111111111") }

  /** A short write goes unnoticed: a run reports success and leaves the target cut. */
  lemma {:induction false} ShortWriteIsNotNoticed()
    ensures var n, f := ExampleNames(), AllFaults(false, false, false, NO_FAULTS, NO_FAULTS.(write := Wrote(1)));
            var r := OnApply(State(map[], [map[]]), n, [123, 125], {}, f);
            r.ok && n.target in r.state.disk && r.state.disk[n.target].data == [123]
  {
  }

  /** And so does a short write of the backup, which loses what was there: a run reports
      success, replaces the target whole, and leaves one byte of the old three. */
  lemma {:induction false} ShortBackupIsNotNoticed()
    ensures var n, f := ExampleNames(), AllFaults(false, false, false, NO_FAULTS.(write := Wrote(1)), NO_FAULTS);
            var d0: Disk := map[n.target := File([1, 2, 3], PRIVATE)];
            var r := OnApply(State(d0, [d0]), n, [4, 5], {}, f);
            && r.ok && n.target in r.state.disk && r.state.disk[n.target].data == [4, 5]
            && BackupOf(n.target) in r.state.disk && r.state.disk[BackupOf(n.target)].data == [1]
  {
    var n, f := ExampleNames(), AllFaults(false, false, false, NO_FAULTS.(write := Wrote(1)), NO_FAULTS);
    var d0: Disk := map[n.target := File([1, 2, 3], PRIVATE)];
    PathsDiffer(n);
    ReplaceIsAtomic(State(d0, [d0]), BackupOf(n.target), TempOf(BackupOf(n.target), n.hex1), [1, 2, 3],
                    PRIVATE * PERMISSIONS, {}, f.backup);
    var b := BackedUpState(d0, n, {}, f);
    ReplaceIsAtomic(b.state, n.target, TempOf(n.target, n.hex2), [4, 5], PRIVATE * PERMISSIONS, {}, f.target);
    WriteIsAtomic(d0, n, [4, 5], {}, f);
  }

  /** A file that has the name of the temp file is not written over, but the clean-up
      removes it, whosever it is. */
  lemma {:induction false} CollidingFileIsRemoved(d0: Disk, n: Names, after: seq<Byte>, umask: Bits, f: AllFaults)
    requires ValidNames(n) && n.target !in d0 && TempOf(n.target, n.hex2) in d0
    requires !f.setup && !f.stat && !f.target.remove
    ensures var r := OnApply(State(d0, [d0]), n, after, umask, f);
            !r.ok && r.state.disk == d0 - {TempOf(n.target, n.hex2)}
  {
  }

  /** However the write ends, no temp file of its own is left unless removing it failed,
      and a run that fails has left the disk as it was but for the backup. */
  lemma {:induction false} NothingIsLeftBehind(d0: Disk, n: Names, after: seq<Byte>, umask: Bits, f: AllFaults)
    requires ValidNames(n) && !f.backup.remove && !f.target.remove
    requires TempOf(BackupOf(n.target), n.hex1) !in d0 && TempOf(n.target, n.hex2) !in d0
    ensures var r := OnApply(State(d0, [d0]), n, after, umask, f);
            && (forall p :: p != n.target && p != BackupOf(n.target) ==> Agree(r.state.disk, d0, p))
            && (!r.ok ==> forall p :: p != BackupOf(n.target) ==> Agree(r.state.disk, d0, p))
  {
    PathsDiffer(n);
    var bak := BackupOf(n.target);
    var t1, t2 := TempOf(bak, n.hex1), TempOf(n.target, n.hex2);
    var s := State(d0, [d0]);
    if !f.setup && !f.stat {
      if n.target !in d0 {
        ReplaceIsAtomic(s, n.target, t2, after, PRIVATE, umask, f.target);
      } else if !f.read {
        var mode := d0[n.target].mode * PERMISSIONS;
        ReplaceIsAtomic(s, bak, t1, d0[n.target].data, mode, umask, f.backup);
        var b := OnReplaceVia(s, bak, t1, d0[n.target].data, mode, umask, f.backup);
        if b.ok { ReplaceIsAtomic(b.state, n.target, t2, after, mode, umask, f.target); }
      }
    }
  }
}

/** The picture size from a JPEG header, read within bounds: segments are skipped by
    their lengths up to the first start of frame. (src/helper/operator-view.ts; sections
    B.1.1.3 and B.2.2 of ITU-T T.81) */
module JpegHeader {
  import opened Json

  type Byte = b: int | 0 <= b < 256

  datatype Size = Size(width: nat, height: nat)

  /** A start of frame: SOF0 to SOF15 but for DHT, JPG and DAC. */
  predicate FrameMarker(m: Byte) { 0xc0 <= m <= 0xcf && m != 0xc4 && m != 0xc8 && m != 0xcc }

  /** Two bytes, the high one first. */
  function Word(head: seq<Byte>, i: nat): nat
    requires i + 1 < |head|
  {
    (head[i] as int) * 256 + head[i + 1] as int
  }

  function SizeAt(head: seq<Byte>, i: nat): Option<Size>
    decreases |head| - i
  {
    if i + 9 >= |head| || head[i] != 0xff then None
    else
      var marker := head[i + 1];
      if marker == 0xff then SizeAt(head, i + 1)
      else if FrameMarker(marker) then Some(Size(Word(head, i + 7), Word(head, i + 5)))
      else SizeAt(head, i + 2 + Word(head, i + 2))
  }

  function SizeOf(head: seq<Byte>): Option<Size> {
    if |head| < 4 || head[0] != 0xff || head[1] != 0xd8 then None else SizeAt(head, 2)
  }

  method JpegSize(head: seq<Byte>) returns (size: Option<Size>)
    ensures size == SizeOf(head)
  {
    size := None;
    if |head| >= 4 && head[0] == 0xff && head[1] == 0xd8 {
      var i, found := 2, false;
      while i + 9 < |head| && !found && head[i] == 0xff
        invariant 2 <= i
        invariant found ==> size == SizeAt(head, 2)
        invariant !found ==> size == None && SizeAt(head, i) == SizeAt(head, 2)
        decreases |head| - i, !found
      {
        var marker := head[i + 1];
        if marker == 0xff {
          i := i + 1;
        } else if FrameMarker(marker) {
          size := Some(Size(Word(head, i + 7), Word(head, i + 5)));
          found := true;
        } else {
          i := i + 2 + Word(head, i + 2);
        }
      }
    }
  }

  // ---------- headers as they are written ----------

  /** A segment before the frame: fill bytes, a marker, and a payload whose length is
      written with it. */
  datatype Segment = Segment(fill: nat, marker: Byte, payload: seq<Byte>)

  predicate ValidSegment(s: Segment) {
    s.marker != 0xff && !FrameMarker(s.marker) && |s.payload| + 2 < 0x1_0000
  }

  function Fill(n: nat): seq<Byte> { seq(n, _ => 0xff) }

  function TwoBytes(n: nat): seq<Byte>
    requires n < 0x1_0000
  {
    [n / 256, n % 256]
  }

  function Written(s: Segment): seq<Byte>
    requires ValidSegment(s)
  {
    Fill(s.fill) + [0xff, s.marker] + TwoBytes(|s.payload| + 2) + s.payload
  }

  predicate AllValid(ss: seq<Segment>) { forall k :: 0 <= k < |ss| ==> ValidSegment(ss[k]) }

  function WrittenAll(ss: seq<Segment>): seq<Byte>
    requires AllValid(ss)
  {
    if ss == [] then [] else Written(ss[0]) + WrittenAll(ss[1..])
  }

  /** The frame's own header: fill bytes, marker, length, precision, height, width. */
  datatype Frame = Frame(fill: nat, marker: Byte, length: nat, precision: Byte, size: Size)

  predicate ValidFrame(f: Frame) {
    FrameMarker(f.marker) && f.length < 0x1_0000 && f.size.width < 0x1_0000 && f.size.height < 0x1_0000
  }

  function FrameBody(f: Frame): seq<Byte>
    requires ValidFrame(f)
  {
    [0xff, f.marker] + TwoBytes(f.length) + [f.precision] + TwoBytes(f.size.height) + TwoBytes(f.size.width)
  }

  function WrittenFrame(f: Frame): seq<Byte>
    requires ValidFrame(f)
  {
    Fill(f.fill) + FrameBody(f)
  }

  /** From `i` on the header reads `t`. */
  predicate At(head: seq<Byte>, i: nat, t: seq<Byte>) { i <= |head| && t <= head[i..] }

  lemma AtParts(head: seq<Byte>, i: nat, a: seq<Byte>, b: seq<Byte>)
    requires At(head, i, a + b)
    ensures At(head, i, a) && At(head, i + |a|, b)
  {
    assert head[i..][..|a|] == (a + b)[..|a|];
    assert head[i + |a|..] == head[i..][|a|..] && b == (a + b)[|a|..];
  }

  lemma AtByte(head: seq<Byte>, i: nat, t: seq<Byte>, k: nat)
    requires At(head, i, t) && k < |t|
    ensures i + k < |head| && head[i + k] == t[k]
  {
    assert head[i..][k] == t[k];
  }

  /** Fill bytes are stepped over one by one. */
  lemma {:induction false} FillIsSkipped(head: seq<Byte>, i: nat, n: nat)
    requires At(head, i, Fill(n)) && i + n + 9 < |head| && head[i + n] == 0xff
    ensures SizeAt(head, i) == SizeAt(head, i + n)
    decreases n
  {
    if n > 0 {
      AtByte(head, i, Fill(n), 0);
      if n > 1 { AtByte(head, i, Fill(n), 1); }
      assert Fill(n) == Fill(1) + Fill(n - 1);
      AtParts(head, i, Fill(1), Fill(n - 1));
      FillIsSkipped(head, i + 1, n - 1);
    }
  }

  lemma SegmentParts(head: seq<Byte>, i: nat, s: Segment)
    requires ValidSegment(s) && At(head, i, Written(s))
    ensures At(head, i, Fill(s.fill)) && At(head, i + s.fill, [0xff, s.marker])
    ensures At(head, i + s.fill + 2, TwoBytes(|s.payload| + 2))
  {
    var mark, length := [0xff, s.marker], TwoBytes(|s.payload| + 2);
    assert Written(s) == Fill(s.fill) + (mark + (length + s.payload));
    AtParts(head, i, Fill(s.fill), mark + (length + s.payload));
    AtParts(head, i + s.fill, mark, length + s.payload);
    AtParts(head, i + s.fill + 2, length, s.payload);
  }

  lemma SegmentIsSkipped(head: seq<Byte>, i: nat, s: Segment)
    requires ValidSegment(s) && At(head, i, Written(s)) && i + |Written(s)| + 9 <= |head|
    ensures SizeAt(head, i) == SizeAt(head, i + |Written(s)|)
  {
    var j := i + s.fill;
    SegmentParts(head, i, s);
    AtByte(head, j, [0xff, s.marker], 0);
    AtByte(head, j, [0xff, s.marker], 1);
    AtByte(head, j + 2, TwoBytes(|s.payload| + 2), 0);
    AtByte(head, j + 2, TwoBytes(|s.payload| + 2), 1);
    FillIsSkipped(head, i, s.fill);
    assert Word(head, j + 2) == |s.payload| + 2;
  }

  lemma FrameIsRead(head: seq<Byte>, i: nat, f: Frame)
    requires ValidFrame(f) && At(head, i, WrittenFrame(f))
    ensures SizeAt(head, i) == if i + |WrittenFrame(f)| < |head| then Some(f.size) else None
  {
    var body := FrameBody(f);
    AtParts(head, i, Fill(f.fill), body);
    var j := i + f.fill;
    forall k | 0 <= k < 9 ensures j + k < |head| && head[j + k] == body[k] { AtByte(head, j, body, k); }
    if j + 9 < |head| {
      FillIsSkipped(head, i, f.fill);
      assert Word(head, j + 5) == f.size.height && Word(head, j + 7) == f.size.width;
    } else {
      FillRunsOut(head, i, f.fill);
    }
  }

  lemma {:induction false} FillRunsOut(head: seq<Byte>, i: nat, n: nat)
    requires At(head, i, Fill(n)) && i + n + 9 == |head| && head[i + n] == 0xff
    ensures SizeAt(head, i) == None
    decreases n
  {
    if n > 0 {
      AtByte(head, i, Fill(n), 0);
      if n > 1 { AtByte(head, i, Fill(n), 1); }
      assert Fill(n) == Fill(1) + Fill(n - 1);
      AtParts(head, i, Fill(1), Fill(n - 1));
      FillRunsOut(head, i + 1, n - 1);
    }
  }

  lemma {:induction false} SegmentsAreSkipped(head: seq<Byte>, i: nat, ss: seq<Segment>, f: Frame)
    requires AllValid(ss) && ValidFrame(f)
    requires At(head, i, WrittenAll(ss) + WrittenFrame(f))
    ensures SizeAt(head, i) ==
            if i + |WrittenAll(ss)| + |WrittenFrame(f)| < |head| then Some(f.size) else None
    decreases |ss|
  {
    if ss == [] {
      assert WrittenAll(ss) + WrittenFrame(f) == WrittenFrame(f);
      FrameIsRead(head, i, f);
    } else {
      var first, tail := Written(ss[0]), WrittenAll(ss[1..]) + WrittenFrame(f);
      assert WrittenAll(ss) + WrittenFrame(f) == first + tail;
      AtParts(head, i, first, tail);
      assert |tail| >= |WrittenFrame(f)| >= 9;
      SegmentIsSkipped(head, i, ss[0]);
      SegmentsAreSkipped(head, i + |first|, ss[1..], f);
    }
  }

  /** A header of any segments and then a frame gives back the size that was written,
      whatever follows it; it gives none exactly when nothing does. */
  lemma SizeComesBack(ss: seq<Segment>, f: Frame, rest: seq<Byte>)
    requires AllValid(ss) && ValidFrame(f)
    ensures SizeOf([0xff, 0xd8] + WrittenAll(ss) + WrittenFrame(f) + rest) == if rest != [] then Some(f.size) else None
  {
    var head := [0xff, 0xd8] + WrittenAll(ss) + WrittenFrame(f) + rest;
    assert head[2..] == (WrittenAll(ss) + WrittenFrame(f)) + rest;
    SegmentsAreSkipped(head, 2, ss, f);
  }
}

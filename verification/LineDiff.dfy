/** The line diff shown before the user's config is written: a longest common
    subsequence table, a greedy walk over it, and a trim to two rows of context.
    (src/cli/init-user-config.ts) */
module LineDiff {
  import opened Collections

  type Line = string

  datatype Tag = Same | Plus | Minus

  datatype Row = Row(tag: Tag, text: Line)

  datatype Item = Shown(row: Row) | Gap

  const CONTEXT := 2

  // ---------- text and lines ----------

  /** `String.split("\n")`. */
  function Split(s: string): (ls: seq<Line>)
    ensures ls != []
  {
    if s == [] then [""]
    else if s[0] == '\n' then [""] + Split(s[1..])
    else var rest := Split(s[1..]); [[s[0]] + rest[0]] + rest[1..]
  }

  function Join(ls: seq<Line>): string {
    if ls == [] then "" else if |ls| == 1 then ls[0] else ls[0] + "\n" + Join(ls[1..])
  }

  /** One newline at the very end does not count. */
  function Chop(s: string): string {
    if s != [] && s[|s| - 1] == '\n' then s[..|s| - 1] else s
  }

  function LinesBefore(before: string): seq<Line> { if before == "" then [] else Split(Chop(before)) }

  function LinesAfter(after: string): (ls: seq<Line>)
    ensures ls != []
  {
    Split(Chop(after))
  }

  // ---------- the table ----------

  function Max(x: nat, y: nat): nat { if x >= y then x else y }

  function Lcs(a: seq<Line>, b: seq<Line>): nat
    decreases |a| + |b|
  {
    if a == [] || b == [] then 0
    else if a[0] == b[0] then 1 + Lcs(a[1..], b[1..])
    else Max(Lcs(a[1..], b), Lcs(a, b[1..]))
  }

  /** What the table is to hold at a cell. */
  function Cell(a: seq<Line>, b: seq<Line>, i: nat, j: nat): nat
    requires i <= |a| && j <= |b|
  {
    Lcs(a[i..], b[j..])
  }

  lemma CellStep(a: seq<Line>, b: seq<Line>, i: nat, j: nat)
    requires i < |a| && j < |b|
    ensures Cell(a, b, i, j) == if a[i] == b[j] then Cell(a, b, i + 1, j + 1) + 1
                                else Max(Cell(a, b, i + 1, j), Cell(a, b, i, j + 1))
  {
    assert a[i..][1..] == a[i + 1..] && b[j..][1..] == b[j + 1..];
  }

  /** One row, given those below it. */
  method FillRow(a: seq<Line>, b: seq<Line>, lcs: array2<nat>, i: nat)
    requires lcs.Length0 == |a| + 1 && lcs.Length1 == |b| + 1 && i < |a|
    requires forall x, y :: i < x <= |a| && 0 <= y <= |b| ==> lcs[x, y] == Cell(a, b, x, y)
    requires lcs[i, |b|] == 0
    modifies lcs
    ensures forall y :: 0 <= y <= |b| ==> lcs[i, y] == Cell(a, b, i, y)
    ensures forall x, y :: 0 <= x <= |a| && 0 <= y <= |b| && x != i ==> lcs[x, y] == old(lcs[x, y])
  {
    assert Cell(a, b, i, |b|) == 0;
    for j := |b| downto 0
      invariant forall y :: j <= y <= |b| ==> lcs[i, y] == Cell(a, b, i, y)
      invariant forall x, y :: 0 <= x <= |a| && 0 <= y <= |b| && x != i ==> lcs[x, y] == old(lcs[x, y])
    {
      CellStep(a, b, i, j);
      lcs[i, j] := if a[i] == b[j] then lcs[i + 1, j + 1] + 1 else Max(lcs[i + 1, j], lcs[i, j + 1]);
    }
  }

  /** The table, filled from the end. */
  method FillTable(a: seq<Line>, b: seq<Line>) returns (lcs: array2<nat>)
    ensures lcs.Length0 == |a| + 1 && lcs.Length1 == |b| + 1 && fresh(lcs)
    ensures forall i, j :: 0 <= i <= |a| && 0 <= j <= |b| ==> lcs[i, j] == Cell(a, b, i, j)
  {
    lcs := new nat[|a| + 1, |b| + 1]((_, _) => 0);
    for i := |a| downto 0
      invariant forall x :: 0 <= x <= |a| ==> lcs[x, |b|] == 0
      invariant forall x, y :: i <= x <= |a| && 0 <= y <= |b| ==> lcs[x, y] == Cell(a, b, x, y)
    {
      FillRow(a, b, lcs, i);
    }
  }

  // ---------- the walk ----------

  function Walk(a: seq<Line>, b: seq<Line>): seq<Row>
    decreases |a| + |b|
  {
    if a == [] && b == [] then []
    else if a != [] && b != [] && a[0] == b[0] then [Row(Same, a[0])] + Walk(a[1..], b[1..])
    else if b != [] && (a == [] || Lcs(a, b[1..]) >= Lcs(a[1..], b)) then [Row(Plus, b[0])] + Walk(a, b[1..])
    else [Row(Minus, a[0])] + Walk(a[1..], b)
  }

  lemma WalkStep(a: seq<Line>, b: seq<Line>, i: nat, j: nat)
    requires i <= |a| && j <= |b| && (i < |a| || j < |b|)
    ensures Walk(a[i..], b[j..]) ==
            if i < |a| && j < |b| && a[i] == b[j] then [Row(Same, a[i])] + Walk(a[i + 1..], b[j + 1..])
            else if j < |b| && (i == |a| || Cell(a, b, i, j + 1) >= Cell(a, b, i + 1, j))
            then [Row(Plus, b[j])] + Walk(a[i..], b[j + 1..])
            else [Row(Minus, a[i])] + Walk(a[i + 1..], b[j..])
  {
    if i < |a| { assert a[i..][1..] == a[i + 1..]; }
    if j < |b| { assert b[j..][1..] == b[j + 1..]; }
  }

  method WalkTable(a: seq<Line>, b: seq<Line>, lcs: array2<nat>) returns (rows: seq<Row>)
    requires lcs.Length0 == |a| + 1 && lcs.Length1 == |b| + 1
    requires forall i, j :: 0 <= i <= |a| && 0 <= j <= |b| ==> lcs[i, j] == Cell(a, b, i, j)
    ensures rows == Walk(a, b)
  {
    rows := [];
    var i, j := 0, 0;
    assert a[0..] == a && b[0..] == b;
    while i < |a| || j < |b|
      invariant 0 <= i <= |a| && 0 <= j <= |b|
      invariant rows + Walk(a[i..], b[j..]) == Walk(a, b)
      decreases |a| - i + |b| - j
    {
      WalkStep(a, b, i, j);
      ghost var done, todo := rows, Walk(a[i..], b[j..]);
      assert done + todo == Walk(a, b);
      if i < |a| && j < |b| && a[i] == b[j] {
        rows := rows + [Row(Same, a[i])];
        i, j := i + 1, j + 1;
      } else if j < |b| && (i == |a| || lcs[i, j + 1] >= lcs[i + 1, j]) {
        rows := rows + [Row(Plus, b[j])];
        j := j + 1;
      } else {
        rows := rows + [Row(Minus, a[i])];
        i := i + 1;
      }
      Regroup(done, rows[|done|..], Walk(a[i..], b[j..]));
      assert done + rows[|done|..] == rows;
    }
  }

  // ---------- what a script means ----------

  /** The text the rows start from: all but the added ones. */
  function Before(rows: seq<Row>): seq<Line> {
    if rows == [] then []
    else (if rows[0].tag == Plus then [] else [rows[0].text]) + Before(rows[1..])
  }

  /** The text the rows lead to: all but the removed ones. */
  function After(rows: seq<Row>): seq<Line> {
    if rows == [] then []
    else (if rows[0].tag == Minus then [] else [rows[0].text]) + After(rows[1..])
  }

  function Unchanged(rows: seq<Row>): nat {
    if rows == [] then 0 else (if rows[0].tag == Same then 1 else 0) + Unchanged(rows[1..])
  }

  /** Pairs of equal lines that rise in both texts: a common subsequence. */
  predicate Common(a: seq<Line>, b: seq<Line>, m: seq<(nat, nat)>) {
    && (forall k :: 0 <= k < |m| ==> m[k].0 < |a| && m[k].1 < |b| && a[m[k].0] == b[m[k].1])
    && (forall k, l :: 0 <= k < l < |m| ==> m[k].0 < m[l].0 && m[k].1 < m[l].1)
  }

  function Back(m: seq<(nat, nat)>, x: nat, y: nat): seq<(nat, nat)>
    requires forall k :: 0 <= k < |m| ==> x <= m[k].0 && y <= m[k].1
  {
    seq(|m|, k requires 0 <= k < |m| => (m[k].0 - x, m[k].1 - y))
  }

  function Forth(m: seq<(nat, nat)>, x: nat, y: nat): seq<(nat, nat)> {
    seq(|m|, k requires 0 <= k < |m| => (m[k].0 + x, m[k].1 + y))
  }

  lemma ForthKeeps(a: seq<Line>, b: seq<Line>, m: seq<(nat, nat)>, x: nat, y: nat)
    requires x <= |a| && y <= |b| && Common(a[x..], b[y..], m)
    ensures Common(a, b, Forth(m, x, y))
  {
  }

  lemma BackKeeps(a: seq<Line>, b: seq<Line>, m: seq<(nat, nat)>, x: nat, y: nat)
    requires x <= |a| && y <= |b| && Common(a, b, m)
    requires forall k :: 0 <= k < |m| ==> x <= m[k].0 && y <= m[k].1
    ensures Common(a[x..], b[y..], Back(m, x, y))
  {
  }

  lemma {:induction false} NoCommonIsLonger(a: seq<Line>, b: seq<Line>, m: seq<(nat, nat)>)
    requires Common(a, b, m)
    ensures |m| <= Lcs(a, b)
    decreases |a| + |b|
  {
    if m == [] {
    } else if a[m[0].0] == b[m[0].1] && a[0] == b[0] {
      BackKeeps(a, b, m[1..], 1, 1);
      NoCommonIsLonger(a[1..], b[1..], Back(m[1..], 1, 1));
    } else if m[0].0 > 0 {
      BackKeeps(a, b, m, 1, 0);
      NoCommonIsLonger(a[1..], b[0..], Back(m, 1, 0));
      assert b[0..] == b;
    } else {
      BackKeeps(a, b, m, 0, 1);
      NoCommonIsLonger(a[0..], b[1..], Back(m, 0, 1));
      assert a[0..] == a;
    }
  }

  lemma {:induction false} SomeCommonIsAsLong(a: seq<Line>, b: seq<Line>) returns (m: seq<(nat, nat)>)
    ensures Common(a, b, m) && |m| == Lcs(a, b)
    decreases |a| + |b|
  {
    if a == [] || b == [] {
      m := [];
    } else if a[0] == b[0] {
      var rest := SomeCommonIsAsLong(a[1..], b[1..]);
      ForthKeeps(a, b, rest, 1, 1);
      m := [(0, 0)] + Forth(rest, 1, 1);
    } else if Lcs(a[1..], b) >= Lcs(a, b[1..]) {
      assert b[0..] == b;
      var rest := SomeCommonIsAsLong(a[1..], b[0..]);
      ForthKeeps(a, b, rest, 1, 0);
      m := Forth(rest, 1, 0);
    } else {
      assert a[0..] == a;
      var rest := SomeCommonIsAsLong(a[0..], b[1..]);
      ForthKeeps(a, b, rest, 0, 1);
      m := Forth(rest, 0, 1);
    }
  }

  /** The table's corner is the length of a longest common subsequence. */
  lemma CornerIsTheLongest(a: seq<Line>, b: seq<Line>)
    ensures exists m :: Common(a, b, m) && |m| == Lcs(a, b)
    ensures forall m :: Common(a, b, m) ==> |m| <= Lcs(a, b)
  {
    var m := SomeCommonIsAsLong(a, b);
    forall m | Common(a, b, m) ensures |m| <= Lcs(a, b) { NoCommonIsLonger(a, b, m); }
  }

  lemma LongerTextsShareMore(a: seq<Line>, b: seq<Line>, x: nat, y: nat)
    requires x <= |a| && y <= |b|
    ensures Lcs(a[x..], b[y..]) <= Lcs(a, b)
  {
    var m := SomeCommonIsAsLong(a[x..], b[y..]);
    ForthKeeps(a, b, m, x, y);
    NoCommonIsLonger(a, b, Forth(m, x, y));
  }

  lemma {:induction false} NoScriptKeepsMore(rows: seq<Row>)
    ensures Unchanged(rows) <= Lcs(Before(rows), After(rows))
    ensures |Before(rows)| + |After(rows)| == |rows| + Unchanged(rows)
  {
    if rows != [] {
      NoScriptKeepsMore(rows[1..]);
      var a, b := Before(rows), After(rows);
      if rows[0].tag == Same {
        assert a[1..] == Before(rows[1..]) && b[1..] == After(rows[1..]);
      } else if rows[0].tag == Plus {
        assert a[0..] == Before(rows[1..]) && b[1..] == After(rows[1..]);
        LongerTextsShareMore(a, b, 0, 1);
      } else {
        assert a[1..] == Before(rows[1..]) && b[0..] == After(rows[1..]);
        LongerTextsShareMore(a, b, 1, 0);
      }
    }
  }

  lemma {:induction false} WalkIsAScript(a: seq<Line>, b: seq<Line>)
    ensures Before(Walk(a, b)) == a && After(Walk(a, b)) == b
    ensures Unchanged(Walk(a, b)) == Lcs(a, b)
    decreases |a| + |b|
  {
    var rows := Walk(a, b);
    if a == [] && b == [] {
    } else if a != [] && b != [] && a[0] == b[0] {
      WalkIsAScript(a[1..], b[1..]);
      assert rows[1..] == Walk(a[1..], b[1..]);
    } else if b != [] && (a == [] || Lcs(a, b[1..]) >= Lcs(a[1..], b)) {
      WalkIsAScript(a, b[1..]);
      assert rows[1..] == Walk(a, b[1..]);
    } else {
      WalkIsAScript(a[1..], b);
      assert rows[1..] == Walk(a[1..], b);
    }
  }

  /** The rows turn the one text into the other, and no rows that do keep more lines
      or change fewer. */
  lemma {:induction false} WalkIsMinimal(a: seq<Line>, b: seq<Line>, rows: seq<Row>)
    requires Before(rows) == a && After(rows) == b
    ensures Before(Walk(a, b)) == a && After(Walk(a, b)) == b
    ensures Unchanged(rows) <= Unchanged(Walk(a, b))
    ensures |Walk(a, b)| - Unchanged(Walk(a, b)) <= |rows| - Unchanged(rows)
  {
    WalkIsAScript(a, b);
    NoScriptKeepsMore(rows);
    NoScriptKeepsMore(Walk(a, b));
  }

  // ---------- trimming ----------

  predicate Changed(r: Row) { r.tag != Same }

  /** A changed row, or one within two rows of a changed one. */
  predicate Kept(rows: seq<Row>, k: nat)
    requires k < |rows|
  {
    Changed(rows[k]) || exists n :: 0 <= n < |rows| && k - CONTEXT <= n < k + CONTEXT + 1 && Changed(rows[n])
  }

  /** What is shown from row `k` on, when a row just before was left out or not. */
  function Trim(rows: seq<Row>, k: nat, gap: bool): seq<Item>
    requires k <= |rows|
    decreases |rows| - k
  {
    if k == |rows| then []
    else if !Kept(rows, k) then Trim(rows, k + 1, true)
    else (if gap then [Gap] else []) + [Shown(rows[k])] + Trim(rows, k + 1, false)
  }

  lemma TrimAt(rows: seq<Row>, k: nat, gap: bool, kept: bool, done: seq<Item>)
    requires k < |rows| && kept == Kept(rows, k)
    ensures done + Trim(rows, k, gap)
         == (if !kept then done else done + (if gap then [Gap] else []) + [Shown(rows[k])])
            + Trim(rows, k + 1, !kept)
  {
    if kept {
      var now := (if gap then [Gap] else []) + [Shown(rows[k])];
      Regroup(done, now, Trim(rows, k + 1, false));
      assert done + now == done + (if gap then [Gap] else []) + [Shown(rows[k])];
    }
  }

  /** Which rows are kept. */
  method KeptRows(rows: seq<Row>) returns (keep: seq<bool>)
    ensures |keep| == |rows| && forall k :: 0 <= k < |rows| ==> keep[k] == Kept(rows, k)
  {
    keep := seq(|rows|, k requires 0 <= k < |rows| => Kept(rows, k));
  }

  method TrimRows(rows: seq<Row>) returns (items: seq<Item>)
    ensures items == Trim(rows, 0, false)
  {
    var keep := KeptRows(rows);
    items := [];
    var gap := false;
    for k := 0 to |rows|
      invariant items + Trim(rows, k, gap) == Trim(rows, 0, false)
    {
      TrimAt(rows, k, gap, keep[k], items);
      if !keep[k] {
        gap := true;
      } else {
        if gap { items := items + [Gap]; }
        gap := false;
        items := items + [Shown(rows[k])];
      }
    }
  }

  /** How many items the rows before `k` take. */
  function Place(rows: seq<Row>, k: nat): nat
    requires k <= |rows|
  {
    if k == 0 then 0
    else Place(rows, k - 1) + (if !Kept(rows, k - 1) then 0 else if Cut(rows, k - 1) then 2 else 1)
  }

  /** The row just before was left out. */
  predicate Cut(rows: seq<Row>, k: nat)
    requires k < |rows|
  {
    k > 0 && !Kept(rows, k - 1)
  }

  /** The item that stands for a kept row, and the gap before it where one is due. */
  ghost predicate Placed(rows: seq<Row>, k: nat, items: seq<Item>)
    requires k < |rows|
  {
    var at := Place(rows, k);
    Kept(rows, k) ==>
      if Cut(rows, k) then at + 1 < |items| && items[at] == Gap && items[at + 1] == Shown(rows[k])
      else at < |items| && items[at] == Shown(rows[k])
  }

  ghost predicate AllPlaced(rows: seq<Row>, k: nat, items: seq<Item>)
    requires k <= |rows|
  {
    |items| == Place(rows, k) && forall n :: 0 <= n < k ==> Placed(rows, n, items)
  }

  /** What is shown for one row. */
  function ItemsOf(rows: seq<Row>, k: nat): seq<Item>
    requires k < |rows|
  {
    if !Kept(rows, k) then [] else (if Cut(rows, k) then [Gap] else []) + [Shown(rows[k])]
  }

  lemma PlacedNext(rows: seq<Row>, k: nat, done: seq<Item>)
    requires k < |rows| && AllPlaced(rows, k, done)
    ensures AllPlaced(rows, k + 1, done + ItemsOf(rows, k))
  {
    forall n | 0 <= n < k ensures Placed(rows, n, done + ItemsOf(rows, k)) { assert Placed(rows, n, done); }
  }

  lemma {:induction false} TrimFrom(rows: seq<Row>, k: nat, done: seq<Item>)
    requires k <= |rows| && AllPlaced(rows, k, done)
    ensures AllPlaced(rows, |rows|, done + Trim(rows, k, k > 0 && !Kept(rows, k - 1)))
    decreases |rows| - k
  {
    var rest := Trim(rows, k, k > 0 && !Kept(rows, k - 1));
    if k < |rows| {
      PlacedNext(rows, k, done);
      TrimFrom(rows, k + 1, done + ItemsOf(rows, k));
      var after := Trim(rows, k + 1, !Kept(rows, k));
      assert rest == ItemsOf(rows, k) + after;
      assert (done + ItemsOf(rows, k)) + after == done + (ItemsOf(rows, k) + after);
    } else {
      assert done + rest == done;
    }
  }

  /** The trimmed output shows every changed row, and of the others exactly those within
      two rows of one, in order, with one gap mark wherever rows are left out before a
      shown one and nothing else. */
  lemma TrimShowsExactly(rows: seq<Row>)
    ensures var items := Trim(rows, 0, false);
            AllPlaced(rows, |rows|, items)
    ensures forall k :: 0 <= k < |rows| && Changed(rows[k]) ==> Kept(rows, k)
  {
    TrimFrom(rows, 0, []);
    assert [] + Trim(rows, 0, false) == Trim(rows, 0, false);
  }

  // ---------- the whole ----------

  function Line1(before: string, path: string): Line { "--- " + if before == "" then "(new file)" else path }

  function Print(i: Item): Line {
    match i
    case Gap => "  ..."
    case Shown(r) => (match r.tag case Same => " " case Plus => "+" case Minus => "-") + " " + r.text
  }

  /** A gap and an unchanged row of three dots, in either order. */
  predicate LookAlike(i: Item, j: Item) {
    var dots := Shown(Row(Same, "..."));
    (i == Gap && j == dots) || (i == dots && j == Gap)
  }

  /** A printed line says which item it is: its first character is the change and the
      rest is the row's text. Only a gap and an unchanged row of three dots look alike. */
  lemma PrintTellsApart(i: Item, j: Item)
    ensures Print(i) == Print(j) <==> i == j || LookAlike(i, j)
    ensures i.Shown? ==> |Print(i)| >= 2 && Print(i)[2..] == i.row.text
                         && (Print(i)[0] == '+' <==> i.row.tag == Plus)
                         && (Print(i)[0] == '-' <==> i.row.tag == Minus)
  {
    assert Print(Gap)[2..] == "..." && Print(Gap)[0] == ' ';
    if i.Shown? { assert Print(i)[2..] == i.row.text; }
    if j.Shown? { assert Print(j)[2..] == j.row.text; }
    if LookAlike(i, j) { assert Print(Shown(Row(Same, "..."))) == Print(Gap); }
  }

  function Printed(items: seq<Item>): seq<Line> { seq(|items|, k requires 0 <= k < |items| => Print(items[k])) }

  method LineDiff(before: string, after: string, path: string) returns (out: string)
    ensures out == Join([Line1(before, path), "+++ " + path]
                        + Printed(Trim(Walk(LinesBefore(before), LinesAfter(after)), 0, false)))
  {
    var a, b := LinesBefore(before), LinesAfter(after);
    var lcs := FillTable(a, b);
    var rows := WalkTable(a, b, lcs);
    var items := TrimRows(rows);
    out := Join([Line1(before, path), "+++ " + path] + Printed(items));
  }

  lemma {:induction false} JoinSplit(s: string)
    ensures Join(Split(s)) == s
  {
    if s != [] {
      JoinSplit(s[1..]);
      var rest := Split(s[1..]);
      if s[0] == '\n' {
        assert ([""] + rest)[1..] == rest;
      } else if |rest| > 1 {
        assert ([[s[0]] + rest[0]] + rest[1..])[1..] == rest[1..];
      }
    }
  }

  lemma {:induction false} WalkOfEqual(a: seq<Line>)
    ensures forall r :: r in Walk(a, a) ==> !Changed(r)
  {
    if a != [] { WalkOfEqual(a[1..]); }
  }

  lemma {:induction false} OnlySame(rows: seq<Row>)
    requires forall r :: r in rows ==> !Changed(r)
    ensures Before(rows) == After(rows)
  {
    if rows != [] {
      assert !Changed(rows[0]);
      OnlySame(rows[1..]);
    }
  }

  /** The diff shows no change exactly when there was a file and the two texts agree up
      to one newline at the very end. */
  lemma SilentExactly(before: string, after: string)
    ensures (forall r :: r in Walk(LinesBefore(before), LinesAfter(after)) ==> !Changed(r))
            <==> before != "" && Chop(before) == Chop(after)
  {
    var a, b := LinesBefore(before), LinesAfter(after);
    WalkIsAScript(a, b);
    if forall r :: r in Walk(a, b) ==> !Changed(r) {
      OnlySame(Walk(a, b));
      JoinSplit(Chop(before));
      JoinSplit(Chop(after));
    } else if before != "" && Chop(before) == Chop(after) {
      WalkOfEqual(a);
    }
  }

  lemma {:induction false} WalkFromNothing(b: seq<Line>)
    ensures |Walk([], b)| == |b| && forall k :: 0 <= k < |b| ==> Walk([], b)[k] == Row(Plus, b[k])
  {
    if b != [] { WalkFromNothing(b[1..]); }
  }

  /** A new file is shown whole, as added. */
  lemma NewFileIsShownWhole(after: string)
    ensures var b, items := LinesAfter(after), Trim(Walk(LinesBefore(""), LinesAfter(after)), 0, false);
            |items| == |b| && forall k :: 0 <= k < |b| ==> items[k] == Shown(Row(Plus, b[k]))
  {
    var rows := Walk([], LinesAfter(after));
    WalkFromNothing(LinesAfter(after));
    AllKept(rows, |rows|);
    TrimShowsExactly(rows);
    forall k | 0 <= k < |rows| ensures Trim(rows, 0, false)[k] == Shown(rows[k]) {
      AllKept(rows, k);
      assert Placed(rows, k, Trim(rows, 0, false));
    }
  }

  lemma {:induction false} AllKept(rows: seq<Row>, k: nat)
    requires k <= |rows| && forall n :: 0 <= n < |rows| ==> Changed(rows[n])
    ensures Place(rows, k) == k
  {
    if k > 0 { AllKept(rows, k - 1); }
  }
}

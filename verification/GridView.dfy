// Clearing, moving, inserting and deleting whole lines.

module GridView {
  import opened GridCell
  import opened Grids

  // Unsigned 32-bit arithmetic, as the line counts are computed.
  const U32 := 0x1_0000_0000

  function Add32(a: nat, b: nat): (r: nat)
    ensures r < U32
    ensures a + b < U32 ==> r == a + b
    ensures U32 <= a + b < 2 * U32 ==> r == a + b - U32
  {
    WrapsOnce(a + b);
    (a + b) % U32
  }

  function Sub32(a: nat, b: nat): (r: nat)
    ensures r < U32
    ensures b <= a < U32 ==> r == a - b
    ensures a < b <= U32 ==> r == a + U32 - b
  {
    WrapsOnce(a - b);
    (a - b) % U32
  }

  lemma WrapsOnce(n: int)
    ensures 0 <= n < U32 ==> n % U32 == n
    ensures -U32 <= n < 0 ==> n % U32 == n + U32
    ensures U32 <= n < 2 * U32 ==> n % U32 == n - U32
  {
  }

  // ----- What the operations do to the lines -----

  // Lines up to the WRAPPED flag, which says how a line joins the next: the operations below keep
  // contents and at most clear flags.
  function Contents(lines: seq<Line>): (r: seq<Line>)
    ensures |r| == |lines|
    ensures forall i :: 0 <= i < |r| ==> r[i] == Unwrapped(lines[i])
  {
    seq(|lines|, i requires 0 <= i < |lines| => Unwrapped(lines[i]))
  }

  // Lines outside [first, last] are exactly as they were.
  ghost predicate SameOutside(a: seq<Line>, b: seq<Line>, first: int, last: int) {
    |a| == |b| && forall i :: 0 <= i < |a| && !(first <= i <= last) ==> a[i] == b[i]
  }

  // Which lines of a region, and the one above it, are wrapped once ny lines are inserted at py: those moved
  // down that were, but for two. The line above the region and the blank ones are not.
  ghost predicate WrapsAfterInsert(after: seq<Line>, lines: seq<Line>, lower: nat, py: nat, ny: nat) {
    |after| == |lines| && forall i :: 0 <= i < |lines| && py - 1 <= i <= lower ==>
      (after[i].wrapped <==> py + ny <= i && lines[i - ny].wrapped && i != py + 2 * ny - 1 && i != lower - ny)
  }

  // Once ny are deleted: those moved up that were, but for the last.
  ghost predicate WrapsAfterDelete(after: seq<Line>, lines: seq<Line>, lower: nat, py: nat, ny: nat) {
    |after| == |lines| && forall i :: 0 <= i < |lines| && py - 1 <= i <= lower ==>
      (after[i].wrapped <==> py <= i < lower - ny && i + ny < |lines| && lines[i + ny].wrapped)
  }

  function Blanks(n: nat, sx: nat, bg: Colour): seq<Line> {
    seq(n, _ => BlankLine(sx, bg))
  }

  // ny blank lines inserted at py, pushing as many off the end of the region that ends at lower.
  function Inserted(lines: seq<Line>, lower: nat, py: nat, ny: nat, sx: nat, bg: Colour): (r: seq<Line>)
    requires py + ny <= lower + 1 <= |lines|
    ensures |r| == |lines|
  {
    lines[..py] + Blanks(ny, sx, bg) + lines[py..lower + 1 - ny] + lines[lower + 1..]
  }

  // ny lines deleted at py, with as many blank lines brought in at the end of the region.
  function Deleted(lines: seq<Line>, lower: nat, py: nat, ny: nat, sx: nat, bg: Colour): (r: seq<Line>)
    requires py + ny <= lower + 1 <= |lines|
    ensures |r| == |lines|
  {
    lines[..py] + lines[py + ny..lower + 1] + Blanks(ny, sx, bg) + lines[lower + 1..]
  }

  lemma InsertedAt(lines: seq<Line>, lower: nat, py: nat, ny: nat, sx: nat, bg: Colour, i: nat)
    requires py + ny <= lower + 1 <= |lines| && i < |lines|
    ensures Inserted(lines, lower, py, ny, sx, bg)[i] ==
      if py <= i < py + ny then BlankLine(sx, bg) else if py + ny <= i <= lower then lines[i - ny] else lines[i]
  {
  }

  lemma DeletedAt(lines: seq<Line>, lower: nat, py: nat, ny: nat, sx: nat, bg: Colour, i: nat)
    requires py + ny <= lower + 1 <= |lines| && i < |lines|
    ensures Deleted(lines, lower, py, ny, sx, bg)[i] ==
      if py <= i <= lower - ny then lines[i + ny] else if lower - ny < i <= lower then BlankLine(sx, bg) else lines[i]
  {
  }

  // The lines from first to end blanked, and the line above no longer wrapped.
  function ClearedLines(lines: seq<Line>, first: nat, end: nat, sx: nat, bg: Colour): (r: seq<Line>)
    ensures |r| == |lines|
  {
    seq(|lines|, i requires 0 <= i < |lines| =>
      if first <= i < end then BlankLine(sx, bg) else if i == first - 1 then Unwrapped(lines[i]) else lines[i])
  }

  // The lines [py, py + ny) copied to dy and the originals left behind blanked. A flag is cleared above
  // the destination, before the copy is made, and above the source afterwards.
  function MovedLines(lines: seq<Line>, dy: nat, py: nat, ny: nat, sx: nat, bg: Colour): (r: seq<Line>)
    requires py + ny <= |lines| && dy + ny <= |lines|
    ensures |r| == |lines|
  {
    seq(|lines|, i requires 0 <= i < |lines| => MovedLine(lines, dy, py, ny, sx, bg, i))
  }

  // Line i has been moved away from and not moved onto.
  predicate Vacated(i: nat, dy: nat, py: nat, ny: nat) {
    py <= i < py + ny && !(dy <= i < dy + ny)
  }

  function MovedLine(lines: seq<Line>, dy: nat, py: nat, ny: nat, sx: nat, bg: Colour, i: nat): Line
    requires py + ny <= |lines| && dy + ny <= |lines| && i < |lines|
  {
    var from := if dy <= i < dy + ny then i - dy + py else i;
    var l := if from == i && py <= i < py + ny then BlankLine(sx, bg)
             else if from == dy - 1 then Unwrapped(lines[from]) else lines[from];
    if i == py - 1 && (py < dy || py >= dy + ny) then Unwrapped(l) else l
  }

  // ----- grid.c -----

  ghost predicate Small(gd: Grid)
    reads gd
  {
    gd.Valid() && gd.sx > 0 && |gd.linedata| < U32
  }

  // grid_clear_lines. Both line bounds are computed modulo 2^32.
  method ClearLines(gd: Grid, py: nat, ny: nat, bg: Colour)
    requires Small(gd) && py < U32 && ny < U32
    modifies gd`linedata
    ensures Small(gd)
    ensures gd.linedata ==
      if ny == 0 || py >= |old(gd.linedata)| || Sub32(Add32(py, ny), 1) >= |old(gd.linedata)| then old(gd.linedata)
      else ClearedLines(old(gd.linedata), py, Add32(py, ny), gd.sx, bg)
  {
    if ny == 0 || py >= gd.hsize + gd.sy || Sub32(Add32(py, ny), 1) >= gd.hsize + gd.sy {
      return;
    }
    ghost var lines := gd.linedata;
    var yy, end := py, Add32(py, ny);
    while yy < end
      invariant py <= yy && (if py <= end then yy <= end else yy == py)
      invariant |gd.linedata| == |lines|
      invariant forall i :: 0 <= i < |lines| ==> gd.linedata[i] == if py <= i < yy then BlankLine(gd.sx, bg) else lines[i]
      decreases end - yy
    {
      gd.linedata := gd.linedata[yy := BlankLine(gd.sx, bg)];
      yy := yy + 1;
    }
    if py != 0 {
      gd.linedata := gd.linedata[py - 1 := Unwrapped(gd.linedata[py - 1])];
    }
  }

  // The first loop of grid_move_lines: the lines about to be replaced are freed.
  method FreeReplaced(gd: Grid, dy: nat, py: nat, ny: nat)
    requires gd.Valid() && py + ny <= |gd.linedata| && dy + ny <= |gd.linedata|
    modifies gd`linedata
    ensures gd.Valid()
    ensures forall i :: 0 <= i < |gd.linedata| && !(dy <= i < dy + ny && !(py <= i < py + ny)) ==>
      gd.linedata[i] == old(gd.linedata)[i]
  {
    ghost var lines := gd.linedata;
    for yy := dy to dy + ny
      invariant |gd.linedata| == |lines|
      invariant forall i :: 0 <= i < |lines| && !(dy <= i < yy && !(py <= i < py + ny)) ==> gd.linedata[i] == lines[i]
    {
      if !(py <= yy < py + ny) {
        gd.linedata := gd.linedata[yy := EMPTY_LINE];
      }
    }
  }

  // The last loop of grid_move_lines: the lines moved away from are wiped.
  method WipeMoved(gd: Grid, dy: nat, py: nat, ny: nat, bg: Colour)
    requires gd.Valid() && py + ny <= |gd.linedata| && dy + ny <= |gd.linedata|
    modifies gd`linedata
    ensures gd.Valid()
    ensures forall i :: 0 <= i < |gd.linedata| ==>
      gd.linedata[i] == if Vacated(i, dy, py, ny) then BlankLine(gd.sx, bg) else old(gd.linedata)[i]
  {
    ghost var lines := gd.linedata;
    for yy := py to py + ny
      invariant |gd.linedata| == |lines|
      invariant forall i :: 0 <= i < |lines| ==>
        gd.linedata[i] == if i < yy && Vacated(i, dy, py, ny) then BlankLine(gd.sx, bg) else lines[i]
    {
      if yy < dy || yy >= dy + ny {
        gd.linedata := gd.linedata[yy := BlankLine(gd.sx, bg)];
      }
    }
  }

  // grid_move_lines
  method MoveLines(gd: Grid, dy: nat, py: nat, ny: nat, bg: Colour)
    requires Small(gd) && dy + ny < U32 && py + ny < U32
    modifies gd`linedata
    ensures Small(gd)
    ensures gd.linedata ==
      if ny == 0 || py == dy || py + ny > |old(gd.linedata)| || dy + ny > |old(gd.linedata)| then old(gd.linedata)
      else MovedLines(old(gd.linedata), dy, py, ny, gd.sx, bg)
  {
    hide BlankLine;
    if ny == 0 || py == dy || py + ny - 1 >= gd.hsize + gd.sy || dy + ny - 1 >= gd.hsize + gd.sy {
      return;
    }
    ghost var lines := gd.linedata;
    FreeReplaced(gd, dy, py, ny);
    if dy != 0 {
      gd.linedata := gd.linedata[dy - 1 := Unwrapped(gd.linedata[dy - 1])];
    }
    ghost var a := gd.linedata;
    gd.linedata := gd.linedata[..dy] + gd.linedata[py..py + ny] + gd.linedata[dy + ny..];
    ghost var b := gd.linedata;
    WipeMoved(gd, dy, py, ny, bg);
    ghost var c := gd.linedata;
    if py != 0 && (py < dy || py >= dy + ny) {
      gd.linedata := gd.linedata[py - 1 := Unwrapped(gd.linedata[py - 1])];
    }
    CopiedAt(a, b, dy, py, ny);
    MoveResult(lines, a, b, c, gd.linedata, dy, py, ny, gd.sx, bg);
  }

  lemma MoveResult(lines: seq<Line>, a: seq<Line>, b: seq<Line>, c: seq<Line>, after: seq<Line>,
                   dy: nat, py: nat, ny: nat, sx: nat, bg: Colour)
    requires |lines| == |a| == |c| && dy + ny <= |a| && py + ny <= |a| && dy != py
    requires forall i :: 0 <= i < |a| && !(dy <= i < dy + ny && !(py <= i < py + ny)) ==>
      a[i] == if i == dy - 1 then Unwrapped(lines[i]) else lines[i]
    requires |b| == |a| && forall i :: 0 <= i < |b| ==> b[i] == a[if dy <= i < dy + ny then i - dy + py else i]
    requires forall i :: 0 <= i < |c| ==> c[i] == if Vacated(i, dy, py, ny) then BlankLine(sx, bg) else b[i]
    requires after == if py != 0 && (py < dy || py >= dy + ny) then c[py - 1 := Unwrapped(c[py - 1])] else c
    ensures after == MovedLines(lines, dy, py, ny, sx, bg)
  {
    hide BlankLine;
    forall i | 0 <= i < |lines|
      ensures after[i] == MovedLine(lines, dy, py, ny, sx, bg, i)
    {
    }
  }

  lemma CopiedAt(a: seq<Line>, b: seq<Line>, dy: nat, py: nat, ny: nat)
    requires dy + ny <= |a| && py + ny <= |a| && b == a[..dy] + a[py..py + ny] + a[dy + ny..]
    ensures |b| == |a| && forall i :: 0 <= i < |b| ==> b[i] == a[if dy <= i < dy + ny then i - dy + py else i]
  {
  }

  // ----- grid-view.c -----

  // grid_view_insert_lines_region, for a region of the screen that ends at rlower. When ny is less than
  // half of the height below py, ny - ny2 wraps around, and the clear that follows must touch no cells.
  method InsertLinesRegion(gd: Grid, rlower0: nat, py0: nat, ny: nat, bg: Colour)
    requires Small(gd) && 0 < ny && py0 + ny <= rlower0 + 1 <= gd.sy
    modifies gd`linedata
    ensures Small(gd)
    ensures Contents(gd.linedata) ==
      Inserted(Contents(old(gd.linedata)), gd.hsize + rlower0, gd.hsize + py0, ny, gd.sx, bg)
    ensures SameOutside(gd.linedata, old(gd.linedata), gd.hsize + py0 - 1, gd.hsize + rlower0)
    ensures WrapsAfterInsert(gd.linedata, old(gd.linedata), gd.hsize + rlower0, gd.hsize + py0, ny)
  {
    hide BlankLine, Inserted, MovedLines, ClearedLines, WrapsAfterInsert;
    var rlower, py := gd.hsize + rlower0, gd.hsize + py0;
    var ny2 := Sub32(Sub32(rlower + 1, py), ny);
    ghost var lines := gd.linedata;
    MoveLines(gd, rlower + 1 - ny2, py, ny2, bg);
    ghost var moved := gd.linedata;
    ClearLines(gd, Add32(py, ny2), Sub32(ny, ny2), bg);
    InsertedResult(lines, moved, gd.linedata, rlower, py, ny, ny2, gd.sx, bg);
  }

  lemma InsertedResult(lines: seq<Line>, moved: seq<Line>, after: seq<Line>,
                       lower: nat, py: nat, ny: nat, ny2: nat, sx: nat, bg: Colour)
    requires py + ny + ny2 == lower + 1 <= |lines| && ny > 0
    requires moved == if ny2 == 0 then lines else MovedLines(lines, py + ny, py, ny2, sx, bg)
    requires after == if ny == ny2 then moved else ClearedLines(moved, py + ny2, py + ny, sx, bg)
    ensures Contents(after) == Inserted(Contents(lines), lower, py, ny, sx, bg)
    ensures SameOutside(after, lines, py - 1, lower)
    ensures WrapsAfterInsert(after, lines, lower, py, ny)
  {
    hide BlankLine, Inserted, WrapsAfterInsert;
    InsertedWraps(lines, moved, after, lower, py, ny, ny2, sx, bg);
    BlankUnwrapped(sx, bg);
    forall i | 0 <= i < |lines|
      ensures Unwrapped(after[i]) == Inserted(Contents(lines), lower, py, ny, sx, bg)[i]
    {
      InsertedAt(Contents(lines), lower, py, ny, sx, bg, i);
    }
  }

  lemma BlankUnwrapped(sx: nat, bg: Colour)
    ensures Unwrapped(BlankLine(sx, bg)) == BlankLine(sx, bg)
    ensures !BlankLine(sx, bg).wrapped
  {
  }

  lemma InsertedWraps(lines: seq<Line>, moved: seq<Line>, after: seq<Line>,
                      lower: nat, py: nat, ny: nat, ny2: nat, sx: nat, bg: Colour)
    requires py + ny + ny2 == lower + 1 <= |lines| && ny > 0
    requires moved == if ny2 == 0 then lines else MovedLines(lines, py + ny, py, ny2, sx, bg)
    requires after == if ny == ny2 then moved else ClearedLines(moved, py + ny2, py + ny, sx, bg)
    ensures WrapsAfterInsert(after, lines, lower, py, ny)
  {
    hide BlankLine;
    BlankUnwrapped(sx, bg);
  }

  lemma DeletedOutside(lines: seq<Line>, moved: seq<Line>, after: seq<Line>, lower: nat, py: nat, ny: nat, ny2: nat,
                       first: nat, end: nat, sx: nat, bg: Colour)
    requires py + ny + ny2 == lower + 1 <= |lines| && ny > 0
    requires moved == if ny2 == 0 then lines else MovedLines(lines, py, py + ny, ny2, sx, bg)
    requires after == if first == end then moved else ClearedLines(moved, first, end, sx, bg)
    requires (first == py + ny2 && end == py + ny) || (first == lower + 1 - ny && end == lower + 1)
    ensures SameOutside(after, lines, py - 1, lower)
  {
    hide BlankLine;
  }

  lemma DeletedWraps(lines: seq<Line>, moved: seq<Line>, after: seq<Line>, lower: nat, py: nat, ny: nat, ny2: nat,
                     first: nat, end: nat, sx: nat, bg: Colour)
    requires py + ny + ny2 == lower + 1 <= |lines| && ny > 0
    requires moved == if ny2 == 0 then lines else MovedLines(lines, py, py + ny, ny2, sx, bg)
    requires after == if first == end then moved else ClearedLines(moved, first, end, sx, bg)
    requires (first == py + ny2 && end == py + ny) || (first == lower + 1 - ny && end == lower + 1)
    ensures WrapsAfterDelete(after, lines, lower, py, ny)
  {
    hide BlankLine;
    BlankUnwrapped(sx, bg);
  }

  // grid_view_delete_lines_region
  method DeleteLinesRegion(gd: Grid, rlower0: nat, py0: nat, ny: nat, bg: Colour)
    requires Small(gd) && 0 < ny && py0 + ny <= rlower0 + 1 <= gd.sy
    modifies gd`linedata
    ensures Small(gd)
    ensures Contents(gd.linedata) ==
      Deleted(Contents(old(gd.linedata)), gd.hsize + rlower0, gd.hsize + py0, ny, gd.sx, bg)
    ensures SameOutside(gd.linedata, old(gd.linedata), gd.hsize + py0 - 1, gd.hsize + rlower0)
    ensures WrapsAfterDelete(gd.linedata, old(gd.linedata), gd.hsize + rlower0, gd.hsize + py0, ny)
  {
    hide BlankLine, Deleted, MovedLines, ClearedLines, WrapsAfterDelete;
    var rlower, py := gd.hsize + rlower0, gd.hsize + py0;
    var ny2 := Sub32(Sub32(rlower + 1, py), ny);
    ghost var lines := gd.linedata;
    MoveLines(gd, py, py + ny, ny2, bg);
    ghost var moved := gd.linedata;
    ClearLines(gd, Add32(py, ny2), Sub32(ny, ny2), bg);
    DeletedResult(lines, moved, gd.linedata, rlower, py, ny, ny2, py + ny2, py + ny, gd.sx, bg);
  }

  lemma DeletedResult(lines: seq<Line>, moved: seq<Line>, after: seq<Line>, lower: nat, py: nat, ny: nat, ny2: nat,
                      first: nat, end: nat, sx: nat, bg: Colour)
    requires py + ny + ny2 == lower + 1 <= |lines| && ny > 0
    requires moved == if ny2 == 0 then lines else MovedLines(lines, py, py + ny, ny2, sx, bg)
    requires after == if first == end then moved else ClearedLines(moved, first, end, sx, bg)
    requires (first == py + ny2 && end == py + ny) || (first == lower + 1 - ny && end == lower + 1)
    ensures Contents(after) == Deleted(Contents(lines), lower, py, ny, sx, bg)
    ensures SameOutside(after, lines, py - 1, lower)
    ensures WrapsAfterDelete(after, lines, lower, py, ny)
  {
    hide BlankLine, Deleted, WrapsAfterDelete, SameOutside;
    DeletedOutside(lines, moved, after, lower, py, ny, ny2, first, end, sx, bg);
    DeletedWraps(lines, moved, after, lower, py, ny, ny2, first, end, sx, bg);
    BlankUnwrapped(sx, bg);
    forall i | 0 <= i < |lines|
      ensures Unwrapped(after[i]) == Deleted(Contents(lines), lower, py, ny, sx, bg)[i]
    {
      DeletedAt(Contents(lines), lower, py, ny, sx, bg, i);
    }
  }

  // grid_view_delete_lines
  method DeleteLines(gd: Grid, py0: nat, ny: nat, bg: Colour)
    requires Small(gd) && 0 < ny && py0 + ny <= gd.sy
    modifies gd`linedata
    ensures Small(gd)
    ensures Contents(gd.linedata) ==
      Deleted(Contents(old(gd.linedata)), gd.hsize + gd.sy - 1, gd.hsize + py0, ny, gd.sx, bg)
    ensures SameOutside(gd.linedata, old(gd.linedata), gd.hsize + py0 - 1, gd.hsize + gd.sy - 1)
    ensures WrapsAfterDelete(gd.linedata, old(gd.linedata), gd.hsize + gd.sy - 1, gd.hsize + py0, ny)
  {
    hide BlankLine, Deleted, MovedLines, ClearedLines, WrapsAfterDelete;
    var py, sy := gd.hsize + py0, gd.hsize + gd.sy;
    var n := Sub32(Sub32(sy, py), ny);
    ghost var lines := gd.linedata;
    MoveLines(gd, py, py + ny, n, bg);
    ghost var moved := gd.linedata;
    ClearLines(gd, Sub32(sy, ny), ny, bg);
    DeletedResult(lines, moved, gd.linedata, sy - 1, py, ny, n, sy - ny, sy, gd.sx, bg);
  }

  // grid_view_insert_lines clears nothing after the move, so lines that were not moved over stay. It is
  // the splice exactly when those lines, if any, were blank already.
  method InsertLines(gd: Grid, py0: nat, ny: nat, bg: Colour)
    requires Small(gd) && 0 < ny && py0 + ny <= gd.sy
    modifies gd`linedata
    ensures Small(gd)
    ensures Contents(gd.linedata) ==
        Inserted(Contents(old(gd.linedata)), gd.hsize + gd.sy - 1, gd.hsize + py0, ny, gd.sx, bg)
      <==> forall i :: gd.hsize + gd.sy - ny <= i < gd.hsize + py0 + ny ==>
        Unwrapped(old(gd.linedata)[i]) == BlankLine(gd.sx, bg)
  {
    hide BlankLine, Inserted, MovedLines;
    var py, sy := gd.hsize + py0, gd.hsize + gd.sy;
    var n := Sub32(Sub32(sy, py), ny);
    ghost var lines := gd.linedata;
    MoveLines(gd, py + ny, py, n, bg);
    InsertedWithoutClear(lines, gd.linedata, sy, py, ny, n, gd.sx, bg);
  }

  // Two lines inserted at the top of three rows: the middle row is not moved over and keeps its line.
  method InsertLeavesLine(a: Line, b: Line, c: Line) returns (gd: Grid, ghost before: seq<Line>)
    requires Unwrapped(b) != BlankLine(1, Indexed(8))
    ensures Small(gd) && before == [a, b, c] && gd.sx == 1
    ensures Contents(gd.linedata) != Inserted(Contents(before), 2, 0, 2, 1, Indexed(8))
  {
    gd := new Grid(1, 3, 0);
    gd.linedata := [a, b, c];
    before := gd.linedata;
    InsertLines(gd, 0, 2, Indexed(8));
    assert Unwrapped(before[1]) != BlankLine(1, Indexed(8));
  }

  lemma InsertedWithoutClear(lines: seq<Line>, after: seq<Line>, sy: nat, py: nat, ny: nat, n: nat, sx: nat, bg: Colour)
    requires py + ny + n == sy == |lines| && ny > 0
    requires after == if n == 0 then lines else MovedLines(lines, py + ny, py, n, sx, bg)
    ensures Contents(after) == Inserted(Contents(lines), sy - 1, py, ny, sx, bg)
      <==> forall i :: sy - ny <= i < py + ny ==> Unwrapped(lines[i]) == BlankLine(sx, bg)
  {
    hide BlankLine, Inserted;
    BlankUnwrapped(sx, bg);
    var spec := Inserted(Contents(lines), sy - 1, py, ny, sx, bg);
    forall i | 0 <= i < |lines|
      ensures Contents(after)[i] == spec[i] <==>
        (sy - ny <= i < py + ny ==> Unwrapped(lines[i]) == BlankLine(sx, bg))
    {
      InsertedAt(Contents(lines), sy - 1, py, ny, sx, bg, i);
    }
  }

  // Inserting no more than half of the rows below py never meets that condition's lines.
  lemma InsertLinesSuffices(lines: seq<Line>, after: seq<Line>, sy: nat, py: nat, ny: nat, n: nat, sx: nat, bg: Colour)
    requires py + ny + n == sy == |lines| && ny > 0 && 2 * ny <= sy - py
    requires after == MovedLines(lines, py + ny, py, n, sx, bg)
    ensures Contents(after) == Inserted(Contents(lines), sy - 1, py, ny, sx, bg)
  {
    InsertedWithoutClear(lines, after, sy, py, ny, n, sx, bg);
  }

  // Deleting the lines that were inserted, or inserting where lines were deleted, restores everything
  // but the lines that fell off the end of the region.
  lemma InsertThenDelete(lines: seq<Line>, lower: nat, py: nat, ny: nat, sx: nat, bg: Colour)
    requires py + ny <= lower + 1 <= |lines|
    ensures Deleted(Inserted(lines, lower, py, ny, sx, bg), lower, py, ny, sx, bg) ==
      lines[..lower + 1 - ny] + Blanks(ny, sx, bg) + lines[lower + 1..]
  {
    hide Inserted, Deleted;
    var a := Inserted(lines, lower, py, ny, sx, bg);
    var b := Deleted(a, lower, py, ny, sx, bg);
    forall i | 0 <= i < |lines|
      ensures b[i] == (lines[..lower + 1 - ny] + Blanks(ny, sx, bg) + lines[lower + 1..])[i]
    {
      DeletedAt(a, lower, py, ny, sx, bg, i);
      InsertedAt(lines, lower, py, ny, sx, bg, i);
      if i + ny < |lines| {
        InsertedAt(lines, lower, py, ny, sx, bg, i + ny);
      }
    }
  }
}

// The grid: history lines followed by the visible screen.

module Grids {
  import opened GridCell
  import LineStore

  // The OSC 133 markers a line can carry.
  datatype Marker = Prompt | CommandStart | OutputStart | OutputEnd

  // Every cell is at most one column wide.
  ghost predicate Thin(cells: seq<Cell>) {
    forall i :: 0 <= i < |cells| ==> cells[i].data.width <= 1
  }

  // struct grid_line as LineStore shows it, with cells taken modulo CLEARED: the cells in
  // [0, cellused), the stored cells beyond them, and the flags.
  datatype Line = Line(
    cells: seq<Cell>, spare: seq<Cell>, wrapped: bool, extended: bool, dead: bool, marks: map<Marker, nat>)
  {
    // Without the extended flag every cell is a compact entry: one column wide, or none for padding.
    ghost predicate Compact() {
      !extended ==> Thin(cells)
    }

    // grid_set_cell
    function SetCell(px: nat, gc: Cell): (r: Line)
      ensures px == |cells| ==> r.cells == cells + [gc] && (Compact() ==> r.Compact())
      ensures r.wrapped == wrapped && r.dead == dead && r.marks == marks
    {
      var all := LineStore.Put(cells + spare, px, [gc]);
      var used := if px + 1 > |cells| then px + 1 else |cells|;
      assert px == |cells| ==> forall i :: 0 <= i <= px ==> all[i] == LineStore.Get(all, i);
      assert px == |cells| ==> forall i :: 0 <= i < px ==> LineStore.Get(cells + spare, i) == cells[i];
      Line(all[..used], all[used..], wrapped, extended || NeedsExtended(gc), dead, marks)
    }

    // The first want cells dropped, as when a line has been partly joined to the one above.
    function Drop(want: nat): Line
      requires want <= |cells|
    {
      this.(cells := cells[want..], spare := [])
    }
  }

  const EMPTY_LINE := Line([], [], false, false, false, map[])
  const DEAD_LINE := EMPTY_LINE.(dead := true)

  // grid_empty_line: an empty line, filled across the grid if the background is not a default one.
  function BlankLine(sx: nat, bg: Colour): Line {
    if bg.IsDefault() then EMPTY_LINE
    else EMPTY_LINE.(spare := LineStore.Blanks(sx, bg), extended := IsDirect(bg) && sx > 0)
  }

  // A line starts with no cell in use. Each shows a space, on the background if that is not a default one.
  lemma BlankReads(sx: nat, bg: Colour, i: nat)
    ensures var l := BlankLine(sx, bg);
      && l.cells == [] && !l.wrapped && !l.dead && l.marks == map[]
      && |l.spare| == (if bg == Indexed(8) || bg == Indexed(9) then 0 else sx)
      && LineStore.Get(l.spare, i).data == Glyph([32], 1) && LineStore.Get(l.spare, i).attr == 0
      && LineStore.Get(l.spare, i).flags == {} && LineStore.Get(l.spare, i).link == 0
      && LineStore.Get(l.spare, i).fg == LineStore.Get(l.spare, i).us == Indexed(8)
      && LineStore.Get(l.spare, i).bg == (if i < sx && bg != Indexed(9) then bg else Indexed(8))
      && (l.extended <==> sx > 0 && (bg.Rgb? || bg.Theme?))
  {
    var l := BlankLine(sx, bg);
    assert i < |l.spare| ==> l.spare[i] == Blank(bg);
  }

  // Setting a cell of a line: that cell reads back, no other changes, and the line is in use up to it.
  lemma SetCellReads(l: Line, px: nat, gc: Cell, i: nat)
    ensures var r := l.SetCell(px, gc);
      && LineStore.Get(r.cells + r.spare, i) == (if i == px then gc else LineStore.Get(l.cells + l.spare, i))
      && |r.cells| == (if px < |l.cells| then |l.cells| else px + 1)
      && (r.extended <==> l.extended || NeedsExtended(gc))
  {
    var r := l.SetCell(px, gc);
    assert r.cells + r.spare == LineStore.Put(l.cells + l.spare, px, [gc]);
  }

  function Unwrapped(l: Line): Line {
    l.(wrapped := false)
  }

  class Grid {
    var linedata: seq<Line>
    var sx: nat
    var sy: nat
    var hsize: nat      // history lines
    var hscrolled: nat  // of which scrolled off the top
    var hlimit: nat
    var keepsHistory: bool  // GRID_HISTORY
    var scrollAdded: nat
    var scrollCollected: nat

    ghost predicate Valid()
      reads this
    {
      |linedata| == hsize + sy
    }

    constructor (sx: nat, sy: nat, hlimit: nat)
      ensures Valid() && this.sx == sx && this.sy == sy && this.hlimit == hlimit && keepsHistory == (hlimit != 0)
      ensures hsize == hscrolled == scrollAdded == scrollCollected == 0
      ensures linedata == seq(sy, _ => EMPTY_LINE)
    {
      this.sx, this.sy, this.hlimit, keepsHistory := sx, sy, hlimit, hlimit != 0;
      hsize, hscrolled, scrollAdded, scrollCollected := 0, 0, 0, 0;
      linedata := seq(sy, _ => EMPTY_LINE);
    }
  }
}

// One grid line as stored: compact entries and a side table.

module LineStore {
  import opened GridCell

  // struct grid_cell_entry: the union holds an offset exactly when EXTENDED is set.
  datatype Payload = Offset(at: nat) | Data(attr: byte, fg: byte, bg: byte, ch: byte)
  datatype Entry = Entry(flags: set<Flag>, payload: Payload)

  // The packed character of an extended cell; a tab stores its width instead.
  datatype Code = Char(glyph: Glyph) | TabWidth(width: nat)
  datatype ExtdEntry = ExtdEntry(
    data: Code, attr: nat, flags: set<Flag>, fg: Colour, bg: Colour, us: Colour, link: nat)

  const ZERO_ENTRY := Entry({}, Data(0, 0, 0, 0))
  const CLEARED_ENTRY := Entry({CLEARED}, Data(0, 8, 8, 32))
  const ZERO_EXTD := ExtdEntry(Char(Glyph([], 0)), 0, {}, Indexed(0), Indexed(0), Indexed(0), 0)

  function FirstByte(g: Glyph): byte {
    if g.bytes == [] then 33 else g.bytes[0]
  }

  // grid_store_cell
  function CompactEntry(gc: Cell, ch: byte): Entry {
    Entry(
      gc.flags - {CLEARED}
      + (if gc.fg.Palette? then {FG256} else {})
      + (if gc.bg.Palette? then {BG256} else {}),
      Data((gc.attr % 256) as byte, gc.fg.Low(), gc.bg.Low(), ch))
  }

  // The side-table record that grid_extended_cell fills in.
  function ExtendedEntry(gc: Cell): ExtdEntry {
    ExtdEntry(
      if TAB in gc.flags then TabWidth(gc.data.width) else Char(gc.data),
      gc.attr, gc.flags - {CLEARED}, gc.fg, gc.bg, gc.us, gc.link)
  }

  // grid_get_cell1
  function ReadEntry(e: Entry, extd: seq<ExtdEntry>): Cell {
    if e.payload.Offset? then
      if e.payload.at >= |extd| then DEFAULT_CELL
      else
        var x := extd[e.payload.at];
        if TAB in x.flags then
          Cell(TabGlyph(if x.data.TabWidth? then x.data.width else 0), x.attr,
               x.flags + {TAB} - {PADDING}, x.fg, x.bg, x.us, x.link)
        else
          Cell(if x.data.Char? then x.data.glyph else Glyph([], 0), x.attr, x.flags, x.fg, x.bg, x.us, x.link)
    else
      Cell(
        if PADDING in e.flags then PADDING_GLYPH else Glyph([e.payload.ch], 1),
        e.payload.attr as int,
        e.flags - {FG256, BG256},
        if FG256 in e.flags then Palette(e.payload.fg) else Indexed(e.payload.fg),
        if BG256 in e.flags then Palette(e.payload.bg) else Indexed(e.payload.bg),
        Indexed(8), 0)
  }

  // Storing a cell and reading it back loses nothing but the CLEARED flag.
  lemma CompactRoundTrip(gc: Cell, extd: seq<ExtdEntry>)
    requires ValidCell(gc) && !NeedsExtended(gc)
    ensures ReadEntry(CompactEntry(gc, FirstByte(gc.data)), extd) == Norm(gc)
  {
    var e := CompactEntry(gc, FirstByte(gc.data));
    assert e.flags - {FG256, BG256} == gc.flags - {CLEARED};
    if PADDING !in gc.flags {
      assert gc.data.bytes == [gc.data.bytes[0]];
    }
  }

  lemma ExtendedRoundTrip(gc: Cell, at: nat, flags: set<Flag>, extd: seq<ExtdEntry>)
    requires ValidCell(gc) && at < |extd| && extd[at] == ExtendedEntry(gc) && EXTENDED in flags
    ensures ReadEntry(Entry(flags, Offset(at)), extd) == Norm(gc)
  {
    if TAB in gc.flags {
      assert gc.flags - {CLEARED} + {TAB} - {PADDING} == gc.flags - {CLEARED};
    }
  }

  // A compact entry shows a cell at most one column wide.
  lemma CompactThin(e: Entry, extd: seq<ExtdEntry>)
    requires !e.payload.Offset?
    ensures ReadEntry(e, extd).data.width <= 1
  {
  }

  // No compact entry shows a cell that is said to need an extended one, but for tabs.
  lemma ExtendedNeeded(gc: Cell, e: Entry, extd: seq<ExtdEntry>)
    requires ValidCell(gc) && NeedsExtended(gc) && TAB !in gc.flags && !e.payload.Offset?
    ensures ReadEntry(e, extd) != Norm(gc)
  {
    var r := ReadEntry(e, extd);
    assert r.attr < 256 && |r.data.bytes| <= 1 && r.data.width <= 1 && r.us == Indexed(8) && r.link == 0;
    assert !IsDirect(r.fg) && !IsDirect(r.bg);
  }

  lemma StoredExtended(gc: Cell, ch: byte, at: nat, flags: set<Flag>, extd: seq<ExtdEntry>)
    requires ValidCell(gc) && at < |extd| && extd[at] == ExtendedEntry(gc).(data := CharacterCode(ch, gc.flags))
    requires EXTENDED in flags
    ensures forall ext: bool :: (
      ext || NeedsExtended(gc) ==> ReadEntry(Entry(flags, Offset(at)), extd) == Norm(Stored(gc, ch, ext)))
  {
    if TAB in gc.flags {
      assert gc.flags - {CLEARED} + {TAB} - {PADDING} == gc.flags - {CLEARED};
    }
  }

  lemma StoredCompact(gc: Cell, ch: byte, extd: seq<ExtdEntry>)
    requires ValidCell(gc) && !NeedsExtended(gc)
    ensures ReadEntry(CompactEntry(gc, ch), extd) == Norm(Stored(gc, ch, false))
  {
    var e := CompactEntry(gc, ch);
    assert e.flags - {FG256, BG256} == gc.flags - {CLEARED};
  }

  // ----- The plain array of cells -----

  function Get(a: seq<Cell>, i: nat): Cell {
    if i < |a| then a[i] else DEFAULT_CELL
  }

  // a extended with default cells so that it has at least n of them.
  function Extend(a: seq<Cell>, n: nat): (r: seq<Cell>)
    ensures |r| == if n <= |a| then |a| else n
    ensures forall i: nat :: Get(r, i) == Get(a, i)
  {
    if n <= |a| then a else a + seq(n - |a|, _ => DEFAULT_CELL)
  }

  // a with the cells of run written at px.
  function Put(a: seq<Cell>, px: nat, run: seq<Cell>): (r: seq<Cell>)
    ensures |r| == if px + |run| <= |a| then |a| else px + |run|
    ensures forall i: nat :: Get(r, i) == if px <= i < px + |run| then run[i - px] else Get(a, i)
  {
    var b := Extend(a, px + |run|);
    b[..px] + run + b[px + |run|..]
  }

  function Blanks(n: nat, bg: Colour): seq<Cell> {
    seq(n, _ => Blank(bg))
  }

  // The cells at px .. px + nx copied to dx, the vacated ones blanked.
  function Shift(a: seq<Cell>, dx: nat, px: nat, nx: nat, bg: Colour): (r: seq<Cell>)
    ensures forall i: nat {:trigger Get(r, i)} :: (
      Get(r, i) ==
      if dx <= i < dx + nx then Get(a, i - dx + px)
      else if px <= i < px + nx then Blank(bg)
      else Get(a, i))
  {
    var b := Extend(a, px + nx);
    Put(Put(a, px, Blanks(nx, bg)), dx, b[px..px + nx])
  }

  datatype Op =
    | Set(px: nat, gc: Cell)
    | SetRun(px: nat, gc: Cell, text: seq<byte>)
    | Clear(px: nat, nx: nat, bg: Colour)
    | Move(dx: nat, px: nat, nx: nat, bg: Colour)
    | Compact

  function WithByte(gc: Cell, b: byte): Cell {
    gc.(data := Glyph([b], 1))
  }

  function Run(gc: Cell, text: seq<byte>): (r: seq<Cell>)
    ensures |r| == |text|
  {
    seq(|text|, i requires 0 <= i < |text| => Norm(WithByte(gc, text[i])))
  }

  // grid_clear frees a line that is cleared over the full width of the grid and starts it again.
  predicate FullWidth(px: nat, nx: nat, sx: nat) {
    nx > 0 && px == 0 && nx == sx
  }

  // What each operation does to the plain array, on a grid sx columns wide.
  function Apply(op: Op, a: seq<Cell>, sx: nat): seq<Cell> {
    match op
    case Set(px, gc) => Put(a, px, [Norm(gc)])
    case SetRun(px, gc, text) => Put(a, px, Run(gc, text))
    case Clear(px, nx, bg) =>
      if !FullWidth(px, nx, sx) then Put(a, px, Blanks(nx, bg))
      else if bg.IsDefault() then []
      else Blanks(sx, bg)
    case Move(dx, px, nx, bg) => if px == dx then a else Shift(a, dx, px, nx, bg)
    case Compact => a
  }

  function ApplyAll(ops: seq<Op>, a: seq<Cell>, sx: nat): seq<Cell> {
    if ops == [] then a else Apply(ops[|ops| - 1], ApplyAll(ops[..|ops| - 1], a, sx), sx)
  }

  // The operations whose result depends on what the line shows alone. Two that callers do not use are not:
  // background 9 on part of a line (see ClearAgreesExactly), and a run of padding cells (see Stored).
  predicate Legal(op: Op, sx: nat) {
    match op
    case Set(_, gc) => ValidCell(gc)
    case SetRun(_, gc, _) => ValidCell(gc) && gc.flags !! {TAB, PADDING}
    case Clear(px, nx, bg) => px + nx <= sx && (bg != Indexed(9) || FullWidth(px, nx, sx))
    case Move(_, _, _, _) => true
    case Compact => true
  }

  // What cell i of a cleared line shows, where it showed was. Clearing with a default background stops at
  // the stored cells; clearing the full width drops the whole line, cells past the grid included.
  function Cleared(i: nat, was: Cell, px: nat, nx: nat, bg: Colour, stored: nat, sx: nat): Cell {
    if FullWidth(px, nx, sx) then
      if i < sx && !bg.IsDefault() then Blank(bg) else DEFAULT_CELL
    else if px <= i < px + nx && (!bg.IsDefault() || i < stored) then Blank(bg)
    else was
  }

  // The cleared line b is the array a with the cells at px blanked and no other cell changed exactly if:
  // over the full width, the background is not 9 and there was nothing past the grid; over part of it, the
  // background is not 9 or the cells are stored.
  lemma ClearAgreesExactly(a: seq<Cell>, b: seq<Cell>, px: nat, nx: nat, bg: Colour, stored: nat, sx: nat)
    requires forall i: nat :: i >= stored ==> Get(a, i) == DEFAULT_CELL
    requires forall i: nat :: Get(b, i) == Cleared(i, Get(a, i), px, nx, bg, stored, sx)
    ensures (forall i: nat :: Get(b, i) == Get(Put(a, px, Blanks(nx, bg)), i))
      <==> (if FullWidth(px, nx, sx) then bg != Indexed(9) && forall i: nat :: i >= sx ==> Get(a, i) == DEFAULT_CELL
            else bg != Indexed(9) || nx == 0 || px + nx <= stored)
  {
    var c := Put(a, px, Blanks(nx, bg));
    if FullWidth(px, nx, sx) {
      if bg == Indexed(9) {
        assert Get(b, 0) != Blank(bg) == Get(c, 0);
      }
      forall i: nat | i >= sx
        ensures Get(b, i) == DEFAULT_CELL && Get(c, i) == Get(a, i)
      {
      }
    } else if bg == Indexed(9) && nx > 0 && px + nx > stored {
      var last := px + nx - 1;
      assert Get(b, last) == DEFAULT_CELL != Blank(bg) == Get(c, last);
    }
  }

  // Three lines on which a clear differs from the plain array: background 9 past the stored cells,
  // background 9 over the full width, and a cell past a grid of three columns.
  lemma ClearDisagrees(x: Cell)
    requires x != DEFAULT_CELL
    ensures Cleared(0, DEFAULT_CELL, 0, 1, Indexed(9), 0, 3) != Blank(Indexed(9))
    ensures Cleared(0, x, 0, 3, Indexed(9), 3, 3) != Blank(Indexed(9))
    ensures Cleared(3, x, 0, 3, Indexed(8), 4, 3) != x
  {
  }

  // How many of the first n entries are extended.
  function CountExtended(cells: seq<Entry>, n: nat): (k: nat)
    requires n <= |cells|
    ensures k <= n
  {
    if n == 0 then 0 else CountExtended(cells, n - 1) + (if cells[n - 1].payload.Offset? then 1 else 0)
  }

  lemma {:induction false} CountExtendedMonotone(cells: seq<Entry>, m: nat, n: nat)
    requires m <= n <= |cells|
    ensures CountExtended(cells, m) <= CountExtended(cells, n)
    decreases n
  {
    if m < n {
      CountExtendedMonotone(cells, m, n - 1);
    }
  }

  // Adding to the side table changes no read.
  lemma ReadsKept(cells: seq<Entry>, extd: seq<ExtdEntry>, more: seq<ExtdEntry>)
    requires EntriesOk(cells, |extd|) && |extd| <= |more| && more[..|extd|] == extd
    ensures forall i :: 0 <= i < |cells| ==> ReadEntry(cells[i], more) == ReadEntry(cells[i], extd)
  {
    assert forall k :: 0 <= k < |extd| ==> more[k] == more[..|extd|][k];
    assert forall i :: 0 <= i < |cells| ==> EntryOk(cells[i], |extd|);
  }

  predicate EntryOk(e: Entry, extdsize: nat) {
    && (EXTENDED in e.flags <==> e.payload.Offset?)
    && (e.payload.Offset? ==> e.payload.at < extdsize)
  }

  ghost predicate EntriesOk(cells: seq<Entry>, extdsize: nat) {
    forall i :: 0 <= i < |cells| ==> EntryOk(cells[i], extdsize)
  }

  ghost predicate NoSharedSlot(cells: seq<Entry>) {
    forall i, j :: 0 <= i < j < |cells| && cells[i].payload.Offset? && cells[j].payload.Offset? ==>
      cells[i].payload.at != cells[j].payload.at
  }

  // How many entries a line of size entries has once it has been expanded to hold want.
  function GrownTo(size: nat, want: nat, gdsx: nat): (r: nat)
    ensures size <= r && want <= r && (want <= gdsx && size <= gdsx ==> r <= gdsx)
  {
    if want <= size then size
    else if want < gdsx / 4 then gdsx / 4
    else if want < gdsx / 2 then gdsx / 2
    else if want < gdsx then gdsx
    else want
  }

  // It grows to the least of a quarter, a half and all of the grid's width that is more than it needs, or to
  // what it needs if none is; and not at all if it need not.
  lemma GrownLeast(size: nat, want: nat, gdsx: nat)
    ensures var r := GrownTo(size, want, gdsx);
      && (want <= size ==> r == size)
      && (want > size ==>
            && r >= want && (r == want || r == gdsx / 4 || r == gdsx / 2 || r == gdsx)
            && (want < gdsx / 4 ==> r <= gdsx / 4) && (want < gdsx / 2 ==> r <= gdsx / 2)
            && (want < gdsx <==> r > want) && r <= (if want < gdsx then gdsx else want))
  {
  }

  // The code that grid_set_cells writes for one character: read with the tab flag it is a width.
  const ONE_CHARACTER := 0x4100_0000

  function CharacterCode(ch: byte, flags: set<Flag>): Code {
    if TAB in flags then TabWidth(ONE_CHARACTER + ch as nat) else Char(Glyph([ch], 1))
  }

  // What a cell shows once grid_set_cells has stored character ch with the shape of gc, in an entry that
  // was extended or not. A compact padding entry shows padding and an extended one the character; a tab
  // takes the character's code for its width.
  function Stored(gc: Cell, ch: byte, wasExtended: bool): Cell {
    if TAB in gc.flags then gc.(data := TabGlyph(ONE_CHARACTER + ch as nat))
    else if PADDING in gc.flags && !wasExtended && !NeedsExtended(gc) then gc
    else WithByte(gc, ch)
  }

  // So the character is shown exactly if the cell is not a tab, nor padding in an entry that stays compact.
  lemma StoredAsCharacter(gc: Cell, ch: byte, wasExtended: bool)
    requires ValidCell(gc)
    ensures Norm(Stored(gc, ch, wasExtended)) == Norm(WithByte(gc, ch)) <==>
      TAB !in gc.flags && !(PADDING in gc.flags && !wasExtended && !NeedsExtended(gc))
  {
    if TAB in gc.flags {
      assert Norm(Stored(gc, ch, wasExtended)).data.width == ONE_CHARACTER + ch as nat;
    }
  }

  class GridLine {
    var celldata: seq<Entry>
    var extddata: seq<ExtdEntry>
    var cellused: nat
    var extended: bool  // GRID_LINE_EXTENDED

    // The representation invariant: every offset lies in the side table, no two entries share a
    // slot, and a line with an extended entry says so in its flags.
    ghost predicate Valid()
      reads this
    {
      && cellused <= |celldata|
      && EntriesOk(celldata, |extddata|)
      && NoSharedSlot(celldata)
      && (forall i :: 0 <= i < |celldata| && celldata[i].payload.Offset? ==> extended)
    }

    // grid_get_cell, on a line inside the grid
    function Read(px: nat): Cell
      reads this
    {
      if px < |celldata| then ReadEntry(celldata[px], extddata) else DEFAULT_CELL
    }

    // The line shows exactly the cells of the array a.
    ghost predicate Shows(a: seq<Cell>)
      reads this
    {
      forall i: nat :: Norm(Read(i)) == Get(a, i)
    }

    // The cells of the line's content, [0, cellused).
    ghost function Used(): seq<Cell>
      reads this
    {
      seq(cellused, i requires 0 <= i reads this => Norm(Read(i)))
    }

    constructor ()
      ensures Valid() && Shows([]) && cellused == 0 && celldata == [] && !extended
    {
      celldata, extddata, cellused, extended := [], [], 0, false;
    }

    // grid_get_extended_cell then grid_extended_cell: the entry keeps its slot or gets a packed one.
    method ExtendedCell(px: nat, gc: Cell)
      requires px < |celldata| && EntriesOk(celldata, |extddata|) && ValidCell(gc)
      modifies `celldata, `extddata, `extended
      ensures extended && EntriesOk(celldata, |extddata|)
      ensures |celldata| == old(|celldata|) && celldata[px].payload.Offset?
      ensures forall i :: 0 <= i < |celldata| && i != px ==> celldata[i] == old(celldata[i])
      ensures var at := celldata[px].payload.at;
        && at == (if old(celldata[px].payload.Offset?) then old(celldata[px].payload.at) else |old(extddata)|)
        && |extddata| == (if old(celldata[px].payload.Offset?) then |old(extddata)| else |old(extddata)| + 1)
        && extddata[at] == ExtendedEntry(gc)
        && forall k :: 0 <= k < |old(extddata)| && k != at ==> extddata[k] == old(extddata[k])
      ensures ReadEntry(celldata[px], extddata) == Norm(gc)
    {
      if !celldata[px].payload.Offset? {
        extddata := extddata + [ZERO_EXTD];
        celldata := celldata[px := Entry(gc.flags - {CLEARED} + {EXTENDED}, Offset(|extddata| - 1))];
      }
      extended := true;
      var at := celldata[px].payload.at;
      extddata := extddata[at := ExtendedEntry(gc)];
      ExtendedRoundTrip(gc, at, celldata[px].flags, extddata);
    }

    // grid_clear_cell. When the entry has just been copied elsewhere (moved) its slot now belongs
    // to the copy and must not be reused.
    method ClearCell(px: nat, bg: Colour, moved: bool)
      requires px < |celldata| && EntriesOk(celldata, |extddata|)
      modifies `celldata, `extddata, `extended
      ensures EntriesOk(celldata, |extddata|)
      ensures |celldata| == old(|celldata|) && (old(extended) ==> extended)
      ensures forall i :: 0 <= i < |celldata| && i != px ==> celldata[i] == old(celldata[i])
      ensures |old(extddata)| <= |extddata|
      ensures forall k :: (
        0 <= k < |old(extddata)|
        && (moved || !old(celldata[px].payload.Offset?) || k != old(celldata[px].payload.at))
        ==> extddata[k] == old(extddata[k]))
      ensures celldata[px].payload.Offset? ==>
        && extended
        && (celldata[px].payload.at >= |old(extddata)|
            || (!moved && old(celldata[px].payload.Offset?) && celldata[px].payload.at == old(celldata[px].payload.at)))
      ensures !old(celldata[px].payload.Offset?) && !IsDirect(bg) ==>
        !celldata[px].payload.Offset? && extddata == old(extddata) && extended == old(extended)
      ensures Norm(ReadEntry(celldata[px], extddata)) == Blank(bg)
    {
      var gce := celldata[px];
      var cleared := CLEARED_CELL.(bg := bg);
      celldata := celldata[px := CLEARED_ENTRY];
      if !moved && gce.payload.Offset? && gce.payload.at < |extddata| {
        celldata := celldata[px := Entry(CLEARED_ENTRY.flags + {EXTENDED}, gce.payload)];
        ExtendedCell(px, cleared);
      } else if bg != Indexed(8) {
        if IsDirect(bg) {
          ExtendedCell(px, cleared);
        } else {
          celldata := celldata[px :=
            Entry(CLEARED_ENTRY.flags + (if bg.Palette? then {BG256} else {}), Data(0, 8, bg.n, 32))];
        }
      }
      assert cleared.flags - {CLEARED} == {};
    }

    // grid_empty_line after grid_free_line, as grid_clear_lines does for one line
    method Empty(bg: Colour, gdsx: nat)
      modifies this
      ensures Valid() && cellused == 0 && |celldata| == if bg.IsDefault() then 0 else gdsx
      ensures extended <==> IsDirect(bg) && gdsx > 0
      ensures forall i: nat :: Norm(Read(i)) == if i < gdsx && !bg.IsDefault() then Blank(bg) else DEFAULT_CELL
    {
      celldata, extddata, cellused, extended := [], [], 0, false;
      NormDefault();
      if !bg.IsDefault() {
        ExpandLine(gdsx, bg, gdsx);
        assert gdsx > 0 ==> Norm(Read(0)).bg == bg && (IsDirect(bg) ==> celldata[0].payload.Offset?);
      }
    }

    // grid_expand_line, on a grid gdsx columns wide
    method ExpandLine(want: nat, bg: Colour, gdsx: nat)
      requires Valid()
      modifies `celldata, `extddata, `extended
      ensures Valid() && |celldata| == GrownTo(old(|celldata|), want, gdsx)
      ensures old(extended) ==> extended
      ensures !IsDirect(bg) ==> extddata == old(extddata) && extended == old(extended)
      ensures want <= old(|celldata|) ==>
        celldata == old(celldata) && extddata == old(extddata) && extended == old(extended)
      ensures !IsDirect(bg) ==> forall i: nat :: ExtendedAt(i) == old(ExtendedAt(i))
      ensures forall i :: 0 <= i < old(|celldata|) ==> celldata[i] == old(celldata[i])
      ensures forall i: nat :: i < old(|celldata|) ==> Read(i) == old(Read(i))
      ensures forall i: nat :: old(|celldata|) <= i < |celldata| ==> Norm(Read(i)) == Blank(bg)
      ensures bg == Indexed(8) ==> forall i: nat :: Norm(Read(i)) == old(Norm(Read(i)))
    {
      hide ReadEntry;
      NormDefault();
      if want <= |celldata| {
        return;
      }
      var sx := want;
      if sx < gdsx / 4 {
        sx := gdsx / 4;
      } else if sx < gdsx / 2 {
        sx := gdsx / 2;
      } else if gdsx > sx {
        sx := gdsx;
      }
      var cellsize := |celldata|;
      celldata := celldata + seq(sx - cellsize, _ => ZERO_ENTRY);
      for xx := cellsize to sx
        invariant |celldata| == sx && EntriesOk(celldata, |extddata|) && NoSharedSlot(celldata)
        invariant |old(extddata)| <= |extddata|
        invariant forall i :: 0 <= i < |celldata| && celldata[i].payload.Offset? ==> extended
        invariant old(extended) ==> extended
        invariant !IsDirect(bg) ==> extddata == old(extddata) && extended == old(extended)
        invariant !IsDirect(bg) ==> forall i :: cellsize <= i < sx ==> !celldata[i].payload.Offset?
        invariant forall i :: 0 <= i < cellsize ==> celldata[i] == old(celldata[i])
        invariant forall i :: xx <= i < sx ==> celldata[i] == ZERO_ENTRY
        invariant extddata[..|old(extddata)|] == old(extddata)
        invariant forall i :: cellsize <= i < xx ==> Norm(ReadEntry(celldata[i], extddata)) == Blank(bg)
      {
        ghost var cells, extd := celldata, extddata;
        ClearFresh(xx, bg);
        ReadsKept(cells, extd, extddata);
      }
      ReadsKept(old(celldata), old(extddata), extddata);
    }

    // grid_clear_cell on a new entry
    method ClearFresh(px: nat, bg: Colour)
      requires px < |celldata| && EntriesOk(celldata, |extddata|) && celldata[px] == ZERO_ENTRY
      modifies `celldata, `extddata, `extended
      ensures EntriesOk(celldata, |extddata|)
      ensures |celldata| == old(|celldata|) && celldata == old(celldata)[px := celldata[px]]
      ensures |old(extddata)| <= |extddata| && extddata[..|old(extddata)|] == old(extddata)
      ensures celldata[px].payload.Offset? ==> extended && IsDirect(bg) && celldata[px].payload.at >= |old(extddata)|
      ensures (old(extended) ==> extended) && (!IsDirect(bg) ==> extddata == old(extddata) && extended == old(extended))
      ensures Norm(ReadEntry(celldata[px], extddata)) == Blank(bg)
    {
      ClearCell(px, bg, false);
    }

    // grid_set_cell
    method SetCell(px: nat, gc: Cell, gdsx: nat)
      requires Valid() && ValidCell(gc)
      modifies this
      ensures Valid()
      ensures cellused == if px + 1 > old(cellused) then px + 1 else old(cellused)
      ensures old(extended) || NeedsExtended(gc) ==> extended
      ensures !old(extended) && !NeedsExtended(gc) ==> !extended
      ensures forall i: nat :: Norm(Read(i)) == if i == px then Norm(gc) else old(Norm(Read(i)))
      ensures px == old(cellused) ==> Used() == old(Used()) + [Norm(gc)]
    {
      ExpandLine(px + 1, Indexed(8), gdsx);
      if px + 1 > cellused {
        cellused := px + 1;
      }
      StoreAt(px, gc);
    }

    // The tail of grid_set_cell
    method StoreAt(px: nat, gc: Cell)
      requires Valid() && px < |celldata| && ValidCell(gc)
      modifies `celldata, `extddata, `extended
      ensures Valid() && |celldata| == old(|celldata|)
      ensures old(extended) || NeedsExtended(gc) ==> extended
      ensures !old(extended) && !NeedsExtended(gc) ==> !extended
      ensures forall i: nat :: Read(i) == if i == px then Norm(gc) else old(Read(i))
    {
      if celldata[px].payload.Offset? || NeedsExtended(gc) {
        ExtendedCell(px, gc);
      } else {
        CompactRoundTrip(gc, extddata);
        celldata := celldata[px := CompactEntry(gc, FirstByte(gc.data))];
      }
    }

    // Whether the line has an extended entry at px.
    predicate ExtendedAt(px: nat)
      reads this
    {
      px < |celldata| && celldata[px].payload.Offset?
    }

    // grid_set_cells
    method SetCells(px: nat, gc: Cell, text: seq<byte>, gdsx: nat)
      requires Valid() && ValidCell(gc)
      modifies this
      ensures Valid()
      ensures cellused == if px + |text| > old(cellused) then px + |text| else old(cellused)
      ensures forall i: nat :: (
        Norm(Read(i)) ==
        if px <= i < px + |text| then Norm(Stored(gc, text[i - px], old(ExtendedAt(i)))) else old(Norm(Read(i))))
    {
      ExpandLine(px + |text|, Indexed(8), gdsx);
      if px + |text| > cellused {
        cellused := px + |text|;
      }
      ghost var size, used := |celldata|, cellused;
      for i := 0 to |text|
        invariant Valid() && |celldata| == size && cellused == used
        invariant forall k: nat :: k >= px + i ==> ExtendedAt(k) == old(ExtendedAt(k))
        invariant forall k: nat :: (
          Norm(Read(k)) ==
          if px <= k < px + i then Norm(Stored(gc, text[k - px], old(ExtendedAt(k)))) else old(Norm(Read(k))))
      {
        StoreByteAt(px + i, gc, text[i]);
      }
    }

    // The body of the grid_set_cells loop: the shape of gc decides how to store, text gives the character.
    method StoreByteAt(px: nat, gc: Cell, ch: byte)
      requires Valid() && px < |celldata| && ValidCell(gc)
      modifies `celldata, `extddata, `extended
      ensures Valid() && |celldata| == old(|celldata|)
      ensures forall i: nat :: Read(i) == if i == px then Norm(Stored(gc, ch, old(ExtendedAt(px)))) else old(Read(i))
      ensures forall i: nat :: i != px ==> ExtendedAt(i) == old(ExtendedAt(i))
    {
      if celldata[px].payload.Offset? || NeedsExtended(gc) {
        ExtendedCell(px, gc);
        var at := celldata[px].payload.at;
        extddata := extddata[at := extddata[at].(data := CharacterCode(ch, gc.flags))];
        StoredExtended(gc, ch, at, celldata[px].flags, extddata);
      } else {
        StoredCompact(gc, ch, extddata);
        celldata := celldata[px := CompactEntry(gc, ch)];
      }
    }

    // grid_clear of one line, on a grid gdsx columns wide
    method Clear(px: nat, nx: nat, bg: Colour, gdsx: nat)
      requires Valid() && px + nx <= gdsx
      modifies this
      ensures Valid() && cellused == if FullWidth(px, nx, gdsx) then 0 else old(cellused)
      ensures forall i: nat ::
        Norm(Read(i)) == Cleared(i, old(Norm(Read(i))), px, nx, bg, old(|celldata|), gdsx)
    {
      if nx == 0 {
        return;
      }
      if px == 0 && nx == gdsx {
        Empty(bg, gdsx);
        return;
      }
      ClearRange(px, nx, bg, gdsx);
    }

    // The body of the grid_clear loop. A default background stops at the stored cells, so with background 9
    // the cells past them keep reading as background 8.
    method ClearRange(px: nat, nx: nat, bg: Colour, gdsx: nat)
      requires Valid() && px + nx <= gdsx
      modifies this
      ensures Valid() && cellused == old(cellused)
      ensures forall i: nat :: (
        Norm(Read(i)) ==
        if px <= i < px + nx && (!bg.IsDefault() || i < old(|celldata|)) then Blank(bg) else old(Norm(Read(i))))
    {
      var sx := gdsx;
      if sx > |celldata| {
        sx := |celldata|;
      }
      var ox := nx;
      NormDefault();
      if bg.IsDefault() {
        if px > sx {
          return;
        }
        if px + nx > sx {
          ox := sx - px;
        }
      }
      ExpandLine(px + ox, Indexed(8), gdsx);
      ghost var size := |celldata|;
      for xx := px to px + ox
        invariant Valid() && |celldata| == size && cellused == old(cellused)
        invariant forall i: nat :: Norm(Read(i)) == if px <= i < xx then Blank(bg) else old(Norm(Read(i)))
      {
        ClearStored(xx, bg);
      }
    }

    // grid_clear_cell on a cell that has not moved: it keeps its slot, so only its own read changes.
    method ClearStored(px: nat, bg: Colour)
      requires Valid() && px < |celldata|
      modifies `celldata, `extddata, `extended
      ensures Valid() && |celldata| == old(|celldata|)
      ensures forall i: nat :: Norm(Read(i)) == if i == px then Blank(bg) else old(Norm(Read(i)))
    {
      assert forall i :: 0 <= i < |celldata| ==> EntryOk(celldata[i], |extddata|);
      ClearCell(px, bg, false);
    }

    // grid_move_cells. While the copies and the originals share slots the line is not Valid; clearing
    // the originals without reusing their slots makes it so again.
    method MoveCells(dx: nat, px: nat, nx: nat, bg: Colour, gdsx: nat)
      requires Valid()
      modifies this
      ensures Valid()
      ensures nx == 0 || px == dx ==> cellused == old(cellused)
      ensures nx != 0 && px != dx ==> cellused == if dx + nx > old(cellused) then dx + nx else old(cellused)
      ensures forall i: nat :: (
        Norm(Read(i)) ==
        if nx == 0 || px == dx then old(Norm(Read(i)))
        else if dx <= i < dx + nx then old(Norm(Read(i - dx + px)))
        else if px <= i < px + nx then Blank(bg)
        else old(Norm(Read(i))))
    {
      if nx == 0 || px == dx {
        return;
      }
      ExpandLine(px + nx, Indexed(8), gdsx);
      ExpandLine(dx + nx, Indexed(8), gdsx);
      MoveStored(dx, px, nx, bg);
    }

    // The part of grid_move_cells after the line has been expanded.
    method MoveStored(dx: nat, px: nat, nx: nat, bg: Colour)
      requires Valid() && dx + nx <= |celldata| && px + nx <= |celldata|
      modifies this
      ensures Valid()
      ensures cellused == if dx + nx > old(cellused) then dx + nx else old(cellused)
      ensures forall i: nat :: (
        Norm(Read(i)) ==
        if dx <= i < dx + nx then old(Norm(Read(i - dx + px)))
        else if px <= i < px + nx then Blank(bg)
        else old(Norm(Read(i))))
    {
      hide ReadEntry, EntryOk, NoSharedSlot, Norm, Blank, Moved;
      ghost var cells, extd := celldata, extddata;
      celldata := celldata[..dx] + celldata[px..px + nx] + celldata[dx + nx..];
      if dx + nx > cellused {
        cellused := dx + nx;
      }
      ghost var copied := celldata;
      WipeMoved(dx, px, nx, bg);
      MovedOnly(cells, copied, celldata, |extd|, dx, px, nx);
      MovedDistinct(cells, celldata, |extd|, dx, px, nx);
      MovedReads(cells, extd, celldata, extddata, dx, px, nx, bg);
    }

    // How grid_reflow_join drops the first want cells of a line it has partly consumed.
    method DropConsumed(want: nat, gdsx: nat)
      requires Valid() && want < cellused
      modifies this
      ensures Valid() && |celldata| == cellused && Used() == old(Used())[want..]
    {
      ghost var used := Used();
      var left := cellused - want;
      MoveCells(0, want, left, Indexed(8), gdsx);
      assert forall i: nat :: i < left ==> Norm(Read(i)) == used[want..][i];
      celldata, cellused := celldata[..left], left;
      assert forall i: nat :: i < left ==> Norm(Read(i)) == used[want..][i];
    }

    // The closing loop of grid_move_cells, run while the copies and the originals share slots.
    method WipeMoved(dx: nat, px: nat, nx: nat, bg: Colour)
      requires dx + nx <= |celldata| && px + nx <= |celldata| && EntriesOk(celldata, |extddata|)
      requires forall i :: 0 <= i < |celldata| && celldata[i].payload.Offset? ==> extended
      modifies `celldata, `extddata, `extended
      ensures |celldata| == old(|celldata|) && EntriesOk(celldata, |extddata|)
      ensures |old(extddata)| <= |extddata| && extddata[..|old(extddata)|] == old(extddata)
      ensures forall i :: 0 <= i < |celldata| && celldata[i].payload.Offset? ==> extended
      ensures forall i :: 0 <= i < |celldata| && !Vacated(i, dx, px, nx) ==> celldata[i] == old(celldata[i])
      ensures forall i :: 0 <= i < |celldata| && Vacated(i, dx, px, nx) ==>
        && (celldata[i].payload.Offset? ==> celldata[i].payload.at >= |old(extddata)|)
        && Norm(ReadEntry(celldata[i], extddata)) == Blank(bg)
      ensures forall i, j :: (
        0 <= i < j < |celldata| && Vacated(i, dx, px, nx) && Vacated(j, dx, px, nx)
        && celldata[i].payload.Offset? && celldata[j].payload.Offset?
        ==> celldata[i].payload.at != celldata[j].payload.at)
    {
      for xx := px to px + nx
        invariant |celldata| == old(|celldata|) && EntriesOk(celldata, |extddata|)
        invariant |old(extddata)| <= |extddata| && extddata[..|old(extddata)|] == old(extddata)
        invariant forall i :: 0 <= i < |celldata| && celldata[i].payload.Offset? ==> extended
        invariant forall i :: 0 <= i < |celldata| && !(Vacated(i, dx, px, nx) && i < xx) ==>
          celldata[i] == old(celldata[i])
        invariant forall i :: 0 <= i < xx && Vacated(i, dx, px, nx) ==>
          && (celldata[i].payload.Offset? ==> celldata[i].payload.at >= |old(extddata)|)
          && Norm(ReadEntry(celldata[i], extddata)) == Blank(bg)
        invariant forall i, j :: (
          0 <= i < j < xx && Vacated(i, dx, px, nx) && Vacated(j, dx, px, nx)
          && celldata[i].payload.Offset? && celldata[j].payload.Offset?
          ==> celldata[i].payload.at != celldata[j].payload.at)
      {
        if !(dx <= xx < dx + nx) {
          ghost var before := extddata;
          ClearCell(xx, bg, true);
          assert extddata[..|before|] == before;
        }
      }
    }

    // grid_compact_line: drops the unused slots of the side table and changes no cell.
    method CompactLine()
      requires Valid()
      modifies `celldata, `extddata
      ensures Valid() && |celldata| == old(|celldata|)
      ensures forall i: nat :: Read(i) == old(Read(i))
      ensures |extddata| == CountExtended(celldata, |celldata|)
    {
      var size := 0;
      for px := 0 to |celldata|
        invariant size == CountExtended(celldata, px)
      {
        if celldata[px].payload.Offset? {
          size := size + 1;
        }
      }
      var cells, packed := Repack(celldata, extddata, size);
      RepackedReads(celldata, extddata, cells, packed);
      celldata, extddata := cells, packed;
    }
  }

  // The second loop of grid_compact_line: the i-th entry, if extended, moves to the slot counted by
  // the extended entries before it.
  method Repack(cells: seq<Entry>, extd: seq<ExtdEntry>, size: nat)
    returns (celldata: seq<Entry>, packed: seq<ExtdEntry>)
    requires EntriesOk(cells, |extd|) && size == CountExtended(cells, |cells|)
    ensures |celldata| == |cells| && |packed| == size
    ensures forall i :: 0 <= i < |cells| ==> celldata[i] == Repacked(cells, i)
    ensures forall i :: 0 <= i < |cells| && cells[i].payload.Offset? ==>
      CountExtended(cells, i) < size && packed[CountExtended(cells, i)] == extd[cells[i].payload.at]
  {
    celldata, packed := cells, seq(size, _ => ZERO_EXTD);
    var idx := 0;
    for px := 0 to |cells|
      invariant |celldata| == |cells| && |packed| == size
      invariant idx == CountExtended(cells, px) <= size
      invariant forall i :: 0 <= i < |cells| ==> celldata[i] == if i < px then Repacked(cells, i) else cells[i]
      invariant forall i :: 0 <= i < px && cells[i].payload.Offset? ==>
        CountExtended(cells, i) < idx && packed[CountExtended(cells, i)] == extd[cells[i].payload.at]
    {
      CountExtendedMonotone(cells, px + 1, |cells|);
      if celldata[px].payload.Offset? {
        packed := packed[idx := extd[celldata[px].payload.at]];
        celldata := celldata[px := celldata[px].(payload := Offset(idx))];
        idx := idx + 1;
      }
    }
  }

  predicate Vacated(i: nat, dx: nat, px: nat, nx: nat) {
    px <= i < px + nx && !(dx <= i < dx + nx)
  }

  // What the line holds once the run at px has been copied to dx and its originals wiped.
  ghost predicate Moved(cells: seq<Entry>, after: seq<Entry>, size: nat, dx: nat, px: nat, nx: nat) {
    && EntriesOk(cells, size)
    && |after| == |cells| && dx + nx <= |cells| && px + nx <= |cells|
    && (forall i :: dx <= i < dx + nx ==> after[i] == cells[i - dx + px])
    && (forall i :: 0 <= i < |cells| && !(dx <= i < dx + nx) && !(px <= i < px + nx) ==> after[i] == cells[i])
    && (forall i :: 0 <= i < |cells| && Vacated(i, dx, px, nx) && after[i].payload.Offset? ==>
          after[i].payload.at >= size)
  }

  lemma MovedOnly(cells: seq<Entry>, copied: seq<Entry>, after: seq<Entry>, size: nat, dx: nat, px: nat, nx: nat)
    requires EntriesOk(cells, size) && dx + nx <= |cells| && px + nx <= |cells| && |after| == |cells|
    requires copied == cells[..dx] + cells[px..px + nx] + cells[dx + nx..]
    requires forall i :: 0 <= i < |after| && !Vacated(i, dx, px, nx) ==> after[i] == copied[i]
    requires forall i :: 0 <= i < |after| && Vacated(i, dx, px, nx) && after[i].payload.Offset? ==>
      after[i].payload.at >= size
    ensures Moved(cells, after, size, dx, px, nx)
  {
    hide EntriesOk;
  }

  // Giving the originals no slot, or a fresh one, leaves no slot shared.
  lemma MovedDistinct(cells: seq<Entry>, after: seq<Entry>, size: nat, dx: nat, px: nat, nx: nat)
    requires Moved(cells, after, size, dx, px, nx) && NoSharedSlot(cells)
    requires forall i, j :: (
      0 <= i < j < |cells| && Vacated(i, dx, px, nx) && Vacated(j, dx, px, nx)
      && after[i].payload.Offset? && after[j].payload.Offset?
      ==> after[i].payload.at != after[j].payload.at)
    ensures NoSharedSlot(after)
  {
    forall i, j | 0 <= i < j < |cells| && after[i].payload.Offset? && after[j].payload.Offset?
      ensures after[i].payload.at != after[j].payload.at
    {
      var k := if dx <= i < dx + nx then i - dx + px else i;
      var m := if dx <= j < dx + nx then j - dx + px else j;
      assert EntryOk(cells[k], size) && EntryOk(cells[m], size);
    }
  }

  lemma MovedReads(cells: seq<Entry>, extd: seq<ExtdEntry>, after: seq<Entry>, extd2: seq<ExtdEntry>,
                   dx: nat, px: nat, nx: nat, bg: Colour)
    requires Moved(cells, after, |extd|, dx, px, nx)
    requires |extd| <= |extd2| && extd2[..|extd|] == extd
    ensures forall i :: dx <= i < dx + nx ==> ReadEntry(after[i], extd2) == ReadEntry(cells[i - dx + px], extd)
    ensures forall i :: 0 <= i < |cells| && !(dx <= i < dx + nx) && !(px <= i < px + nx) ==>
      ReadEntry(after[i], extd2) == ReadEntry(cells[i], extd)
  {
    assert forall k :: 0 <= k < |extd| ==> extd2[k] == extd[k];
    forall i | 0 <= i < |cells| && !Vacated(i, dx, px, nx)
      ensures ReadEntry(after[i], extd2) == ReadEntry(cells[if dx <= i < dx + nx then i - dx + px else i], extd)
    {
      assert EntryOk(cells[if dx <= i < dx + nx then i - dx + px else i], |extd|);
    }
  }

  function Repacked(cells: seq<Entry>, i: nat): Entry
    requires i < |cells|
  {
    if cells[i].payload.Offset? then cells[i].(payload := Offset(CountExtended(cells, i))) else cells[i]
  }

  // Repacking gives every extended entry its own slot and changes no read.
  lemma RepackedReads(cells: seq<Entry>, extd: seq<ExtdEntry>, celldata: seq<Entry>, packed: seq<ExtdEntry>)
    requires EntriesOk(cells, |extd|) && |celldata| == |cells| && |packed| == CountExtended(cells, |cells|)
    requires forall i :: 0 <= i < |cells| ==> celldata[i] == Repacked(cells, i)
    requires forall i :: 0 <= i < |cells| && cells[i].payload.Offset? ==>
      CountExtended(cells, i) < |packed| && packed[CountExtended(cells, i)] == extd[cells[i].payload.at]
    ensures EntriesOk(celldata, |packed|) && NoSharedSlot(celldata)
    ensures forall i :: 0 <= i < |cells| ==> ReadEntry(celldata[i], packed) == ReadEntry(cells[i], extd)
    ensures CountExtended(celldata, |celldata|) == |packed|
  {
    CountExtendedSame(cells, celldata, |cells|);
    RepackedDistinct(cells, celldata);
    assert forall i :: 0 <= i < |cells| ==> EntryOk(cells[i], |extd|);
  }

  lemma RepackedDistinct(cells: seq<Entry>, celldata: seq<Entry>)
    requires |celldata| == |cells| && forall i :: 0 <= i < |cells| ==> celldata[i] == Repacked(cells, i)
    ensures NoSharedSlot(celldata)
  {
    forall i, j | 0 <= i < j < |cells| && celldata[i].payload.Offset? && celldata[j].payload.Offset?
      ensures celldata[i].payload.at < celldata[j].payload.at
    {
      assert CountExtended(cells, i + 1) == CountExtended(cells, i) + 1;
      CountExtendedMonotone(cells, i + 1, j);
    }
  }

  lemma NormDefault()
    ensures Norm(DEFAULT_CELL) == DEFAULT_CELL == Blank(Indexed(8))
  {
    assert DEFAULT_CELL.flags - {CLEARED} == {};
  }

  lemma {:induction false} CountExtendedSame(a: seq<Entry>, b: seq<Entry>, n: nat)
    requires n <= |a| == |b|
    requires forall i :: 0 <= i < n ==> a[i].payload.Offset? == b[i].payload.Offset?
    ensures CountExtended(a, n) == CountExtended(b, n)
  {
    if n > 0 {
      CountExtendedSame(a, b, n - 1);
    }
  }

  method PerformSet(line: GridLine, op: Op, gdsx: nat, ghost a: seq<Cell>)
    requires line.Valid() && line.Shows(a) && Legal(op, gdsx) && op.Set?
    modifies line
    ensures line.Valid() && line.Shows(Apply(op, a, gdsx))
  {
    line.SetCell(op.px, op.gc, gdsx);
  }

  method PerformSetRun(line: GridLine, op: Op, gdsx: nat, ghost a: seq<Cell>)
    requires line.Valid() && line.Shows(a) && Legal(op, gdsx) && op.SetRun?
    modifies line
    ensures line.Valid() && line.Shows(Apply(op, a, gdsx))
  {
    line.SetCells(op.px, op.gc, op.text, gdsx);
    assert forall i: nat :: i < |op.text| ==> Run(op.gc, op.text)[i] == Norm(WithByte(op.gc, op.text[i]));
  }

  method PerformClear(line: GridLine, op: Op, gdsx: nat, ghost a: seq<Cell>)
    requires line.Valid() && line.Shows(a) && Legal(op, gdsx) && op.Clear?
    modifies line
    ensures line.Valid() && line.Shows(Apply(op, a, gdsx))
  {
    NormDefault();
    ghost var stored := |line.celldata|;
    assert forall i: nat :: i >= stored ==> Get(a, i) == DEFAULT_CELL;
    line.Clear(op.px, op.nx, op.bg, gdsx);
    ghost var b := Apply(op, a, gdsx);
    forall i: nat
      ensures Get(b, i) == Cleared(i, Get(a, i), op.px, op.nx, op.bg, stored, gdsx)
    {
    }
  }

  method PerformMove(line: GridLine, dx: nat, px: nat, nx: nat, bg: Colour, gdsx: nat,
                     ghost a: seq<Cell>, ghost b: seq<Cell>)
    requires line.Valid() && line.Shows(a)
    requires forall i: nat {:trigger Get(b, i)} :: (
      Get(b, i) ==
      if px == dx then Get(a, i)
      else if dx <= i < dx + nx then Get(a, i - dx + px)
      else if px <= i < px + nx then Blank(bg)
      else Get(a, i))
    modifies line
    ensures line.Valid() && line.Shows(b)
  {
    line.MoveCells(dx, px, nx, bg, gdsx);
  }

  method Perform(line: GridLine, op: Op, gdsx: nat, ghost a: seq<Cell>)
    requires line.Valid() && line.Shows(a) && Legal(op, gdsx)
    modifies line
    ensures line.Valid() && line.Shows(Apply(op, a, gdsx))
  {
    hide Apply, Legal;
    match op {
      case Set(_, _) => PerformSet(line, op, gdsx, a);
      case SetRun(_, _, _) => PerformSetRun(line, op, gdsx, a);
      case Clear(_, _, _) => PerformClear(line, op, gdsx, a);
      case Move(dx, px, nx, bg) =>
        ApplyMove(a, dx, px, nx, bg, gdsx);
        PerformMove(line, dx, px, nx, bg, gdsx, a, Apply(op, a, gdsx));
      case Compact =>
        line.CompactLine();
        ApplyCompact(a, gdsx);
    }
  }

  lemma ApplyMove(a: seq<Cell>, dx: nat, px: nat, nx: nat, bg: Colour, sx: nat)
    ensures var b := Apply(Move(dx, px, nx, bg), a, sx);
      forall i: nat {:trigger Get(b, i)} :: (
        Get(b, i) ==
        if px == dx then Get(a, i)
        else if dx <= i < dx + nx then Get(a, i - dx + px)
        else if px <= i < px + nx then Blank(bg)
        else Get(a, i))
  {
  }

  lemma ApplyCompact(a: seq<Cell>, sx: nat)
    ensures Apply(Compact, a, sx) == a
  {
  }

  // Any run of operations leaves the line showing what the plain array shows.
  method Replay(line: GridLine, ops: seq<Op>, gdsx: nat, ghost a: seq<Cell>)
    requires line.Valid() && line.Shows(a)
    requires forall k :: 0 <= k < |ops| ==> Legal(ops[k], gdsx)
    modifies line
    ensures line.Valid() && line.Shows(ApplyAll(ops, a, gdsx))
  {
    for k := 0 to |ops|
      invariant line.Valid() && line.Shows(ApplyAll(ops[..k], a, gdsx))
    {
      Perform(line, ops[k], gdsx, ApplyAll(ops[..k], a, gdsx));
      assert ops[..k + 1][..k] == ops[..k];
    }
    assert ops[..|ops|] == ops;
  }
}

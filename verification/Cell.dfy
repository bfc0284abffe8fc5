// Grid cells: what one screen position shows.

module GridCell {

  newtype byte = x: int | 0 <= x < 256

  // Cell and cell-entry flags. FG256, BG256 and EXTENDED only ever appear in a stored entry.
  datatype Flag = FG256 | BG256 | PADDING | EXTENDED | SELECTED | NOPALETTE | CLEARED | TAB

  // A colour: the low byte of the source's integer together with the flag that says how to read it.
  datatype Colour = Indexed(n: byte) | Palette(n: byte) | Rgb(r: byte, g: byte, b: byte) | Theme(n: byte)
  {
    function Low(): byte {
      match this
      case Rgb(_, _, b) => b
      case _ => n
    }

    // COLOUR_DEFAULT: the pane default (8) or the terminal default (9).
    predicate IsDefault() {
      this == Indexed(8) || this == Indexed(9)
    }
  }

  // A character: its UTF-8 bytes and the number of columns it occupies.
  datatype Glyph = Glyph(bytes: seq<byte>, width: nat)

  datatype Cell = Cell(data: Glyph, attr: nat, flags: set<Flag>, fg: Colour, bg: Colour, us: Colour, link: nat)

  const SPACE := Glyph([32], 1)
  const PADDING_GLYPH := Glyph([], 0)
  const DEFAULT_CELL := Blank(Indexed(8))
  const CLEARED_CELL := DEFAULT_CELL.(flags := {CLEARED})

  function TabGlyph(width: nat): Glyph {
    Glyph(seq(width, _ => 32 as byte), width)
  }

  // A space on background bg.
  function Blank(bg: Colour): Cell {
    Cell(SPACE, 0, {}, Indexed(8), bg, Indexed(8), 0)
  }

  // Cells are compared without the CLEARED flag, which storing a cell drops.
  function Norm(c: Cell): Cell {
    c.(flags := c.flags - {CLEARED})
  }

  predicate IsDirect(c: Colour) {
    c.Rgb? || c.Theme?
  }

  // Whether a cell is too rich for a compact entry, whatever was stored there before.
  predicate NeedsExtended(c: Cell) {
    || c.attr > 0xff
    || |c.data.bytes| > 1
    || c.data.width > 1
    || IsDirect(c.fg)
    || IsDirect(c.bg)
    || c.us != Indexed(8)
    || c.link != 0
    || TAB in c.flags
  }

  // The cells that callers build: no entry-only flags, tabs and padding in their canonical form,
  // and every other character at least one byte and one column.
  predicate ValidCell(c: Cell) {
    && c.flags !! {FG256, BG256, EXTENDED}
    && c.attr < 0x10000
    && (TAB in c.flags ==> PADDING !in c.flags && c.data == TabGlyph(c.data.width))
    && (PADDING in c.flags ==> c.data == PADDING_GLYPH)
    && (c.flags !! {TAB, PADDING} ==>
          |c.data.bytes| > 1 || c.data.width > 1 || (|c.data.bytes| == 1 && c.data.width == 1))
  }
}

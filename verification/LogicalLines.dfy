// Reflow and the cursor in terms of logical lines.

module LogicalLines {
  import opened GridCell
  import opened Grids
  import opened Reflow

  // ----- Chunking -----

  // A line reduced to what reflow is about: its cells and whether it is wrapped.
  function Plain(cells: seq<Cell>, wrapped: bool): Line {
    EMPTY_LINE.(cells := cells, wrapped := wrapped)
  }

  function PlainAll(lines: seq<Line>): seq<Line> {
    seq(|lines|, i requires 0 <= i < |lines| => Plain(lines[i].cells, lines[i].wrapped))
  }

  // The logical lines: each runs from after an unwrapped line to the next one, or to the end.
  function Logical(lines: seq<Line>): (r: seq<seq<Cell>>)
    ensures lines != [] ==> r != []
  {
    if lines == [] then []
    else if !lines[0].wrapped || |lines| == 1 then [lines[0].cells] + Logical(lines[1..])
    else
      var r := Logical(lines[1..]);
      [lines[0].cells + r[0]] + r[1..]
  }

  // A logical line cut into pieces of sx cells, wrapped on all but the last.
  function Chop(cells: seq<Cell>, sx: nat): seq<Line>
    requires sx > 0
    decreases |cells|
  {
    if |cells| <= sx then [Plain(cells, false)]
    else [Plain(cells[..sx], true)] + Chop(cells[sx..], sx)
  }

  function ChopAll(ls: seq<seq<Cell>>, sx: nat): seq<Line>
    requires sx > 0
  {
    if ls == [] then [] else Chop(ls[0], sx) + ChopAll(ls[1..], sx)
  }

  function BlankLines(n: nat): seq<Line> {
    seq(n, _ => EMPTY_LINE)
  }

  // The specification of grid_reflow on a screen of sy lines.
  function Rewrapped(ls: seq<seq<Cell>>, sx: nat, sy: nat): seq<Line>
    requires sx > 0
  {
    var t := ChopAll(ls, sx);
    t + BlankLines(if |t| < sy then sy - |t| else 0)
  }

  lemma PlainAllCons(l: Line, rest: seq<Line>)
    ensures PlainAll([l] + rest) == [Plain(l.cells, l.wrapped)] + PlainAll(rest)
  {
  }

  lemma PlainAllConcat(a: seq<Line>, b: seq<Line>)
    ensures PlainAll(a + b) == PlainAll(a) + PlainAll(b)
  {
  }

  lemma LogicalFirst(lines: seq<Line>)
    requires lines != [] && lines[0].cells != []
    ensures Logical(lines)[0] != []
  {
  }

  lemma FilledTail(t: seq<Line>, sx: nat)
    requires t != [] && Filled(t, sx)
    ensures Filled(t[1..], sx) && |t[0].cells| <= sx
    ensures t[0].wrapped ==> |t[0].cells| == sx && (|t| > 1 ==> t[1].cells != [])
  {
    var tail := t[1..];
    assert forall i :: 0 <= i < |tail| ==> tail[i] == t[i + 1];
  }

  // Lines filled to sx columns are exactly the chunks of their own logical lines.
  lemma {:induction false} FilledIsChopped(t: seq<Line>, sx: nat)
    requires Filled(t, sx) && !EndsWrapped(t) && sx > 0
    ensures PlainAll(t) == ChopAll(Logical(t), sx)
    decreases |t|
  {
    if t != [] {
      var l, rest := t[0], t[1..];
      assert t == [l] + rest;
      FilledTail(t, sx);
      FilledIsChopped(rest, sx);
      PlainAllCons(l, rest);
      if l.wrapped {
        var r := Logical(rest);
        LogicalFirst(rest);
        assert (l.cells + r[0])[..sx] == l.cells && (l.cells + r[0])[sx..] == r[0];
        assert ([l.cells + r[0]] + r[1..])[1..] == r[1..];
      } else {
        assert ([l.cells] + Logical(rest))[1..] == Logical(rest);
      }
    }
  }

  // ----- Logical lines are determined by the text with its Newlines -----

  function Paragraphs(ts: seq<Token>): seq<seq<Cell>> {
    if ts == [] then []
    else
      var r := Paragraphs(ts[1..]);
      if ts[0] == Newline then [[]] + r
      else if r == [] then [[ts[0].cell]]
      else [[ts[0].cell] + r[0]] + r[1..]
  }

  lemma {:induction false} ParagraphsRun(cells: seq<Cell>, ts: seq<Token>)
    requires Paragraphs(ts) != []
    ensures var r := Paragraphs(ts); Paragraphs(Chars(cells) + ts) == [cells + r[0]] + r[1..]
  {
    var r := Paragraphs(ts);
    if cells == [] {
      assert Chars(cells) + ts == ts && cells + r[0] == r[0];
    } else {
      var all := Chars(cells) + ts;
      assert all[1..] == Chars(cells[1..]) + ts;
      ParagraphsRun(cells[1..], ts);
      assert [cells[0]] + (cells[1..] + r[0]) == cells + r[0];
    }
  }

  lemma ParagraphsLine(cells: seq<Cell>, ts: seq<Token>)
    ensures Paragraphs(Chars(cells) + ([Newline] + ts)) == [cells] + Paragraphs(ts)
  {
    assert ([Newline] + ts)[1..] == ts;
    ParagraphsRun(cells, [Newline] + ts);
    assert cells + [] == cells;
  }

  ghost predicate NoneDead(lines: seq<Line>) {
    forall i :: 0 <= i < |lines| ==> !lines[i].dead
  }

  lemma {:induction false} LogicalIsParagraphs(lines: seq<Line>)
    requires NoneDead(lines) && !EndsWrapped(lines)
    ensures Logical(lines) == Paragraphs(Tokens(lines, true))
    decreases |lines|
  {
    if lines != [] {
      var l, rest := lines[0], lines[1..];
      var ts := Tokens(rest, true);
      assert lines == [l] + rest;
      TokensConcat([l], rest, true);
      TokensOne(l, true);
      LogicalIsParagraphs(rest);
      if l.wrapped {
        assert rest != [];
        ParagraphsRun(l.cells, ts);
        assert LineTokens(l, true) == Chars(l.cells);
      } else {
        ParagraphsLine(l.cells, ts);
        assert LineTokens(l, true) + ts == Chars(l.cells) + ([Newline] + ts);
      }
    }
  }

  lemma FlowingEnds(lines: seq<Line>)
    requires Flowing(lines)
    ensures !EndsWrapped(lines)
  {
  }

  // What reflow leaves behind is the chunks of the logical lines it was given.
  lemma ReflowedIsChopped(o: seq<Line>, t: seq<Line>, sx: nat)
    requires Reflowed(o, t, sx) && Flowing(o) && NoneDead(o) && sx > 0
    ensures PlainAll(t) == ChopAll(Logical(o), sx)
  {
    FlowingEnds(o);
    FlowingTied(o);
    LogicalIsParagraphs(o);
    LogicalIsParagraphs(t);
    FilledIsChopped(t, sx);
  }

  // ----- The whole of grid_reflow -----

  // The last `added` lines are empty, and there are none unless to fill a screen of sy lines.
  ghost predicate FilledOut(lines: seq<Line>, added: nat, sy: nat) {
    added <= |lines| && lines[|lines| - added..] == BlankLines(added) && (added > 0 ==> |lines| == sy)
  }

  // The logical lines are as they were, not counting lines added to fill the screen.
  ghost predicate LinesKept(o: seq<Line>, lines: seq<Line>, added: nat) {
    added <= |lines| && Tokens(lines[..|lines| - added], true) == Tokens(o, true)
  }

  // grid_reflow. Whatever the widths, the text is unchanged and, if every cell fits, no line is too
  // wide. If every cell is one column wide, the logical lines survive every width if and only if the lines
  // are tied; and if the lines are flowing the result is exactly the chunks of the logical lines and blank
  // lines only to fill the screen.
  method ReflowGrid(gd: Grid, sx: nat) returns (ghost added: nat, ghost stages: seq<Stage>)
    requires gd.Valid() && AllOk(gd.linedata) && sx > 0
    modifies gd
    ensures gd.Valid() && gd.sy == old(gd.sy) && gd.hscrolled <= gd.hsize
    ensures AllOk(gd.linedata) && FilledOut(gd.linedata, added, gd.sy)
    ensures Tokens(gd.linedata, false) == Tokens(old(gd.linedata), false)
    ensures AllFit(old(gd.linedata), sx) ==> Narrow(gd.linedata, sx)
    ensures UnitAll(old(gd.linedata)) && Tied(old(gd.linedata)) ==> LinesKept(old(gd.linedata), gd.linedata, added)
    ensures Wide(old(gd.linedata), sx) && !Tied(old(gd.linedata)) ==>
      Ends(gd.linedata[..|gd.linedata| - added]) > Ends(old(gd.linedata))
    ensures Wide(old(gd.linedata), sx) ==>
      (LinesKept(old(gd.linedata), gd.linedata, added) <==> Tied(old(gd.linedata)))
    ensures UnitAll(old(gd.linedata)) && Tied(old(gd.linedata)) && !EndsWrapped(old(gd.linedata)) ==>
      !EndsWrapped(gd.linedata) && Logical(gd.linedata) == Logical(old(gd.linedata)) + EmptyLines(added)
    ensures Flowing(old(gd.linedata)) ==>
      PlainAll(gd.linedata) == Rewrapped(Logical(old(gd.linedata)), sx, gd.sy) && Flowing(gd.linedata)
    ensures |gd.linedata| >= added && Stages(stages, |old(gd.linedata)|, |gd.linedata| - added)
    ensures var h := ScrollAll(old(gd.hscrolled), stages, |old(gd.linedata)|, |gd.linedata| - added);
      gd.hscrolled == if h > gd.hsize then gd.hsize else h
  {
    hide Stages, ScrollAll, Reflowed, FilledOut, Tied, UnitAll, Wide, Flowing, AllFit, Narrow, AllOk, Rewrapped, Ends, Tokens;
    ghost var o := gd.linedata;
    var target := new Grid(gd.sx, 0, 0);
    assert target.linedata == [];
    stages := ReflowLoop(target, gd, sx);
    ghost var t := target.linedata;
    added := 0;
    if target.sy < gd.sy {
      added := gd.sy - target.sy;
      target.linedata := target.linedata + seq(gd.sy - target.sy, _ => EMPTY_LINE);
      target.sy := gd.sy;
    }
    gd.hsize := target.sy - gd.sy;
    if gd.hscrolled > gd.hsize {
      gd.hscrolled := gd.hsize;
    }
    gd.linedata := target.linedata;
    assert gd.linedata == t + BlankLines(added);
    ReflowResult(o, t, gd.linedata, sx, gd.sy, added);
  }

  lemma {:induction false} TokensBlank(n: nat)
    ensures Tokens(BlankLines(n), false) == []
  {
    if n > 0 {
      assert BlankLines(n)[1..] == BlankLines(n - 1);
      TokensBlank(n - 1);
    }
  }

  lemma FilledFlows(t: seq<Line>, n: nat, sx: nat)
    requires Filled(t, sx) && !EndsWrapped(t) && NoneDead(t) && sx > 0
    ensures Flowing(t + BlankLines(n)) && AllOk(t + BlankLines(n))
  {
  }

  lemma ReflowResult(o: seq<Line>, t: seq<Line>, lines: seq<Line>, sx: nat, sy: nat, n: nat)
    requires Reflowed(o, t, sx) && AllOk(o) && sx > 0
    requires n == (if |t| < sy then sy - |t| else 0) && lines == t + BlankLines(n)
    ensures AllOk(lines) && FilledOut(lines, n, sy) && Tokens(lines, false) == Tokens(o, false)
    ensures AllFit(o, sx) ==> Narrow(lines, sx)
    ensures UnitAll(o) && Tied(o) ==> LinesKept(o, lines, n)
    ensures Wide(o, sx) && !Tied(o) ==> Ends(lines[..|lines| - n]) > Ends(o) && !LinesKept(o, lines, n)
    ensures Wide(o, sx) ==> UnitAll(o)
    ensures UnitAll(o) && Tied(o) && !EndsWrapped(o) ==> !EndsWrapped(lines) && Logical(lines) == Logical(o) + EmptyLines(n)
    ensures Flowing(o) ==> PlainAll(lines) == Rewrapped(Logical(o), sx, sy) && Flowing(lines)
  {
    hide Tied, UnitAll, Flowing, Filled, EndsWrapped, Logical;
    assert lines[..|lines| - n] == t && lines[|lines| - n..] == BlankLines(n);
    TokensConcat(t, BlankLines(n), false);
    TokensBlank(n);
    if UnitAll(o) && Tied(o) && !EndsWrapped(o) {
      TiedLogical(o, t, n);
    }
    if Flowing(o) {
      ReflowedIsChopped(o, t, sx);
      PlainAllConcat(t, BlankLines(n));
      assert PlainAll(BlankLines(n)) == BlankLines(n);
      FilledFlows(t, n, sx);
    }
  }

  // The logical lines are read off the text, and blank lines added are logical lines of their own.
  lemma TiedLogical(o: seq<Line>, t: seq<Line>, n: nat)
    requires AllOk(o) && AllOk(t) && !EndsWrapped(o) && !EndsWrapped(t) && Tokens(t, true) == Tokens(o, true)
    ensures !EndsWrapped(t + BlankLines(n)) && Logical(t + BlankLines(n)) == Logical(o) + EmptyLines(n)
  {
    hide Logical, Tokens;
    LogicalIsParagraphs(o);
    LogicalIsParagraphs(t);
    LogicalConcat(t, BlankLines(n));
    LogicalOfBlank(n);
  }

  // Every break ends a logical line.
  lemma {:induction false} EndsAreLogical(lines: seq<Line>)
    ensures Ends(lines) <= |Logical(lines)|
    decreases |lines|
  {
    if lines != [] {
      EndsAreLogical(lines[1..]);
      CountBoth(LineTokens(lines[0], true), Tokens(lines[1..], true));
      CountBoth(Chars(lines[0].cells), if lines[0].wrapped || lines[0].dead then [] else [Newline]);
      if |lines| == 1 {
        assert lines[1..] == [];
      }
    }
  }

  // A logical line that grid_reflow breaks: "x" and "y" wrapped, then an empty line. On three columns "xy"
  // is ended and the empty line becomes a logical line of its own.
  method BreakMadeUp(x: Cell, y: Cell) returns (gd: Grid, ghost before: seq<Line>, ghost added: nat)
    requires x.data.width == 1 && y.data.width == 1
    ensures gd.Valid() && FilledOut(gd.linedata, added, gd.sy)
    ensures AllOk(before) && Logical(before) == [[x, y]]
    ensures |Logical(gd.linedata[..|gd.linedata| - added])| > |Logical(before)|
  {
    hide Logical, Ends, Wide, Tied, AllOk, UnitAll, Flowing, LinesKept, Tokens, Rewrapped, AllFit, Narrow, PlainAll;
    gd := new Grid(1, 3, 0);
    gd.linedata := [Plain([x], true), Plain([y], true), EMPTY_LINE];
    before := gd.linedata;
    LooseThree(x, y);
    ghost var stages;
    added, stages := ReflowGrid(gd, 3);
    EndsAreLogical(gd.linedata[..|gd.linedata| - added]);
  }

  lemma LooseThree(x: Cell, y: Cell)
    requires x.data.width == 1 && y.data.width == 1
    ensures var o := [Plain([x], true), Plain([y], true), EMPTY_LINE];
      AllOk(o) && Wide(o, 3) && !Tied(o) && Ends(o) == 1 && Logical(o) == [[x, y]]
  {
    var a, b, o := Plain([x], true), Plain([y], true), [Plain([x], true), Plain([y], true), EMPTY_LINE];
    assert Loose(o, 0);
    assert o == ([a] + [b]) + [EMPTY_LINE];
    forall breaks: bool
      ensures Tokens(o, breaks) == [Char(x), Char(y)] + if breaks then [Newline] else []
    {
      TokensPush([a] + [b], EMPTY_LINE, breaks);
      TokensPush([a], b, breaks);
      TokensOne(a, breaks);
    }
    assert o[1..] == [b, EMPTY_LINE] && [b, EMPTY_LINE][1..] == [EMPTY_LINE];
    LogicalOne(EMPTY_LINE);
    assert Logical([b, EMPTY_LINE]) == [[y] + []];
    assert [x] + ([y] + []) == [x, y];
  }

  // ----- Reflowing twice -----

  lemma {:induction false} LogicalConcat(a: seq<Line>, b: seq<Line>)
    requires !EndsWrapped(a)
    ensures Logical(a + b) == Logical(a) + Logical(b)
    decreases |a|
  {
    if a == [] {
      assert a + b == b;
    } else {
      hide Logical;
      assert (a + b)[1..] == a[1..] + b;
      LogicalConcat(a[1..], b);
      LogicalStep(a);
      LogicalStep(a + b);
      var l, r, q := a[0].cells, Logical(a[1..]), Logical(b);
      if a[0].wrapped {
        ConcatTail(l + r[0], r, q);
      } else {
        ConcatHead(l, r, q);
      }
    }
  }

  lemma ConcatHead<T>(x: T, r: seq<T>, q: seq<T>)
    ensures ([x] + r) + q == [x] + (r + q)
  {
  }

  lemma ConcatTail<T>(x: T, r: seq<T>, q: seq<T>)
    requires r != []
    ensures (r + q)[0] == r[0] && ([x] + r[1..]) + q == [x] + (r + q)[1..]
  {
  }

  lemma LogicalStep(lines: seq<Line>)
    requires lines != []
    ensures var r := Logical(lines[1..]);
      if !lines[0].wrapped || |lines| == 1 then Logical(lines) == [lines[0].cells] + r
      else r != [] && Logical(lines) == [lines[0].cells + r[0]] + r[1..]
  {
  }

  lemma LogicalOne(l: Line)
    ensures Logical([l]) == [l.cells]
  {
  }

  lemma LogicalWrapped(l: Line, rest: seq<Line>)
    requires l.wrapped && rest != [] && !EndsWrapped(rest)
    ensures !EndsWrapped([l] + rest)
    ensures Logical([l] + rest) == [l.cells + Logical(rest)[0]] + Logical(rest)[1..]
  {
    assert ([l] + rest)[1..] == rest;
  }

  lemma {:induction false} ChopEnds(cells: seq<Cell>, sx: nat)
    requires sx > 0
    ensures !EndsWrapped(Chop(cells, sx)) && Logical(Chop(cells, sx)) == [cells]
    decreases |cells|
  {
    hide Logical;
    if |cells| > sx {
      var head, rest := Plain(cells[..sx], true), Chop(cells[sx..], sx);
      ChopEnds(cells[sx..], sx);
      LogicalWrapped(head, rest);
      assert cells[..sx] + cells[sx..] == cells;
    } else {
      LogicalOne(Plain(cells, false));
    }
  }

  // Chunking loses no logical line.
  lemma {:induction false} LogicalOfChopped(ls: seq<seq<Cell>>, sx: nat)
    requires sx > 0
    ensures Logical(ChopAll(ls, sx)) == ls && !EndsWrapped(ChopAll(ls, sx))
  {
    if ls != [] {
      ChopEnds(ls[0], sx);
      LogicalOfChopped(ls[1..], sx);
      LogicalConcat(Chop(ls[0], sx), ChopAll(ls[1..], sx));
    }
  }

  function EmptyLines(n: nat): seq<seq<Cell>> {
    seq(n, _ => [])
  }

  lemma {:induction false} LogicalOfBlank(n: nat)
    ensures Logical(BlankLines(n)) == EmptyLines(n)
  {
    if n > 0 {
      assert BlankLines(n)[1..] == BlankLines(n - 1);
      LogicalOfBlank(n - 1);
    }
  }

  lemma {:induction false} ChopAllConcat(a: seq<seq<Cell>>, b: seq<seq<Cell>>, sx: nat)
    requires sx > 0
    ensures ChopAll(a + b, sx) == ChopAll(a, sx) + ChopAll(b, sx)
  {
    if a == [] {
      assert a + b == b;
    } else {
      assert (a + b)[1..] == a[1..] + b;
      ChopAllConcat(a[1..], b, sx);
    }
  }

  lemma {:induction false} ChopAllEmpty(n: nat, sx: nat)
    requires sx > 0
    ensures ChopAll(EmptyLines(n), sx) == BlankLines(n)
  {
    if n > 0 {
      assert EmptyLines(n)[1..] == EmptyLines(n - 1);
      ChopAllEmpty(n - 1, sx);
    }
  }

  // Rewrapping to a and then to b is rewrapping to b, but for blank lines at the end.
  lemma RewrappedTwice(ls: seq<seq<Cell>>, a: nat, b: nat, sy: nat)
    requires a > 0 && b > 0
    ensures exists m: nat :: Rewrapped(Logical(Rewrapped(ls, a, sy)), b, sy) == Rewrapped(ls, b, sy) + BlankLines(m)
  {
    hide Logical, ChopAll, EndsWrapped;
    var t, u := ChopAll(ls, a), ChopAll(ls, b);
    var k := if |t| < sy then sy - |t| else 0;
    LogicalOfChopped(ls, a);
    LogicalConcat(t, BlankLines(k));
    LogicalOfBlank(k);
    ChopAllConcat(ls, EmptyLines(k), b);
    ChopAllEmpty(k, b);
    var n := if |u| < sy then sy - |u| else 0;
    var n2 := if |u| + k < sy then sy - |u| - k else 0;
    assert Logical(Rewrapped(ls, a, sy)) == ls + EmptyLines(k);
    assert Rewrapped(Logical(Rewrapped(ls, a, sy)), b, sy) == (u + BlankLines(k)) + BlankLines(n2);
    BlanksRegroup(u, k, n2, n);
  }

  lemma BlanksRegroup(u: seq<Line>, k: nat, n2: nat, n: nat)
    requires n <= k + n2
    ensures (u + BlankLines(k)) + BlankLines(n2) == (u + BlankLines(n)) + BlankLines(k + n2 - n)
  {
  }

  lemma {:induction false} LogicalOfPlain(lines: seq<Line>)
    ensures Logical(PlainAll(lines)) == Logical(lines)
  {
    if lines != [] {
      assert lines == [lines[0]] + lines[1..];
      PlainAllCons(lines[0], lines[1..]);
      LogicalOfPlain(lines[1..]);
    }
  }

  method ReflowTwice(gd: Grid, a: nat, b: nat)
    requires gd.Valid() && AllOk(gd.linedata) && Flowing(gd.linedata) && a > 0 && b > 0
    modifies gd
    ensures gd.Valid() && gd.sy == old(gd.sy)
    ensures exists m: nat ::
      PlainAll(gd.linedata) == Rewrapped(Logical(old(gd.linedata)), b, gd.sy) + BlankLines(m)
  {
    ghost var ls := Logical(gd.linedata);
    ghost var _, _ := ReflowGrid(gd, a);
    LogicalOfPlain(gd.linedata);
    ghost var _, _ := ReflowGrid(gd, b);
    RewrappedTwice(ls, a, b, gd.sy);
  }

  // ----- The cursor -----

  const UINT_MAX := 0xFFFF_FFFF

  // How many logical lines end before line py, and how many cells of the line's own logical line come
  // before it.
  function Breaks(lines: seq<Line>, py: nat): nat
    requires py <= |lines|
  {
    if py == 0 then 0 else Breaks(lines, py - 1) + if lines[py - 1].wrapped then 0 else 1
  }

  function Lead(lines: seq<Line>, py: nat): nat
    requires py <= |lines|
  {
    if py == 0 || !lines[py - 1].wrapped then 0 else Lead(lines, py - 1) + |lines[py - 1].cells|
  }

  // Cell px of line py is cell wx of logical line wy.
  ghost predicate At(lines: seq<Line>, px: nat, py: nat, wx: nat, wy: nat) {
    && py < |lines| && px < |lines[py].cells|
    && wx == Lead(lines, py) + px && wy == Breaks(lines, py)
  }

  lemma {:induction false} BreaksCons(l: Line, rest: seq<Line>, py: nat)
    requires py <= |rest|
    ensures Breaks([l] + rest, py + 1) == Breaks(rest, py) + if l.wrapped then 0 else 1
  {
    if py > 0 {
      BreaksCons(l, rest, py - 1);
    } else {
      assert Breaks([l] + rest, 0) == 0;
    }
  }

  lemma {:induction false} LeadCons(l: Line, rest: seq<Line>, py: nat)
    requires py <= |rest|
    ensures Lead([l] + rest, py + 1) ==
      Lead(rest, py) + if l.wrapped && Breaks(rest, py) == 0 then |l.cells| else 0
  {
    if py > 0 {
      LeadCons(l, rest, py - 1);
    } else {
      assert Lead([l] + rest, 0) == 0;
    }
  }

  // The logical position of a cell names that cell of the logical line.
  lemma {:induction false} AtNames(lines: seq<Line>, px: nat, py: nat, wx: nat, wy: nat)
    requires At(lines, px, py, wx, wy)
    ensures wy < |Logical(lines)| && wx < |Logical(lines)[wy]| && Logical(lines)[wy][wx] == lines[py].cells[px]
    decreases |lines|
  {
    var l, rest := lines[0], lines[1..];
    assert lines == [l] + rest;
    if py > 0 {
      BreaksCons(l, rest, py - 1);
      LeadCons(l, rest, py - 1);
      var before := if l.wrapped && Breaks(rest, py - 1) == 0 then |l.cells| else 0;
      AtNames(rest, px, py - 1, wx - before, Breaks(rest, py - 1));
    }
  }

  // Every cell of every logical line has a position.
  lemma {:induction false} NamedHasPosition(lines: seq<Line>, wx: nat, wy: nat) returns (px: nat, py: nat)
    requires wy < |Logical(lines)| && wx < |Logical(lines)[wy]|
    ensures At(lines, px, py, wx, wy)
    decreases |lines|
  {
    var l, rest := lines[0], lines[1..];
    assert lines == [l] + rest;
    if wy == 0 && wx < |l.cells| {
      px, py := wx, 0;
    } else {
      var before := if l.wrapped && wy == 0 then |l.cells| else 0;
      px, py := NamedHasPosition(rest, wx - before, if l.wrapped then wy else wy - 1);
      BreaksCons(l, rest, py);
      LeadCons(l, rest, py);
      py := py + 1;
    }
  }

  lemma {:induction false} LeadGrows(lines: seq<Line>, p: nat, q: nat)
    requires p <= q <= |lines|
    ensures Breaks(lines, p) <= Breaks(lines, q)
    ensures p < q && Breaks(lines, p) == Breaks(lines, q) ==>
      lines[p].wrapped && Lead(lines, q) >= Lead(lines, p) + |lines[p].cells|
    decreases q
  {
    if p < q {
      LeadGrows(lines, p, q - 1);
    }
  }

  // A logical position names one cell only.
  lemma AtUnique(lines: seq<Line>, px: nat, py: nat, qx: nat, qy: nat, wx: nat, wy: nat)
    requires At(lines, px, py, wx, wy) && At(lines, qx, qy, wx, wy)
    ensures px == qx && py == qy
  {
    if py < qy {
      LeadGrows(lines, py, qy);
    } else {
      LeadGrows(lines, qy, py);
    }
  }

  function CellCount(lines: seq<Line>, n: nat): nat
    requires n <= |lines|
  {
    if n == 0 then 0 else CellCount(lines, n - 1) + |lines[n - 1].cells|
  }

  lemma {:induction false} LeadBounded(lines: seq<Line>, py: nat)
    requires py <= |lines|
    ensures Lead(lines, py) <= CellCount(lines, py)
  {
    if py > 0 {
      LeadBounded(lines, py - 1);
    }
  }

  lemma {:induction false} CellCountGrows(lines: seq<Line>, p: nat, q: nat)
    requires p <= q <= |lines|
    ensures CellCount(lines, p) <= CellCount(lines, q)
    decreases q
  {
    if p < q {
      CellCountGrows(lines, p, q - 1);
    }
  }

  // grid_wrap_position. A grid holds fewer than UINT_MAX cells, so UINT_MAX means past the end.
  method WrapPosition(lines: seq<Line>, px: nat, py: nat) returns (wx: nat, wy: nat)
    requires py < |lines| && CellCount(lines, |lines|) < UINT_MAX
    ensures px < |lines[py].cells| ==> At(lines, px, py, wx, wy) && wx != UINT_MAX
    ensures px >= |lines[py].cells| ==> wx == UINT_MAX && wy == Breaks(lines, py)
  {
    var ax, ay, yy := 0, 0, 0;
    while yy < py
      invariant yy <= py && ax == Lead(lines, yy) && ay == Breaks(lines, yy)
    {
      if lines[yy].wrapped {
        ax := ax + |lines[yy].cells|;
      } else {
        ax, ay := 0, ay + 1;
      }
      yy := yy + 1;
    }
    LeadBounded(lines, py);
    CellCountGrows(lines, py + 1, |lines|);
    if px >= |lines[yy].cells| {
      ax := UINT_MAX;
    } else {
      ax := ax + px;
    }
    return ax, ay;
  }

  // The last line of logical line wy.
  ghost predicate EndOf(lines: seq<Line>, py: nat, wy: nat) {
    py < |lines| && Breaks(lines, py) == wy && (py + 1 < |lines| ==> !lines[py].wrapped)
  }

  // grid_unwrap_position. Looking past the end stops at the last line; looking for a cell only stays
  // in the grid if the cell exists or the last line is not wrapped.
  method UnwrapPosition(lines: seq<Line>, wx0: nat, wy: nat) returns (px: nat, py: nat)
    requires lines != []
    requires wx0 == UINT_MAX || !EndsWrapped(lines) || exists x, y :: At(lines, x, y, wx0, wy)
    ensures py < |lines|
    ensures wx0 != UINT_MAX ==> forall x, y :: At(lines, x, y, wx0, wy) ==> px == x && py == y
    ensures wx0 == UINT_MAX && wy <= Breaks(lines, |lines| - 1) ==> EndOf(lines, py, wy) && px == |lines[py].cells|
  {
    var yy, ay, ey := 0, 0, |lines| - 1;
    while yy < |lines| - 1 && ay != wy
      invariant yy < |lines| && ay == Breaks(lines, yy)
      invariant yy > 0 ==> Breaks(lines, yy - 1) != wy
      invariant ay <= wy
    {
      if !lines[yy].wrapped {
        ay := ay + 1;
      }
      yy := yy + 1;
    }
    var wx: nat := wx0;
    if wx == UINT_MAX {
      while yy < ey && lines[yy].wrapped
        invariant yy < |lines| && ay == Breaks(lines, yy)
      {
        yy := yy + 1;
      }
      wx := |lines[yy].cells|;
    } else {
      forall x: nat, y: nat | At(lines, x, y, wx0, wy)
        ensures ay == wy && yy <= y && Lead(lines, yy) == 0
      {
        StartFound(lines, x, y, wx0, wy, yy);
      }
      while lines[yy].wrapped && wx >= |lines[yy].cells|
        invariant yy < |lines|
        invariant forall x, y :: At(lines, x, y, wx0, wy) ==>
          Breaks(lines, yy) == wy && wx0 == Lead(lines, yy) + wx && yy <= y
        decreases |lines| - yy
      {
        forall x: nat, y: nat | At(lines, x, y, wx0, wy)
          ensures yy < y
        {
        }
        wx, yy := wx - |lines[yy].cells|, yy + 1;
      }
      forall x: nat, y: nat | At(lines, x, y, wx0, wy)
        ensures wx == x && yy == y
      {
        if yy < y {
          LeadGrows(lines, yy, y);
        }
      }
    }
    return wx, yy;
  }

  // The first line whose count of breaks is wy starts logical line wy.
  lemma StartFound(lines: seq<Line>, x: nat, y: nat, wx: nat, wy: nat, yy: nat)
    requires At(lines, x, y, wx, wy) && yy < |lines|
    requires Breaks(lines, yy) <= wy && (yy > 0 ==> Breaks(lines, yy - 1) != wy)
    requires yy == |lines| - 1 || Breaks(lines, yy) == wy
    ensures Breaks(lines, yy) == wy && yy <= y && Lead(lines, yy) == 0
  {
    LeadGrows(lines, y, |lines| - 1);
    if y < yy {
      LeadGrows(lines, y, yy - 1);
    }
  }

  // grid_unwrap_position undoes grid_wrap_position for every cell of every grid.
  method WrapThenUnwrap(lines: seq<Line>, px: nat, py: nat) returns (qx: nat, qy: nat)
    requires py < |lines| && px < |lines[py].cells| && CellCount(lines, |lines|) < UINT_MAX
    ensures qx == px && qy == py
  {
    var wx, wy := WrapPosition(lines, px, py);
    qx, qy := UnwrapPosition(lines, wx, wy);
  }

  lemma {:induction false} BreaksOfPlain(lines: seq<Line>, py: nat)
    requires py <= |lines|
    ensures Breaks(PlainAll(lines), py) == Breaks(lines, py)
  {
    if py > 0 {
      BreaksOfPlain(lines, py - 1);
    }
  }

  // A grid that ends its last logical line has as many logical lines as breaks.
  lemma {:induction false} LogicalCount(lines: seq<Line>)
    requires !EndsWrapped(lines)
    ensures |Logical(lines)| == Breaks(lines, |lines|)
    decreases |lines|
  {
    if lines != [] {
      var l, rest := lines[0], lines[1..];
      assert lines == [l] + rest;
      LogicalCount(rest);
      BreaksCons(l, rest, |rest|);
    }
  }

  // Rewrapping keeps every logical line where it was and only adds empty ones after them.
  lemma LogicalOfRewrapped(ls: seq<seq<Cell>>, sx: nat, sy: nat)
    requires sx > 0
    ensures exists k: nat :: Logical(Rewrapped(ls, sx, sy)) == ls + EmptyLines(k)
  {
    var t := ChopAll(ls, sx);
    var k := if |t| < sy then sy - |t| else 0;
    LogicalOfChopped(ls, sx);
    LogicalConcat(t, BlankLines(k));
    LogicalOfBlank(k);
    assert Logical(Rewrapped(ls, sx, sy)) == ls + EmptyLines(k);
  }

  // The cursor's part of screen_reflow, on a grid whose logical lines reflow keeps: the cursor stays on the
  // same cell of the same logical line, or, if it was past the end of its line, goes to the end of the same
  // logical line.
  method ReflowCursor(gd: Grid, sx: nat, cx: nat, cy: nat) returns (nx: nat, ny: nat)
    requires gd.Valid() && AllOk(gd.linedata) && sx > 0
    requires UnitAll(gd.linedata) && Tied(gd.linedata) && !EndsWrapped(gd.linedata)
    requires cy < |gd.linedata| && CellCount(gd.linedata, |gd.linedata|) < UINT_MAX
    modifies gd
    ensures gd.Valid() && exists n: nat :: Logical(gd.linedata) == Logical(old(gd.linedata)) + EmptyLines(n)
    ensures Flowing(old(gd.linedata)) ==> PlainAll(gd.linedata) == Rewrapped(Logical(old(gd.linedata)), sx, gd.sy)
    ensures ny < |gd.linedata| && Breaks(gd.linedata, ny) == Breaks(old(gd.linedata), cy)
    ensures cx < |old(gd.linedata)[cy].cells| ==>
      && At(gd.linedata, nx, ny, Lead(old(gd.linedata), cy) + cx, Breaks(old(gd.linedata), cy))
      && gd.linedata[ny].cells[nx] == old(gd.linedata)[cy].cells[cx]
    ensures cx >= |old(gd.linedata)[cy].cells| ==>
      EndOf(gd.linedata, ny, Breaks(old(gd.linedata), cy)) && nx == |gd.linedata[ny].cells|
  {
    hide Logical, Tied, UnitAll, Flowing, LineOk, Tokens, Rewrapped, EndsWrapped, AllFit, Narrow, Wide, LinesKept, FilledOut;
    ghost var o := gd.linedata;
    var wx, wy := WrapPosition(gd.linedata, cx, cy);
    ghost var added, stages := ReflowGrid(gd, sx);
    CursorKept(o, gd.linedata, added, cx, cy, wx, wy);
    nx, ny := UnwrapPosition(gd.linedata, wx, wy);
    if cx < |o[cy].cells| {
      AtNames(o, cx, cy, wx, wy);
      ghost var x, y := NamedHasPosition(gd.linedata, wx, wy);
      AtNames(gd.linedata, x, y, wx, wy);
    }
  }

  lemma CursorKept(o: seq<Line>, lines: seq<Line>, n: nat, cx: nat, cy: nat, wx: nat, wy: nat)
    requires !EndsWrapped(o) && !EndsWrapped(lines) && cy < |o| && wy == Breaks(o, cy)
    requires Logical(lines) == Logical(o) + EmptyLines(n)
    requires cx < |o[cy].cells| ==> At(o, cx, cy, wx, wy)
    ensures lines != [] && wy <= Breaks(lines, |lines| - 1)
    ensures cx < |o[cy].cells| ==>
      && wy < |Logical(lines)| && wx < |Logical(lines)[wy]|
      && Logical(lines)[wy][wx] == o[cy].cells[cx]
  {
    LogicalCount(o);
    LogicalCount(lines);
    LeadGrows(o, cy, |o| - 1);
    if cx < |o[cy].cells| {
      AtNames(o, cx, cy, wx, wy);
    }
  }
}

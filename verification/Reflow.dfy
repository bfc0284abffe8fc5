// grid_reflow: re-wrapping every line of a grid to a new width in one pass.

module Reflow {
  import opened GridCell
  import opened Grids

  // ----- What a sequence of lines says -----

  // The text of the lines in order; with breaks, a Newline ends every line that is not wrapped.
  datatype Token = Char(cell: Cell) | Newline

  function Chars(cells: seq<Cell>): (r: seq<Token>)
    ensures |r| == |cells|
  {
    seq(|cells|, i requires 0 <= i < |cells| => Char(cells[i]))
  }

  function LineTokens(l: Line, breaks: bool): seq<Token> {
    Chars(l.cells) + if breaks && !l.wrapped && !l.dead then [Newline] else []
  }

  function Tokens(lines: seq<Line>, breaks: bool): seq<Token> {
    if lines == [] then [] else LineTokens(lines[0], breaks) + Tokens(lines[1..], breaks)
  }

  function Width(cells: seq<Cell>): nat {
    if cells == [] then 0 else Width(cells[..|cells| - 1]) + cells[|cells| - 1].data.width
  }

  // Every cell is one column wide.
  ghost predicate Unit(cells: seq<Cell>) {
    forall i :: 0 <= i < |cells| ==> cells[i].data.width == 1
  }

  ghost predicate Fits(cells: seq<Cell>, sx: nat) {
    forall i :: 0 <= i < |cells| ==> cells[i].data.width <= sx
  }

  ghost predicate LineOk(l: Line) {
    !l.dead && l.Compact()
  }

  ghost predicate AllOk(lines: seq<Line>) {
    forall i :: 0 <= i < |lines| ==> LineOk(lines[i])
  }

  ghost predicate UnitAll(lines: seq<Line>) {
    forall i :: 0 <= i < |lines| ==> Unit(lines[i].cells)
  }

  // An empty line that ends its logical line and carries no markers.
  predicate Bare(l: Line) {
    !l.wrapped && l.cells == [] && l.marks == map[]
  }

  // Two wrapped lines and then a bare one.
  predicate Loose(lines: seq<Line>, i: nat) {
    i + 2 < |lines| && lines[i].wrapped && lines[i + 1].wrapped && Bare(lines[i + 2])
  }

  // Lines whose logical lines survive reflow to every width: see Reflowed below.
  ghost predicate Tied(lines: seq<Line>) {
    forall i: nat :: !Loose(lines, i)
  }

  // The line after a wrapped line exists and, unless it is itself wrapped, is not empty.
  ghost predicate Continues(rest: seq<Line>) {
    rest != [] && (rest[0].wrapped || rest[0].cells != [])
  }

  // Lines that reflow turns into the chunks of their logical lines.
  ghost predicate Flowing(lines: seq<Line>) {
    && UnitAll(lines)
    && (forall i :: 0 <= i < |lines| && lines[i].wrapped ==>
          i + 1 < |lines| && (lines[i + 1].wrapped || lines[i + 1].cells != []))
  }

  lemma FlowingTail(lines: seq<Line>)
    requires lines != [] && Flowing(lines)
    ensures Unit(lines[0].cells) && Flowing(lines[1..]) && (lines[0].wrapped ==> Continues(lines[1..]))
  {
    var tail := lines[1..];
    assert forall i :: 0 <= i < |tail| ==> tail[i] == lines[i + 1];
  }

  lemma FlowingPush(l: Line, rest: seq<Line>)
    requires Unit(l.cells) && Flowing(rest) && (l.wrapped ==> Continues(rest))
    ensures Flowing([l] + rest)
  {
    var all := [l] + rest;
    assert forall i :: 0 < i < |all| ==> all[i] == rest[i - 1];
  }

  // Wrapped to exactly sx columns: wrapped lines are full, and what follows them is not empty.
  ghost predicate Filled(lines: seq<Line>, sx: nat) {
    forall i :: 0 <= i < |lines| ==>
      && Unit(lines[i].cells) && |lines[i].cells| <= sx
      && (lines[i].wrapped ==> |lines[i].cells| == sx)
      && (i > 0 && lines[i - 1].wrapped ==> lines[i].cells != [])
  }

  ghost predicate EndsWrapped(lines: seq<Line>) {
    lines != [] && lines[|lines| - 1].wrapped
  }

  lemma {:induction false} TokensConcat(a: seq<Line>, b: seq<Line>, breaks: bool)
    ensures Tokens(a + b, breaks) == Tokens(a, breaks) + Tokens(b, breaks)
  {
    if a == [] {
      assert a + b == b;
    } else {
      assert (a + b)[1..] == a[1..] + b;
      TokensConcat(a[1..], b, breaks);
    }
  }

  lemma TokensOne(l: Line, breaks: bool)
    ensures Tokens([l], breaks) == LineTokens(l, breaks)
  {
    assert Tokens([l][1..], breaks) == [];
  }

  lemma {:induction false} TokensDead(lines: seq<Line>, breaks: bool)
    requires forall i :: 0 <= i < |lines| ==> lines[i].dead && lines[i].cells == []
    ensures Tokens(lines, breaks) == []
  {
    if lines != [] {
      TokensDead(lines[1..], breaks);
    }
  }

  // The last lines of t and t2 differ in cells and markers only.
  ghost predicate SameLast(t: seq<Line>, t2: seq<Line>) {
    && t != [] && |t2| == |t| && t2[..|t| - 1] == t[..|t| - 1]
    && var a, b := t[|t| - 1], t2[|t| - 1];
       b.wrapped == a.wrapped && b.dead == a.dead && (a.Compact() ==> b.Compact())
  }

  // t2 is t with more cells on its last line.
  ghost predicate Grown(t: seq<Line>, t2: seq<Line>, more: seq<Cell>) {
    SameLast(t, t2) && t2[|t| - 1].cells == t[|t| - 1].cells + more
  }

  // Cells added to the last line come next in the text, with breaks only if that line is wrapped.
  lemma TokensAppend(t: seq<Line>, t2: seq<Line>, more: seq<Cell>, breaks: bool)
    requires Grown(t, t2, more) && (breaks ==> EndsWrapped(t))
    ensures Tokens(t2, breaks) == Tokens(t, breaks) + Chars(more)
  {
    hide Tokens, LineTokens, Chars;
    var n := |t| - 1;
    assert t == t[n := t[n]] && t2 == t[n := t2[n]];
    TokensLast(t, t[n], breaks);
    TokensLast(t, t2[n], breaks);
    LineGrown(t[n], t2[n], more, breaks);
  }

  lemma LineGrown(a: Line, b: Line, more: seq<Cell>, breaks: bool)
    requires b.cells == a.cells + more && b.wrapped == a.wrapped && b.dead == a.dead && (breaks ==> a.wrapped)
    ensures LineTokens(b, breaks) == LineTokens(a, breaks) + Chars(more)
  {
    assert Chars(b.cells) == Chars(a.cells) + Chars(more);
  }

  lemma TokensLast(t: seq<Line>, l: Line, breaks: bool)
    requires t != []
    ensures Tokens(t[|t| - 1 := l], breaks) == Tokens(t[..|t| - 1], breaks) + LineTokens(l, breaks)
  {
    assert t[|t| - 1 := l] == t[..|t| - 1] + [l];
    TokensPush(t[..|t| - 1], l, breaks);
  }

  lemma TokensPush(t: seq<Line>, l: Line, breaks: bool)
    ensures Tokens(t + [l], breaks) == Tokens(t, breaks) + LineTokens(l, breaks)
  {
    TokensConcat(t, [l], breaks);
    TokensOne(l, breaks);
  }

  lemma WidthPush(cells: seq<Cell>, c: Cell)
    ensures Width(cells + [c]) == Width(cells) + c.data.width
  {
    assert (cells + [c])[..|cells|] == cells;
  }

  lemma {:induction false} WidthConcat(a: seq<Cell>, b: seq<Cell>)
    ensures Width(a + b) == Width(a) + Width(b)
    decreases |b|
  {
    if b == [] {
      assert a + b == a;
    } else {
      assert (a + b)[..|a + b| - 1] == a + b[..|b| - 1];
      WidthConcat(a, b[..|b| - 1]);
    }
  }

  lemma {:induction false} WidthUnit(cells: seq<Cell>)
    requires Unit(cells)
    ensures Width(cells) == |cells|
    decreases |cells|
  {
    if cells != [] {
      WidthUnit(cells[..|cells| - 1]);
    }
  }

  // ----- Moving lines and cells between the two grids -----

  // grid_reflow_move_osc133: which markers leave a line and where they arrive.
  function MarksTaken(from: map<Marker, nat>, toCol: nat, count: nat, last: bool): map<Marker, nat> {
    map m | m in from && (last || from[m] < count) :: toCol + from[m]
  }

  function MarksLeft(from: map<Marker, nat>, count: nat, last: bool): map<Marker, nat> {
    map m | m in from && !(last || from[m] < count) :: from[m] - count
  }

  // Of the markers on the first count cells of a line, or of all if it is the last of them to go, each goes to
  // its column past toCol, in place of any there; the rest stay on their cells, now count cells further left.
  ghost predicate MarksMoved(from0: map<Marker, nat>, to0: map<Marker, nat>, from: map<Marker, nat>, to: map<Marker, nat>,
                             toCol: nat, count: nat, last: bool) {
    forall m: Marker ::
      if m in from0 && (last || from0[m] < count) then m !in from && m in to && to[m] == toCol + from0[m]
      else
        && (m in to <==> m in to0) && (m in to ==> to[m] == to0[m])
        && (m in from <==> m in from0) && (m in from ==> from[m] == from0[m] - count)
  }

  lemma MarksBothWays(from: map<Marker, nat>, to: map<Marker, nat>, toCol: nat, count: nat, last: bool)
    ensures MarksMoved(from, to, MarksLeft(from, count, last), to + MarksTaken(from, toCol, count, last), toCol, count, last)
  {
  }

  // grid_reflow_move
  method Move(target: Grid, gd: Grid, yy: nat)
    requires target != gd && target.Valid() && target.hsize == 0 && yy < |gd.linedata|
    modifies target`linedata, target`sy, gd`linedata
    ensures target.Valid() && target.linedata == old(target.linedata) + [old(gd.linedata[yy])]
    ensures gd.linedata == old(gd.linedata)[yy := DEAD_LINE]
  {
    target.linedata, target.sy := target.linedata + [gd.linedata[yy]], target.sy + 1;
    gd.linedata := gd.linedata[yy := DEAD_LINE];
  }

  function LastMarks(lines: seq<Line>): map<Marker, nat>
    requires lines != []
  {
    lines[|lines| - 1].marks
  }

  // How many cells of from fit in the space left.
  function Fit(from: seq<Cell>, space: nat): (n: nat)
    ensures n <= |from|
  {
    if from == [] || from[0].data.width > space then 0
    else 1 + Fit(from[1..], space - from[0].data.width)
  }

  lemma FitStep(from: seq<Cell>, want: nat, space: nat)
    requires want < |from| && from[want].data.width <= space
    ensures Fit(from[want..], space) == 1 + Fit(from[want + 1..], space - from[want].data.width)
  {
    assert from[want..][1..] == from[want + 1..];
  }

  lemma FitStop(from: seq<Cell>, space: nat)
    requires from == [] || from[0].data.width > space
    ensures Fit(from, space) == 0
  {
  }

  lemma {:induction false} FitUnit(from: seq<Cell>, space: nat)
    requires Unit(from)
    ensures Fit(from, space) == if |from| <= space then |from| else space
    decreases |from|
  {
    if from != [] && space > 0 {
      FitUnit(from[1..], space - 1);
    }
  }

  // The copying loops of grid_reflow_join: as much of from as fits goes on the end of the last line.
  method CopyRun(target: Grid, from: seq<Cell>, width0: nat, sx: nat) returns (want: nat, width: nat)
    requires target.linedata != [] && width0 <= sx
    modifies target`linedata
    ensures want == Fit(from, sx - width0)
    ensures width == width0 + Width(from[..want]) <= sx
    ensures Grown(old(target.linedata), target.linedata, from[..want])
    ensures target.linedata != [] && LastMarks(target.linedata) == LastMarks(old(target.linedata))
  {
    hide Line.SetCell, Fit;
    ghost var t0 := target.linedata;
    want, width := 0, width0;
    while want < |from| && width + from[want].data.width <= sx
      invariant want <= |from| && width0 <= width <= sx
      invariant target.linedata != [] && LastMarks(target.linedata) == LastMarks(t0)
      invariant width == width0 + Width(from[..want])
      invariant Fit(from, sx - width0) == want + Fit(from[want..], sx - width)
      invariant Grown(t0, target.linedata, from[..want])
    {
      ghost var t1 := target.linedata;
      var to := |target.linedata| - 1;
      var gl := target.linedata[to];
      target.linedata := target.linedata[to := gl.SetCell(|gl.cells|, from[want])];
      WidthPush(from[..want], from[want]);
      assert from[..want + 1] == from[..want] + [from[want]];
      GrownTwice(t0, t1, target.linedata, from[..want], [from[want]]);
      FitStep(from, want, sx - width);
      width, want := width + from[want].data.width, want + 1;
    }
    FitStop(from[want..], sx - width);
  }

  // The same line but for its markers.
  predicate SameText(a: Line, b: Line) {
    a == b.(marks := a.marks)
  }

  lemma {:induction false} TokensSame(a: seq<Line>, b: seq<Line>, breaks: bool)
    requires |a| == |b| && forall i :: 0 <= i < |a| ==> SameText(a[i], b[i])
    ensures Tokens(a, breaks) == Tokens(b, breaks)
  {
    if a != [] {
      TokensSame(a[1..], b[1..], breaks);
    }
  }

  // s is s0 but for the markers of line at.
  ghost predicate Remarked(s0: seq<Line>, s: seq<Line>, at: nat) {
    at < |s| == |s0| && s == s0[at := s[at]] && SameText(s[at], s0[at])
  }

  // Moving the markers of source line from onto the last target line.
  method TakeMarks(target: Grid, gd: Grid, from: nat, toCol: nat, count: nat, last: bool)
    requires target != gd && target.linedata != [] && from < |gd.linedata|
    modifies target`linedata, gd`linedata
    ensures Grown(old(target.linedata), target.linedata, [])
    ensures Remarked(old(gd.linedata), gd.linedata, from)
    ensures target.linedata != [] && MarksMoved(old(gd.linedata)[from].marks, LastMarks(old(target.linedata)),
                                                gd.linedata[from].marks, LastMarks(target.linedata), toCol, count, last)
  {
    var to := |target.linedata| - 1;
    var gl, fl := target.linedata[to], gd.linedata[from];
    MarksBothWays(fl.marks, gl.marks, toCol, count, last);
    target.linedata := target.linedata[to :=
      gl.(marks := gl.marks + MarksTaken(fl.marks, toCol, count, last))];
    gd.linedata := gd.linedata[from := fl.(marks := MarksLeft(fl.marks, count, last))];
  }

  lemma GrownTwice(t: seq<Line>, t2: seq<Line>, t3: seq<Line>, a: seq<Cell>, b: seq<Cell>)
    requires Grown(t, t2, a) && Grown(t2, t3, b)
    ensures Grown(t, t3, a + b)
  {
  }

  // One turn of the grid_reflow_join loop: source line `line` gives what it can to the last target line.
  method JoinLine(target: Grid, gd: Grid, sx: nat, line: nat, width0: nat)
    returns (taken: bool, want: nat, width: nat)
    requires target != gd && target.linedata != [] && line < |gd.linedata| && width0 <= sx
    modifies target`linedata, gd`linedata
    ensures var l := old(gd.linedata[line]);
      && taken == (if l.cells == [] then l.wrapped || l.marks != map[]
                   else width0 + l.cells[0].data.width <= sx)
      && want == (if taken then Fit(l.cells, sx - width0) else 0)
      && width == width0 + Width(l.cells[..want]) <= sx
      && Grown(old(target.linedata), target.linedata, l.cells[..want])
      && Remarked(old(gd.linedata), gd.linedata, line)
    ensures !taken ==> target.linedata == old(target.linedata) && gd.linedata == old(gd.linedata)
    ensures taken ==> target.linedata != [] && var l, t := old(gd.linedata[line]), old(target.linedata);
      MarksMoved(l.marks, LastMarks(t), gd.linedata[line].marks, LastMarks(target.linedata),
                 |t[|t| - 1].cells|, want, want == |l.cells|)
  {
    hide MarksMoved;
    taken, want, width := false, 0, width0;
    var l := gd.linedata[line];
    var at := |target.linedata[|target.linedata| - 1].cells|;
    ghost var t0 := target.linedata;
    if l.cells == [] {
      if l.wrapped || l.marks != map[] {
        taken := true;
        TakeMarks(target, gd, line, at, 0, true);
      }
    } else if width + l.cells[0].data.width <= sx {
      taken := true;
      want, width := CopyRun(target, l.cells, width, sx);
      ghost var t1 := target.linedata;
      TakeMarks(target, gd, line, at, want, want == |l.cells|);
      GrownTwice(t0, t1, target.linedata, l.cells[..want], []);
      assert l.cells[..want] + [] == l.cells[..want];
    }
  }

  // What is left of the source once a line has given up its first want cells.
  function Remaining(s: seq<Line>, next: nat, want: nat): seq<Line>
    requires 0 < next <= |s| && want <= |s[next - 1].cells|
  {
    if want < |s[next - 1].cells| then [s[next - 1].Drop(want)] + s[next..] else s[next..]
  }

  // The Newline owed by an unwrapped line that has been taken whole.
  function Owed(l: Line, want: nat, breaks: bool): seq<Token> {
    if breaks && want == |l.cells| && !l.wrapped then [Newline] else []
  }

  lemma TakeLine(l: Line, want: nat, breaks: bool)
    requires want <= |l.cells| && !l.dead
    ensures LineTokens(l, breaks) ==
      Chars(l.cells[..want]) + Owed(l, want, breaks)
      + (if want < |l.cells| then LineTokens(l.Drop(want), breaks) else [])
  {
    assert l.cells == l.cells[..want] + l.cells[want..];
    assert Chars(l.cells) == Chars(l.cells[..want]) + Chars(l.cells[want..]);
  }

  lemma TakeRest(s: seq<Line>, next: nat, want: nat, breaks: bool)
    requires 0 < next <= |s| && want <= |s[next - 1].cells| && !s[next - 1].dead
    ensures Tokens(s[next - 1..], breaks) ==
      Chars(s[next - 1].cells[..want]) + Owed(s[next - 1], want, breaks) + Tokens(Remaining(s, next, want), breaks)
  {
    var l, rest := s[next - 1], s[next..];
    TakeLine(l, want, breaks);
    assert s[next - 1..] == [l] + rest;
    TokensConcat([l], rest, breaks);
    TokensOne(l, breaks);
    if want < |l.cells| {
      TokensConcat([l.Drop(want)], rest, breaks);
      TokensOne(l.Drop(want), breaks);
      Regroup(Chars(l.cells[..want]), Owed(l, want, breaks), LineTokens(l.Drop(want), breaks), Tokens(rest, breaks));
    }
  }

  lemma Regroup<T>(a: seq<T>, b: seq<T>, c: seq<T>, d: seq<T>)
    ensures a + (b + c + d) == (a + b) + c + d
    ensures (a + b + c) + d == a + b + (c + d)
  {
  }

  // Taking the first want cells of the next line onto the last target line.
  lemma TakeKeepsText(t: seq<Line>, t2: seq<Line>, s: seq<Line>, next: nat, want: nat, breaks: bool)
    requires 0 < next <= |s| && want <= |s[next - 1].cells| && !s[next - 1].dead
    requires Grown(t, t2, s[next - 1].cells[..want]) && (breaks ==> EndsWrapped(t))
    ensures Tokens(t, breaks) + Tokens(s[next - 1..], breaks) ==
      Tokens(t2, breaks) + Owed(s[next - 1], want, breaks) + Tokens(Remaining(s, next, want), breaks)
  {
    var more := s[next - 1].cells[..want];
    TokensAppend(t, t2, more, breaks);
    TakeRest(s, next, want, breaks);
    Regroup(Tokens(t, breaks), Chars(more), Owed(s[next - 1], want, breaks), Tokens(Remaining(s, next, want), breaks));
  }

  // Target t, an owed Newline and the remaining source say what target t0 and source s0 said.
  ghost predicate SameTotal(t0: seq<Line>, s0: seq<Line>, t: seq<Line>, owed: bool, rest: seq<Line>, breaks: bool) {
    Tokens(t0, breaks) + Tokens(s0, breaks) ==
    Tokens(t, breaks) + (if breaks && owed then [Newline] else []) + Tokens(rest, breaks)
  }

  lemma SameTotalStep(t0: seq<Line>, s0: seq<Line>, t: seq<Line>, t2: seq<Line>, s: seq<Line>,
                      next: nat, want: nat, breaks: bool)
    requires 0 < next <= |s| && want <= |s[next - 1].cells| && !s[next - 1].dead
    requires Grown(t, t2, s[next - 1].cells[..want]) && (breaks ==> EndsWrapped(t))
    requires SameTotal(t0, s0, t, false, s[next - 1..], breaks)
    ensures SameTotal(t0, s0, t2, want == |s[next - 1].cells| && !s[next - 1].wrapped, Remaining(s, next, want), breaks)
  {
    TakeKeepsText(t, t2, s, next, want, breaks);
    assert Tokens(t, breaks) + [] == Tokens(t, breaks);
  }

  // The text is the same, and with breaks too if the last target line is wrapped.
  ghost predicate SameWords(t0: seq<Line>, s0: seq<Line>, t: seq<Line>, owed: bool, rest: seq<Line>) {
    forall breaks: bool :: (breaks ==> EndsWrapped(t)) ==> SameTotal(t0, s0, t, owed, rest, breaks)
  }

  // Only the markers of the `lines` source lines after yy have changed.
  ghost predicate MarksOnly(s0: seq<Line>, s: seq<Line>, yy: nat, lines: nat) {
    && yy + 1 + lines <= |s| == |s0|
    && forall i :: 0 <= i < |s| ==> if yy < i <= yy + lines then SameText(s[i], s0[i]) else s[i] == s0[i]
  }

  function Rest(s0: seq<Line>, yy: nat, lines: nat, want: nat): seq<Line>
    requires yy + 1 + lines <= |s0|
    requires want <= (if lines == 0 then 0 else |s0[yy + lines].cells|)
  {
    if lines == 0 then s0[yy + 1..] else Remaining(s0, yy + 1 + lines, want)
  }

  // What the chunking theorem adds about the join loop: once it ends, either the logical line is
  // complete and its Newline is owed, or the target line is full and the logical line goes on.
  ghost predicate JoinedFlowing(gl: Line, rest: seq<Line>, sx: nat, ended: bool, owed: bool) {
    && Unit(gl.cells) && |gl.cells| <= sx && Flowing(rest)
    && (if !ended then |gl.cells| < sx && Continues(rest) && !owed
        else gl.cells != [] && (owed || (|gl.cells| == sx && Continues(rest))))
  }

  lemma JoinKeepsFlowing(gl: Line, gl2: Line, s: seq<Line>, next: nat, want: nat, sx: nat, ended: bool)
    requires 0 < next <= |s| && JoinedFlowing(gl, s[next - 1..], sx, false, false)
    requires want == Fit(s[next - 1].cells, sx - |gl.cells|)
    requires gl2.cells == gl.cells + s[next - 1].cells[..want]
    requires ended == (!s[next - 1].wrapped || want != |s[next - 1].cells| || |gl2.cells| == sx)
    ensures var l := s[next - 1];
      JoinedFlowing(gl2, Remaining(s, next, want), sx, ended, want == |l.cells| && !l.wrapped)
  {
    var l := s[next - 1];
    assert s[next - 1..][0] == l && s[next - 1..][1..] == s[next..];
    FlowingTail(s[next - 1..]);
    FitUnit(l.cells, sx - |gl.cells|);
    if want < |l.cells| {
      FlowingPush(l.Drop(want), s[next..]);
    }
  }

  // The variables of grid_reflow_join at the head of its loop: `lines` source lines after yy have
  // been taken, the last of them up to `want`. The width is that of the target line's cells and a fixed
  // slack: a line without the extended flag is measured by its number of cells, padding included.
  datatype JoinState = JoinState(lines: nat, want: nat, width: nat, wrapped: bool, ended: bool)

  // The last line taken was taken whole and was not wrapped, so its Newline is owed.
  predicate Owing(s0: seq<Line>, yy: nat, st: JoinState)
    requires yy + st.lines < |s0|
  {
    st.lines > 0 && st.want == |s0[yy + st.lines].cells| && !s0[yy + st.lines].wrapped
  }

  ghost predicate Counted(st: JoinState, s0: seq<Line>, yy: nat) {
    && yy + 1 + st.lines <= |s0|
    && st.want <= (if st.lines == 0 then 0 else |s0[yy + st.lines].cells|)
    && (!st.ended ==> st.wrapped && !Owing(s0, yy, st))
    && (!st.ended && st.lines > 0 ==> st.want == |s0[yy + st.lines].cells|)
    && (Owing(s0, yy, st) ==> !st.wrapped)
  }

  ghost predicate JoiningText(t0: seq<Line>, s0: seq<Line>, t: seq<Line>, sx: nat, yy: nat, st: JoinState, slack: nat) {
    && SameLast(t0, t) && st.width == Width(t[|t| - 1].cells) + slack <= sx && (!st.ended ==> st.width < sx)
    && Counted(st, s0, yy)
    && SameWords(t0, s0[yy + 1..], t, Owing(s0, yy, st), Rest(s0, yy, st.lines, st.want))
  }

  ghost predicate Joining(t0: seq<Line>, s0: seq<Line>, t: seq<Line>, s: seq<Line>,
                          sx: nat, yy: nat, st: JoinState, slack: nat)
  {
    && MarksOnly(s0, s, yy, st.lines)
    && JoiningText(t0, s0, t, sx, yy, st, slack)
    && (slack == 0 ==> JoiningFlowing(t0, s0, t, sx, yy, st))
  }

  ghost predicate JoiningFlowing(t0: seq<Line>, s0: seq<Line>, t: seq<Line>, sx: nat, yy: nat, st: JoinState)
    requires t0 != [] && t != [] && yy < |s0| && Counted(st, s0, yy)
  {
    JoinedFlowing(t0[|t0| - 1], s0[yy + 1..], sx, false, false) ==>
      && JoinedFlowing(t[|t| - 1], Rest(s0, yy, st.lines, st.want), sx, st.ended, Owing(s0, yy, st))
      && (st.ended ==> st.lines > 0 && (!st.wrapped ==> Owing(s0, yy, st) || st.want < |s0[yy + st.lines].cells|))
  }

  lemma SameWordsStep(t0: seq<Line>, base: seq<Line>, t: seq<Line>, t2: seq<Line>, s: seq<Line>, next: nat, want: nat)
    requires 0 < next <= |s| && want <= |s[next - 1].cells| && !s[next - 1].dead
    requires Grown(t, t2, s[next - 1].cells[..want])
    requires SameWords(t0, base, t, false, s[next - 1..])
    ensures SameWords(t0, base, t2, want == |s[next - 1].cells| && !s[next - 1].wrapped, Remaining(s, next, want))
  {
    var owed, before, rest := want == |s[next - 1].cells| && !s[next - 1].wrapped, s[next - 1..], Remaining(s, next, want);
    forall breaks: bool | breaks ==> EndsWrapped(t2)
      ensures SameTotal(t0, base, t2, owed, rest, breaks)
    {
      assert SameTotal(t0, base, t, false, before, breaks);
      SameTotalStep(t0, base, t, t2, s, next, want, breaks);
    }
  }

  // The state after one more line has been taken.
  ghost function NextState(st: JoinState, l: Line, want: nat, width: nat, sx: nat): JoinState {
    JoinState(st.lines + 1, want, width, l.wrapped, !l.wrapped || want != |l.cells| || width == sx)
  }

  lemma LastOnlyStep(t0: seq<Line>, t: seq<Line>, t2: seq<Line>, more: seq<Cell>)
    requires SameLast(t0, t) && Grown(t, t2, more)
    ensures SameLast(t0, t2) && Width(t2[|t2| - 1].cells) == Width(t[|t| - 1].cells) + Width(more)
  {
    WidthConcat(t[|t| - 1].cells, more);
  }

  lemma CountedStep(s0: seq<Line>, yy: nat, st: JoinState, want: nat, width: nat, sx: nat)
    requires Counted(st, s0, yy) && !st.ended && yy + 1 + st.lines < |s0|
    requires want <= |s0[yy + 1 + st.lines].cells| && width <= sx
    ensures var line, l := yy + 1 + st.lines, s0[yy + 1 + st.lines];
      var next := NextState(st, l, want, width, sx);
      && Counted(next, s0, yy) && (!next.ended ==> width < sx)
      && Rest(s0, yy, st.lines, st.want) == s0[line..] && !Owing(s0, yy, st)
      && Rest(s0, yy, next.lines, want) == Remaining(s0, line + 1, want)
      && Owing(s0, yy, next) == (want == |l.cells| && !l.wrapped)
  {
  }

  lemma JoiningStep(t0: seq<Line>, s0: seq<Line>, t: seq<Line>, t2: seq<Line>,
                    sx: nat, yy: nat, st: JoinState, want: nat, width: nat, slack: nat)
    requires JoiningText(t0, s0, t, sx, yy, st, slack) && !st.ended
    requires yy + 1 + st.lines < |s0| && !s0[yy + 1 + st.lines].dead && want <= |s0[yy + 1 + st.lines].cells|
    requires width == st.width + Width(s0[yy + 1 + st.lines].cells[..want]) <= sx
    requires Grown(t, t2, s0[yy + 1 + st.lines].cells[..want])
    ensures JoiningText(t0, s0, t2, sx, yy, NextState(st, s0[yy + 1 + st.lines], want, width, sx), slack)
  {
    hide SameWords, SameLast, Grown, Counted, Rest, Owing, Remaining, Width;
    LastOnlyStep(t0, t, t2, s0[yy + 1 + st.lines].cells[..want]);
    CountedStep(s0, yy, st, want, width, sx);
    SameWordsStep(t0, s0[yy + 1..], t, t2, s0, yy + 2 + st.lines, want);
  }

  lemma JoiningStepFlowing(t0: seq<Line>, s0: seq<Line>, t: seq<Line>, t2: seq<Line>,
                           sx: nat, yy: nat, st: JoinState, want: nat, width: nat)
    requires t0 != [] && t != [] && t2 != [] && yy + 1 + st.lines < |s0| && Counted(st, s0, yy) && !st.ended
    requires JoiningFlowing(t0, s0, t, sx, yy, st) && st.width == Width(t[|t| - 1].cells) < sx
    requires want == Fit(s0[yy + 1 + st.lines].cells, sx - st.width)
    requires t2[|t2| - 1].cells == t[|t| - 1].cells + s0[yy + 1 + st.lines].cells[..want]
    requires width == Width(t2[|t2| - 1].cells)
    ensures var st2 := NextState(st, s0[yy + 1 + st.lines], want, width, sx);
      Counted(st2, s0, yy) && JoiningFlowing(t0, s0, t2, sx, yy, st2)
  {
    hide Fit, Width, Flowing, Continues;
    var line := yy + 1 + st.lines;
    var gl, gl2, l := t[|t| - 1], t2[|t2| - 1], s0[line];
    if JoinedFlowing(t0[|t0| - 1], s0[yy + 1..], sx, false, false) {
      assert Rest(s0, yy, st.lines, st.want) == s0[line..];
      WidthUnit(gl.cells);
      FlowingTail(s0[line..]);
      assert Unit(gl2.cells);
      WidthUnit(gl2.cells);
      JoinKeepsFlowing(gl, gl2, s0, line + 1, want, sx, !l.wrapped || want != |l.cells| || width == sx);
    }
  }

  // Under the chunking hypotheses the loop only ends by taking a line.
  lemma JoiningProgress(t0: seq<Line>, s0: seq<Line>, t: seq<Line>, sx: nat, yy: nat, st: JoinState)
    requires t0 != [] && t != [] && yy < |s0| && Counted(st, s0, yy) && !st.ended
    requires JoiningFlowing(t0, s0, t, sx, yy, st) && st.width == Width(t[|t| - 1].cells)
    requires JoinedFlowing(t0[|t0| - 1], s0[yy + 1..], sx, false, false)
    ensures yy + 1 + st.lines < |s0|
    ensures var l := s0[yy + 1 + st.lines];
      if l.cells == [] then l.wrapped else st.width + l.cells[0].data.width <= sx
  {
    var line := yy + 1 + st.lines;
    assert Rest(s0, yy, st.lines, st.want) == s0[line..];
    WidthUnit(t[|t| - 1].cells);
    assert s0[line..][0] == s0[line];
  }

  lemma JoiningTaken(t0: seq<Line>, s0: seq<Line>, t: seq<Line>, s: seq<Line>, t2: seq<Line>, s2: seq<Line>,
                     sx: nat, yy: nat, st: JoinState, next: JoinState, slack: nat)
    requires Joining(t0, s0, t, s, sx, yy, st, slack) && !st.ended
    requires yy + 1 + st.lines < |s0| && !s0[yy + 1 + st.lines].dead
    requires var l := s0[yy + 1 + st.lines];
      && next == NextState(st, l, next.want, next.width, sx)
      && next.want == Fit(l.cells, sx - st.width)
      && next.width == st.width + Width(l.cells[..next.want]) <= sx
      && Grown(t, t2, l.cells[..next.want])
    requires Remarked(s, s2, yy + 1 + st.lines)
    ensures Joining(t0, s0, t2, s2, sx, yy, next, slack)
  {
    WidthConcat(t[|t| - 1].cells, s0[yy + 1 + st.lines].cells[..next.want]);
    JoiningStep(t0, s0, t, t2, sx, yy, st, next.want, next.width, slack);
    if slack == 0 {
      JoiningStepFlowing(t0, s0, t, t2, sx, yy, st, next.want, next.width);
    }
  }

  lemma JoiningStopped(t0: seq<Line>, s0: seq<Line>, t: seq<Line>, s: seq<Line>,
                       sx: nat, yy: nat, st: JoinState, slack: nat, wrapped: bool)
    requires Joining(t0, s0, t, s, sx, yy, st, slack) && !st.ended && yy + 1 + st.lines < |s0|
    requires var l := s0[yy + 1 + st.lines];
      if l.cells == [] then !l.wrapped else st.width + l.cells[0].data.width > sx
    ensures Joining(t0, s0, t, s, sx, yy, st.(wrapped := wrapped, ended := true), slack)
  {
    if slack == 0 && JoinedFlowing(t0[|t0| - 1], s0[yy + 1..], sx, false, false) {
      JoiningProgress(t0, s0, t, sx, yy, st);
      assert false;
    }
  }

  // What one turn of the loop makes of source line l.
  function Turn(st: JoinState, l: Line, sx: nat): JoinState
    requires st.width <= sx
  {
    if (if l.cells == [] then l.wrapped || l.marks != map[] else st.width + l.cells[0].data.width <= sx) then
      var want := Fit(l.cells, sx - st.width);
      var width := st.width + Width(l.cells[..want]);
      JoinState(st.lines + 1, want, width, l.wrapped, !l.wrapped || want != |l.cells| || width == sx)
    else
      st.(wrapped := l.wrapped, ended := true)
  }

  // The state in which the loop starts.
  function Joinable(width: nat): JoinState {
    JoinState(0, 0, width, true, false)
  }

  // The state in which the loop ends, given the state it is in.
  function JoinRun(s0: seq<Line>, sx: nat, yy: nat, st: JoinState): JoinState
    decreases |s0| - st.lines, !st.ended
  {
    if st.ended || yy + 1 + st.lines >= |s0| || st.width > sx then st
    else JoinRun(s0, sx, yy, Turn(st, s0[yy + 1 + st.lines], sx))
  }

  // The line that ended the loop was not wrapped and was not taken, although every line before it was
  // taken whole: an empty line without markers, or one whose first character does not fit.
  predicate StoppedShort(s0: seq<Line>, sx: nat, yy: nat, st: JoinState) {
    && st.ended && st.lines > 0 && yy + 1 + st.lines < |s0|
    && st.want == |s0[yy + st.lines].cells| && s0[yy + st.lines].wrapped && st.width < sx
    && var l := s0[yy + 1 + st.lines];
       !l.wrapped && if l.cells == [] then l.marks == map[] else st.width + l.cells[0].data.width > sx
  }

  // The state in which grid_reflow_join ends the target line although no Newline is owed.
  predicate MadeUp(s0: seq<Line>, yy: nat, st: JoinState)
    requires yy + st.lines < |s0|
  {
    st.lines > 0 && st.want == |s0[yy + st.lines].cells| && !st.wrapped && !Owing(s0, yy, st)
  }

  lemma {:induction false} MadeUpIsStoppedShort(s0: seq<Line>, sx: nat, yy: nat, st: JoinState)
    requires Counted(st, s0, yy) && st.width <= sx && (!st.ended ==> st.width < sx)
    requires st.ended ==> (MadeUp(s0, yy, st) <==> StoppedShort(s0, sx, yy, st))
    ensures var end := JoinRun(s0, sx, yy, st);
      Counted(end, s0, yy) && (MadeUp(s0, yy, end) <==> StoppedShort(s0, sx, yy, end))
    decreases |s0| - st.lines, !st.ended
  {
    if !st.ended && yy + 1 + st.lines < |s0| {
      MadeUpTurn(s0, sx, yy, st);
      MadeUpIsStoppedShort(s0, sx, yy, Turn(st, s0[yy + 1 + st.lines], sx));
    }
  }

  lemma MadeUpTurn(s0: seq<Line>, sx: nat, yy: nat, st: JoinState)
    requires Counted(st, s0, yy) && !st.ended && st.width < sx && yy + 1 + st.lines < |s0|
    ensures var next := Turn(st, s0[yy + 1 + st.lines], sx);
      && Counted(next, s0, yy) && next.width <= sx && (!next.ended ==> next.width < sx)
      && (next.ended ==> (MadeUp(s0, yy, next) <==> StoppedShort(s0, sx, yy, next)))
  {
    var l := s0[yy + 1 + st.lines];
    FitNarrow(l.cells, sx - st.width);
  }

  lemma {:induction false} FitNarrow(from: seq<Cell>, space: nat)
    ensures Width(from[..Fit(from, space)]) <= space
    decreases |from|
  {
    if from != [] && from[0].data.width <= space {
      var n := Fit(from[1..], space - from[0].data.width);
      FitNarrow(from[1..], space - from[0].data.width);
      assert from[..n + 1] == [from[0]] + from[1..][..n];
      WidthConcat([from[0]], from[1..][..n]);
      OneCell(from[0]);
    }
  }

  // The lines taken before the last were all wrapped, and so was the last if it was taken whole and the
  // loop goes on.
  ghost predicate ChainTaken(s0: seq<Line>, yy: nat, st: JoinState) {
    && Counted(st, s0, yy)
    && forall j :: yy < j < yy + st.lines ==> s0[j].wrapped
  }

  lemma {:induction false} JoinRunChain(s0: seq<Line>, sx: nat, yy: nat, st: JoinState)
    requires ChainTaken(s0, yy, st) && st.width <= sx && (!st.ended ==> st.width < sx)
    requires st.ended ==> (MadeUp(s0, yy, st) <==> StoppedShort(s0, sx, yy, st))
    ensures ChainTaken(s0, yy, JoinRun(s0, sx, yy, st))
    decreases |s0| - st.lines, !st.ended
  {
    if !st.ended && yy + 1 + st.lines < |s0| {
      MadeUpTurn(s0, sx, yy, st);
      JoinRunChain(s0, sx, yy, Turn(st, s0[yy + 1 + st.lines], sx));
    }
  }

  // If cells are one column wide, the loop stops short only after two wrapped lines, at a bare one.
  lemma ShortIsLoose(lines: seq<Line>, sx: nat, yy: nat, width: nat)
    requires yy < |lines| && lines[yy].wrapped && UnitAll(lines[yy..]) && width < sx
    requires var s0 := lines[yy := DEAD_LINE]; StoppedShort(s0, sx, yy, JoinRun(s0, sx, yy, Joinable(width)))
    ensures !Tied(lines[yy..])
  {
    hide JoinRun;
    var s0 := lines[yy := DEAD_LINE];
    var st := JoinRun(s0, sx, yy, Joinable(width));
    JoinRunChain(s0, sx, yy, Joinable(width));
    var at := yy + st.lines;
    assert lines[yy..][st.lines + 1] == s0[at + 1] && lines[yy..][st.lines] == s0[at];
    assert lines[yy..][st.lines - 1] == lines[at - 1];
    assert at - 1 > yy ==> s0[at - 1].wrapped;
    assert Loose(lines[yy..], st.lines - 1);
  }

  // Given more columns than there are cells, the loop takes every line it comes to whole, up to the end
  // of the logical line; it leaves that end only if it is bare.
  lemma {:induction false} JoinRunWide(s0: seq<Line>, sx: nat, yy: nat, st: JoinState)
    requires ChainTaken(s0, yy, st) && !st.ended && UnitAll(s0[yy + 1..])
    requires st.width + |Tokens(s0[yy + 1 + st.lines..], false)| < sx
    ensures var end := JoinRun(s0, sx, yy, st);
      && st.lines <= end.lines && ChainTaken(s0, yy, end)
      && (end.lines > 0 ==> end.want == |s0[yy + end.lines].cells|)
      && (end.lines > st.lines && Bare(s0[yy + end.lines]) ==> false)
      && (yy + 1 + end.lines < |s0| ==>
            (end.lines > 0 && !s0[yy + end.lines].wrapped) || Bare(s0[yy + 1 + end.lines]))
      && (StoppedShort(s0, sx, yy, end) <==>
            end.lines > 0 && yy + 1 + end.lines < |s0| && s0[yy + end.lines].wrapped)
    decreases |s0| - st.lines
  {
    hide Tokens, Turn, Fit, Width, StoppedShort, Unit;
    var line := yy + 1 + st.lines;
    if line < |s0| {
      TurnWide(s0, sx, yy, st);
      var next := Turn(st, s0[line], sx);
      if !next.ended {
        JoinRunWide(s0, sx, yy, next);
      } else {
        assert JoinRun(s0, sx, yy, next) == next;
      }
    } else {
      StoppedShortOpen(s0, sx, yy, st);
    }
  }

  lemma StoppedShortOpen(s0: seq<Line>, sx: nat, yy: nat, st: JoinState)
    ensures !st.ended || yy + 1 + st.lines >= |s0| ==> !StoppedShort(s0, sx, yy, st)
  {
  }

  lemma TurnWide(s0: seq<Line>, sx: nat, yy: nat, st: JoinState)
    requires ChainTaken(s0, yy, st) && !st.ended && UnitAll(s0[yy + 1..]) && yy + 1 + st.lines < |s0|
    requires st.width + |Tokens(s0[yy + 1 + st.lines..], false)| < sx
    ensures var next := Turn(st, s0[yy + 1 + st.lines], sx);
      && st.lines <= next.lines <= st.lines + 1 && ChainTaken(s0, yy, next)
      && (next.lines > 0 ==> next.want == |s0[yy + next.lines].cells|)
      && (next.lines > st.lines ==> !Bare(s0[yy + next.lines]))
      && next.ended == !s0[yy + 1 + st.lines].wrapped
      && (if next.ended then
            && (yy + 1 + next.lines < |s0| ==>
                  (next.lines > 0 && !s0[yy + next.lines].wrapped) || Bare(s0[yy + 1 + next.lines]))
            && (StoppedShort(s0, sx, yy, next) <==>
                  next.lines > 0 && yy + 1 + next.lines < |s0| && s0[yy + next.lines].wrapped)
          else next.lines == st.lines + 1 && next.width + |Tokens(s0[yy + 1 + next.lines..], false)| < sx)
  {
    hide Fit, Width, Tokens, Unit, Turn;
    var line := yy + 1 + st.lines;
    var l := s0[line];
    TokensTail(s0, line, false);
    CellTokens(l);
    assert s0[yy + 1..][st.lines] == l;
    TurnTakes(st, l, sx);
    MadeUpTurn(s0, sx, yy, st);
  }

  lemma CellTokens(l: Line)
    ensures |LineTokens(l, false)| == |l.cells|
  {
  }

  // A line of one-column cells with room for all of it is taken whole unless it is bare.
  lemma TurnTakes(st: JoinState, l: Line, sx: nat)
    requires Unit(l.cells) && st.width + |l.cells| < sx
    ensures Turn(st, l, sx) ==
      if Bare(l) then st.(wrapped := false, ended := true)
      else JoinState(st.lines + 1, |l.cells|, st.width + |l.cells|, l.wrapped, !l.wrapped)
  {
    FitUnit(l.cells, sx - st.width);
    assert l.cells[..|l.cells|] == l.cells;
    WidthUnit(l.cells);
  }

  // One turn of the loop, on a line that exists.
  method JoinTurn(target: Grid, gd: Grid, sx: nat, yy: nat, st: JoinState,
                  ghost t0: seq<Line>, ghost s0: seq<Line>, ghost slack: nat)
    returns (next: JoinState)
    requires target != gd && !st.ended && yy + 1 + st.lines < |gd.linedata|
    requires Joining(t0, s0, target.linedata, gd.linedata, sx, yy, st, slack)
    requires !s0[yy + 1 + st.lines].dead
    modifies target`linedata, gd`linedata
    ensures Joining(t0, s0, target.linedata, gd.linedata, sx, yy, next, slack)
    ensures st.width <= sx && next == Turn(st, s0[yy + 1 + st.lines], sx)
  {
    var line := yy + 1 + st.lines;
    ghost var t1, s1 := target.linedata, gd.linedata;
    var l := gd.linedata[line];
    var taken, want, width := JoinLine(target, gd, sx, line, st.width);
    if !taken {
      next := st.(wrapped := l.wrapped, ended := true);
      JoiningStopped(t0, s0, t1, s1, sx, yy, st, slack, l.wrapped);
    } else {
      next := JoinState(st.lines + 1, want, width, l.wrapped, !l.wrapped || want != |l.cells| || width == sx);
      JoiningTaken(t0, s0, t1, s1, target.linedata, gd.linedata, sx, yy, st, next, slack);
    }
  }

  // The loop of grid_reflow_join
  method JoinLoop(target: Grid, gd: Grid, sx: nat, yy: nat, width: nat, ghost slack: nat) returns (st: JoinState)
    requires target != gd && gd.Valid() && yy < |gd.linedata| && target.linedata != []
    requires width == Width(target.linedata[|target.linedata| - 1].cells) + slack < sx
    requires forall i :: yy < i < |gd.linedata| ==> !gd.linedata[i].dead
    modifies target`linedata, gd`linedata
    ensures Joining(old(target.linedata), old(gd.linedata), target.linedata, gd.linedata, sx, yy, st, slack)
    ensures slack == 0 && JoinedFlowing(old(target.linedata[|target.linedata| - 1]), old(gd.linedata)[yy + 1..], sx, false, false) ==>
      st.ended
    ensures st == JoinRun(old(gd.linedata), sx, yy, Joinable(width))
    ensures |target.linedata| == |old(target.linedata)| && |gd.linedata| == |old(gd.linedata)|
    ensures st.lines > 0 ==> yy + st.lines < |gd.linedata| && st.want <= |gd.linedata[yy + st.lines].cells|
  {
    hide Joining, Width, Fit, JoinedFlowing;
    ghost var t0, s0 := target.linedata, gd.linedata;
    st := Joinable(width);
    JoiningStart(t0, s0, sx, yy, width, slack);
    while !st.ended && yy + 1 + st.lines != gd.hsize + gd.sy
      invariant Joining(t0, s0, target.linedata, gd.linedata, sx, yy, st, slack)
      invariant yy + 1 + st.lines <= |gd.linedata| == |s0|
      invariant JoinRun(s0, sx, yy, st) == JoinRun(s0, sx, yy, Joinable(width))
      decreases |s0| - st.lines, !st.ended
    {
      st := JoinTurn(target, gd, sx, yy, st, t0, s0, slack);
      JoiningCounts(t0, s0, target.linedata, gd.linedata, sx, yy, st, slack);
    }
    JoiningCounts(t0, s0, target.linedata, gd.linedata, sx, yy, st, slack);
    JoiningEnds(t0, s0, target.linedata, gd.linedata, sx, yy, st, slack);
  }

  lemma JoiningStart(t: seq<Line>, s: seq<Line>, sx: nat, yy: nat, width: nat, slack: nat)
    requires t != [] && yy < |s| && width == Width(t[|t| - 1].cells) + slack < sx
    ensures Joining(t, s, t, s, sx, yy, Joinable(width), slack)
  {
    hide Width, JoinedFlowing;
    var base := s[yy + 1..];
    forall breaks: bool
      ensures SameTotal(t, base, t, false, base, breaks)
    {
      assert Tokens(t, breaks) + [] == Tokens(t, breaks);
    }
  }

  lemma JoiningCounts(t0: seq<Line>, s0: seq<Line>, t: seq<Line>, s: seq<Line>,
                      sx: nat, yy: nat, st: JoinState, slack: nat)
    requires Joining(t0, s0, t, s, sx, yy, st, slack)
    ensures |t| == |t0| && yy + 1 + st.lines <= |s| == |s0|
    ensures st.lines > 0 ==> st.want <= |s[yy + st.lines].cells|
  {
    if st.lines > 0 {
      assert SameText(s[yy + st.lines], s0[yy + st.lines]);
    }
  }

  lemma JoiningEnds(t0: seq<Line>, s0: seq<Line>, t: seq<Line>, s: seq<Line>,
                    sx: nat, yy: nat, st: JoinState, slack: nat)
    requires Joining(t0, s0, t, s, sx, yy, st, slack) && (st.ended || yy + 1 + st.lines == |s0|)
    ensures slack == 0 && JoinedFlowing(t0[|t0| - 1], s0[yy + 1..], sx, false, false) ==> st.ended
  {
    hide Width;
  }

  // a is b, or what is left of b once its first cells have been taken; markers aside.
  ghost predicate CutOf(a: Line, b: Line) {
    && |a.cells| <= |b.cells| && a.cells == b.cells[|b.cells| - |a.cells|..]
    && a.wrapped == b.wrapped && a.extended == b.extended && a.dead == b.dead
  }

  // Lines from k on are as they were, but that the first cells of line k may have been taken.
  ghost predicate LeftFrom(s0: seq<Line>, s: seq<Line>, k: nat) {
    && k <= |s| == |s0| && (forall i :: k < i < |s| ==> s[i] == s0[i])
    && (k < |s| ==> s[k] == s0[k] || (s[k].cells != [] && CutOf(s[k], s0[k])))
  }

  // Source lines up to k have been used up.
  ghost predicate UsedUp(s0: seq<Line>, s: seq<Line>, yy: nat, k: nat) {
    && yy < k && LeftFrom(s0, s, k) && s[..yy + 1] == s0[..yy + 1]
    && (forall i :: yy < i < k ==> s[i].dead && s[i].cells == [])
  }

  // What one join does: the last target line has grown, the lines after yy have been used up to k and
  // the text is unchanged; under the chunking hypotheses the line is filled.
  ghost predicate Absorbed(t0: seq<Line>, s0: seq<Line>, t: seq<Line>, s: seq<Line>,
                           sx: nat, yy: nat, k: nat, slack: nat)
  {
    && t0 != [] && |t| == |t0| && t[..|t| - 1] == t0[..|t| - 1]
    && (LineOk(t0[|t0| - 1]) ==> LineOk(t[|t| - 1]))
    && Width(t[|t| - 1].cells) <= sx
    && UsedUp(s0, s, yy, k)
    && SameTotal(t0, s0[yy + 1..], t, false, s[k..], false)
    && (slack == 0 && JoinedFlowing(t0[|t0| - 1], s0[yy + 1..], sx, false, false) ==> FlowsOn(t[|t| - 1], s[k..], sx))
  }

  // How many logical lines end in the lines.
  function Ends(lines: seq<Line>): nat {
    multiset(Tokens(lines, true))[Newline]
  }

  // The text with breaks is kept, unless the join stopped short: then there is one more break.
  ghost predicate BreaksJoined(t0: seq<Line>, base: seq<Line>, t: seq<Line>, rest: seq<Line>, short: bool) {
    && (SameTotal(t0, base, t, false, rest, true) <==> !short)
    && Ends(t) + Ends(rest) == Ends(t0) + Ends(base) + if short then 1 else 0
  }

  // Where the source stands once the loop has ended in st: at k, with nothing cut if the last line was
  // taken whole.
  ghost predicate JoinedUpTo(s0: seq<Line>, s: seq<Line>, yy: nat, st: JoinState, k: nat)
    requires yy + st.lines < |s0|
  {
    var part := st.lines > 0 && st.want < |s0[yy + st.lines].cells|;
    && k == (if part then yy + st.lines else yy + 1 + st.lines) && k <= |s| == |s0|
    && (!part ==> s[k..] == s0[k..])
  }

  // A finished target line and the source after it.
  ghost predicate FlowsOn(gl: Line, rest: seq<Line>, sx: nat) {
    && Unit(gl.cells) && 0 < |gl.cells| <= sx && Flowing(rest)
    && (gl.wrapped ==> |gl.cells| == sx && Continues(rest))
  }

  ghost predicate Finished(t: seq<Line>, s: seq<Line>, t2: seq<Line>, s2: seq<Line>, yy: nat, st: JoinState, k: nat)
    requires t != [] && yy + st.lines < |s|
  {
    var part := st.want < |s[yy + st.lines].cells|;
    && k == (if part then yy + st.lines else yy + 1 + st.lines)
    && t2 == (if !part && !st.wrapped then t[|t| - 1 := Unwrapped(t[|t| - 1])] else t)
    && |s2| == |s|
    && (forall i :: yy < i < k ==> s2[i] == DEAD_LINE)
    && (part ==> s2[k] == s[k].Drop(st.want))
    && (forall i :: 0 <= i <= yy || k < i < |s| || (i == k < |s| && !part) ==> s2[i] == s[i])
  }

  // The scroll position once a join onto target line to has used up taken source lines.
  function JoinScroll(h: nat, to: nat, taken: nat): nat {
    if h > to + taken then h - taken else if h > to then to else h
  }

  // The scroll position once source line yy has become the target lines from before up to after, the last of
  // them having used up taken lines more.
  function ScrollStep(h: nat, yy: nat, before: nat, after: nat, taken: nat): nat
    requires before < after
  {
    JoinScroll(if yy <= h then h + (after - before) - 1 else h, after - 1, taken)
  }

  // The end of grid_reflow_join: drop what was taken of a line taken in part, or end the target line
  // if a line that was not wrapped was taken whole; kill the used lines; move the scroll position.
  method JoinFinish(target: Grid, gd: Grid, yy: nat, st: JoinState) returns (ghost k: nat)
    requires target != gd && target.linedata != [] && yy + st.lines < |gd.linedata|
    requires st.lines > 0 && st.want <= |gd.linedata[yy + st.lines].cells|
    modifies target`linedata, gd`linedata, gd`hscrolled
    ensures Finished(old(target.linedata), old(gd.linedata), target.linedata, gd.linedata, yy, st, k)
    ensures yy < k && gd.hscrolled == JoinScroll(old(gd.hscrolled), |old(target.linedata)| - 1, k - yy - 1)
  {
    var to, lines := |target.linedata| - 1, st.lines;
    var from := gd.linedata[yy + st.lines];
    var left := |from.cells| - st.want;
    ghost var s0 := gd.linedata;
    if left != 0 {
      gd.linedata := gd.linedata[yy + lines := from.Drop(st.want)];
      lines := lines - 1;
    } else if !st.wrapped {
      target.linedata := target.linedata[to := Unwrapped(target.linedata[to])];
    }
    k := yy + 1 + lines;
    ghost var t1, s1 := target.linedata, gd.linedata;
    for i := yy + 1 to yy + 1 + lines
      invariant target.linedata == t1 && |gd.linedata| == |s1| && gd.hscrolled == old(gd.hscrolled)
      invariant forall j :: 0 <= j < |s1| ==> gd.linedata[j] == if yy < j < i then DEAD_LINE else s1[j]
    {
      gd.linedata := gd.linedata[i := DEAD_LINE];
    }
    if gd.hscrolled > to + lines {
      gd.hscrolled := gd.hscrolled - lines;
    } else if gd.hscrolled > to {
      gd.hscrolled := to;
    }
  }

  lemma TokensUnwrapped(t: seq<Line>, t2: seq<Line>)
    requires t != [] && t2 == t[|t| - 1 := Unwrapped(t[|t| - 1])]
    ensures Tokens(t2, false) == Tokens(t, false)
  {
    var l := t[|t| - 1];
    assert t == t[|t| - 1 := l];
    TokensLast(t, l, false);
    TokensLast(t, Unwrapped(l), false);
  }

  // Ending the last target line pays an owed Newline.
  lemma TokensEnd(t: seq<Line>, t2: seq<Line>)
    requires EndsWrapped(t) && !t[|t| - 1].dead && t2 == t[|t| - 1 := Unwrapped(t[|t| - 1])]
    ensures Tokens(t2, true) == Tokens(t, true) + [Newline]
  {
    var l := t[|t| - 1];
    assert t == t[|t| - 1 := l];
    TokensLast(t, l, true);
    TokensLast(t, Unwrapped(l), true);
    assert LineTokens(Unwrapped(l), true) == LineTokens(l, true) + [Newline];
  }

  lemma FlowingSame(a: seq<Line>, b: seq<Line>)
    requires |a| == |b| && forall i :: 0 <= i < |a| ==> SameText(a[i], b[i])
    ensures Flowing(a) == Flowing(b) && Continues(a) == Continues(b)
  {
  }

  lemma FinishedTail(s0: seq<Line>, t: seq<Line>, s: seq<Line>, t2: seq<Line>, s2: seq<Line>,
                     yy: nat, st: JoinState, k: nat)
    requires MarksOnly(s0, s, yy, st.lines) && Counted(st, s0, yy) && st.lines > 0
    requires t != [] && Finished(t, s, t2, s2, yy, st, k)
    ensures k <= |s2| && |s2[k..]| == |Rest(s0, yy, st.lines, st.want)|
    ensures forall i :: 0 <= i < |s2[k..]| ==> SameText(s2[k..][i], Rest(s0, yy, st.lines, st.want)[i])
  {
    var rest, part := Rest(s0, yy, st.lines, st.want), st.want < |s[yy + st.lines].cells|;
    assert SameText(s[yy + st.lines], s0[yy + st.lines]);
    forall i | 0 <= i < |s2| - k
      ensures SameText(s2[k..][i], rest[i])
    {
      if part && i > 0 {
        assert rest[i] == s0[yy + 1 + st.lines..][i - 1];
      }
    }
  }

  // The target line ends its logical line exactly if a line that was not wrapped was taken whole, or the
  // loop was stopped by one it could not take; see MadeUp.
  ghost predicate LastEnded(t0: seq<Line>, t: seq<Line>, s0: seq<Line>, yy: nat, st: JoinState)
    requires yy + st.lines < |s0|
  {
    EndsWrapped(t) <==>
      EndsWrapped(t0) && !(st.lines > 0 && st.want == |s0[yy + st.lines].cells| && !st.wrapped)
  }

  lemma FinishedText(t0: seq<Line>, base: seq<Line>, t: seq<Line>, t2: seq<Line>, owed: bool,
                     rest: seq<Line>, tail: seq<Line>, closed: bool)
    requires t != [] && SameWords(t0, base, t, owed, rest)
    requires |tail| == |rest| && forall i :: 0 <= i < |tail| ==> SameText(tail[i], rest[i])
    requires t2 == if closed then t[|t| - 1 := Unwrapped(t[|t| - 1])] else t
    ensures SameTotal(t0, base, t2, false, tail, false)
  {
    TokensSame(tail, rest, false);
    assert SameTotal(t0, base, t, owed, rest, false);
    if closed {
      TokensUnwrapped(t, t2);
    }
  }

  lemma FinishedBreaks(t0: seq<Line>, base: seq<Line>, t: seq<Line>, t2: seq<Line>, owed: bool,
                       rest: seq<Line>, tail: seq<Line>, closed: bool)
    requires EndsWrapped(t) && !t[|t| - 1].dead && SameWords(t0, base, t, owed, rest) && (owed ==> closed)
    requires |tail| == |rest| && forall i :: 0 <= i < |tail| ==> SameText(tail[i], rest[i])
    requires t2 == if closed then t[|t| - 1 := Unwrapped(t[|t| - 1])] else t
    ensures BreaksJoined(t0, base, t2, tail, closed && !owed)
  {
    TokensSame(tail, rest, true);
    assert SameTotal(t0, base, t, owed, rest, true);
    if closed {
      TokensEnd(t, t2);
    }
    CountBreaks(Tokens(t0, true), Tokens(base, true), Tokens(t, true), Tokens(rest, true), owed, closed);
  }

  function Break(b: bool): seq<Token> {
    if b then [Newline] else []
  }

  lemma CountBreaks(a: seq<Token>, b: seq<Token>, c: seq<Token>, d: seq<Token>, owed: bool, closed: bool)
    requires a + b == c + Break(owed) + d && (owed ==> closed)
    ensures a + b == c + Break(closed) + [] + d <==> owed == closed
    ensures multiset(c + Break(closed))[Newline] + multiset(d)[Newline]
      == multiset(a)[Newline] + multiset(b)[Newline] + if closed && !owed then 1 else 0
  {
    CountBoth(a, b);
    CountBoth(c + Break(owed), d);
    CountBoth(c, Break(owed));
    CountBoth(c, Break(closed));
    assert c + Break(closed) + [] + d == c + Break(closed) + d;
    assert |c + Break(closed) + d| == |c| + |Break(closed)| + |d|;
  }

  lemma CountBoth(a: seq<Token>, b: seq<Token>)
    ensures multiset(a + b)[Newline] == multiset(a)[Newline] + multiset(b)[Newline]
  {
    assert multiset(a + b) == multiset(a) + multiset(b);
  }

  lemma FinishedUsedUp(s0: seq<Line>, t: seq<Line>, s: seq<Line>, t2: seq<Line>, s2: seq<Line>,
                       yy: nat, st: JoinState, k: nat)
    requires MarksOnly(s0, s, yy, st.lines) && Counted(st, s0, yy) && st.lines > 0
    requires t != [] && Finished(t, s, t2, s2, yy, st, k)
    ensures UsedUp(s0, s2, yy, k)
  {
    assert SameText(s[yy + st.lines], s0[yy + st.lines]);
  }

  lemma FinishedEnd(t0: seq<Line>, s0: seq<Line>, t: seq<Line>, s: seq<Line>, t2: seq<Line>, s2: seq<Line>,
                    yy: nat, st: JoinState, k: nat)
    requires SameLast(t0, t) && yy + st.lines < |s0| == |s| && st.lines > 0
    requires st.want <= |s0[yy + st.lines].cells| && s[yy + st.lines].cells == s0[yy + st.lines].cells
    requires Finished(t, s, t2, s2, yy, st, k)
    ensures LastEnded(t0, t2, s0, yy, st)
  {
  }

  lemma JoinAbsorbs(t0: seq<Line>, s0: seq<Line>, t: seq<Line>, s: seq<Line>, t2: seq<Line>, s2: seq<Line>,
                    sx: nat, yy: nat, st: JoinState, k: nat, slack: nat)
    requires Joining(t0, s0, t, s, sx, yy, st, slack) && st.lines > 0 && !t0[|t0| - 1].dead
    requires slack == 0 && JoinedFlowing(t0[|t0| - 1], s0[yy + 1..], sx, false, false) ==> st.ended
    requires Finished(t, s, t2, s2, yy, st, k)
    ensures Absorbed(t0, s0, t2, s2, sx, yy, k, slack) && JoinedUpTo(s0, s2, yy, st, k)
    ensures LastEnded(t0, t2, s0, yy, st)
    ensures EndsWrapped(t0) ==> BreaksJoined(t0, s0[yy + 1..], t2, s2[k..], MadeUp(s0, yy, st))
  {
    hide SameWords, SameTotal, BreaksJoined, LastEnded;
    var part := st.want < |s[yy + st.lines].cells|;
    assert SameText(s[yy + st.lines], s0[yy + st.lines]);
    FinishedEnd(t0, s0, t, s, t2, s2, yy, st, k);
    FinishedUsedUp(s0, t, s, t2, s2, yy, st, k);
    FinishedTail(s0, t, s, t2, s2, yy, st, k);
    var rest, tail := Rest(s0, yy, st.lines, st.want), s2[k..];
    FlowingSame(tail, rest);
    FinishedText(t0, s0[yy + 1..], t, t2, Owing(s0, yy, st), rest, tail, !part && !st.wrapped);
    if EndsWrapped(t0) {
      FinishedBreaks(t0, s0[yy + 1..], t, t2, Owing(s0, yy, st), rest, tail, !part && !st.wrapped);
    }
  }

  lemma JoinNothing(t0: seq<Line>, s0: seq<Line>, t: seq<Line>, s: seq<Line>, sx: nat, yy: nat, st: JoinState, slack: nat)
    requires Joining(t0, s0, t, s, sx, yy, st, slack) && st.lines == 0
    requires slack == 0 && JoinedFlowing(t0[|t0| - 1], s0[yy + 1..], sx, false, false) ==> st.ended
    ensures Absorbed(t0, s0, t, s, sx, yy, yy + 1, slack) && JoinedUpTo(s0, s, yy, st, yy + 1)
    ensures LastEnded(t0, t, s0, yy, st)
    ensures EndsWrapped(t0) ==> BreaksJoined(t0, s0[yy + 1..], t, s[yy + 1..], MadeUp(s0, yy, st))
  {
    hide Width, SameTotal, BreaksJoined;
    assert s == s0;
    assert SameTotal(t0, s0[yy + 1..], t, false, s0[yy + 1..], false);
    if EndsWrapped(t0) {
      BreaksSame(t0, s0[yy + 1..], t, s0[yy + 1..]);
    }
  }

  lemma SameEnds(t0: seq<Line>, base: seq<Line>, t: seq<Line>, rest: seq<Line>)
    requires SameTotal(t0, base, t, false, rest, true)
    ensures Ends(t) + Ends(rest) == Ends(t0) + Ends(base)
  {
    CountBoth(Tokens(t0, true), Tokens(base, true));
    CountBoth(Tokens(t, true) + [], Tokens(rest, true));
    assert Tokens(t, true) + [] == Tokens(t, true);
  }

  lemma BreaksSame(t0: seq<Line>, base: seq<Line>, t: seq<Line>, rest: seq<Line>)
    requires SameTotal(t0, base, t, false, rest, true)
    ensures BreaksJoined(t0, base, t, rest, false)
  {
    SameEnds(t0, base, t, rest);
  }

  lemma JoinRunEnd(s0: seq<Line>, sx: nat, yy: nat, width: nat)
    requires yy < |s0| && width < sx
    ensures var end := JoinRun(s0, sx, yy, Joinable(width));
      Counted(end, s0, yy) && (MadeUp(s0, yy, end) <==> StoppedShort(s0, sx, yy, end))
  {
    hide JoinRun;
    MadeUpIsStoppedShort(s0, sx, yy, Joinable(width));
  }

  // grid_reflow_join: the lines below are joined onto the line at yy, which is moved across first
  // unless it is already the last target line. The width it is given is at least that of the line, and
  // the text is kept. If the target line is wrapped, breaks are kept exactly if the loop does not stop
  // short, and otherwise one break is added.
  method Join(target: Grid, gd: Grid, sx: nat, yy: nat, width: nat, already: bool) returns (ghost k: nat)
    requires target != gd && target.Valid() && target.hsize == 0 && gd.Valid() && yy < |gd.linedata|
    requires var gl := if already then target.linedata else gd.linedata[yy..yy + 1];
      gl != [] && !gl[|gl| - 1].dead && Width(gl[|gl| - 1].cells) <= width < sx
    requires forall i :: yy < i < |gd.linedata| ==> !gd.linedata[i].dead
    modifies target`linedata, target`sy, gd`linedata, gd`hscrolled
    ensures target.Valid() && gd.Valid()
    ensures var t0 := if already then old(target.linedata) else old(target.linedata) + [old(gd.linedata[yy])];
      var s0 := if already then old(gd.linedata) else old(gd.linedata)[yy := DEAD_LINE];
      var end := JoinRun(s0, sx, yy, Joinable(width));
      && Absorbed(t0, s0, target.linedata, gd.linedata, sx, yy, k, width - Width(t0[|t0| - 1].cells))
      && Counted(end, s0, yy) && JoinedUpTo(s0, gd.linedata, yy, end, k)
      && LastEnded(t0, target.linedata, s0, yy, end)
      && (EndsWrapped(t0) ==>
            BreaksJoined(t0, s0[yy + 1..], target.linedata, gd.linedata[k..], StoppedShort(s0, sx, yy, end)))
    ensures target.linedata != [] && |target.linedata| == |old(target.linedata)| + (if already then 0 else 1)
    ensures yy < k && gd.hscrolled == JoinScroll(old(gd.hscrolled), |target.linedata| - 1, k - yy - 1)
  {
    hide JoinedFlowing, Joining, JoinRun, StoppedShort, BreaksJoined, Absorbed, JoinedUpTo, LastEnded, Counted, MadeUp, Finished;
    if !already {
      Move(target, gd, yy);
    }
    ghost var t0, s0 := target.linedata, gd.linedata;
    ghost var slack := width - Width(t0[|t0| - 1].cells);
    JoinRunEnd(s0, sx, yy, width);
    var st := JoinLoop(target, gd, sx, yy, width, slack);
    if st.lines == 0 {
      k := yy + 1;
      JoinNothing(t0, s0, target.linedata, gd.linedata, sx, yy, st, slack);
      return;
    }
    ghost var t, s := target.linedata, gd.linedata;
    k := JoinFinish(target, gd, yy, st);
    FinishedLength(t, s, target.linedata, gd.linedata, yy, st, k);
    JoinAbsorbs(t0, s0, t, s, target.linedata, gd.linedata, sx, yy, st, k, slack);
  }

  lemma FinishedLength(t: seq<Line>, s: seq<Line>, t2: seq<Line>, s2: seq<Line>, yy: nat, st: JoinState, k: nat)
    requires t != [] && yy + st.lines < |s| && Finished(t, s, t2, s2, yy, st, k)
    ensures |t2| == |t|
  {
  }

  // ----- Splitting -----

  // How many times a line of sx columns fills up while cells are laid out, starting width columns in.
  function Overflows(cells: seq<Cell>, width: nat, sx: nat): nat {
    if cells == [] then 0
    else if width + cells[0].data.width > sx then 1 + Overflows(cells[1..], cells[0].data.width, sx)
    else Overflows(cells[1..], width + cells[0].data.width, sx)
  }

  // How many lines of sx columns n columns take beyond the first.
  function Extra(n: nat, sx: nat): nat
    requires sx > 0
  {
    if n == 0 then 0 else (n - 1) / sx
  }

  lemma WidthHead(cells: seq<Cell>)
    requires cells != []
    ensures Width(cells) == cells[0].data.width + Width(cells[1..])
  {
    assert cells == [cells[0]] + cells[1..];
    WidthConcat([cells[0]], cells[1..]);
    OneCell(cells[0]);
  }

  lemma {:induction false} OverflowsThin(cells: seq<Cell>, width: nat, sx: nat)
    requires Thin(cells) && width <= sx && sx > 0
    ensures Overflows(cells, width, sx) == Extra(width + Width(cells), sx)
    decreases |cells|
  {
    if cells == [] {
      DivSmall(if width == 0 then 0 else width - 1, sx);
    } else {
      WidthHead(cells);
      OverflowsThin(cells[1..], NextWidth(width, cells[0], sx), sx);
      if width + cells[0].data.width > sx {
        DivStep(Width(cells[1..]), sx);
      }
    }
  }

  lemma DivStep(n: nat, d: nat)
    requires d > 0
    ensures (d + n) / d == 1 + n / d
  {
    var a, b := 1 + n / d, (d + n) / d;
    assert d * (n / d) + n % d == n;
    assert d * b + (d + n) % d == d + n;
    assert d * a == d + d * (n / d);
    if a < b {
      Scale(d, a + 1, b);
    } else if b < a {
      Scale(d, b + 1, a);
    }
  }

  lemma Scale(d: nat, m: nat, n: nat)
    requires m <= n
    ensures d * m <= d * n && d * m == d * (m - 1) + d
  {
  }

  lemma DivSmall(n: nat, d: nat)
    requires n < d
    ensures n / d == 0
  {
  }

  lemma {:induction false} WidthThin(cells: seq<Cell>)
    requires Thin(cells)
    ensures Width(cells) <= |cells| && (Width(cells) == |cells| <==> Unit(cells))
    decreases |cells|
  {
    if cells != [] {
      var n := |cells| - 1;
      WidthThin(cells[..n]);
      assert cells == cells[..n] + [cells[n]];
      UnitPush(cells[..n], cells[n]);
    }
  }

  // The measuring loop of grid_reflow: the width of a line and where it passes sx columns. A line
  // without the extended flag is taken to be as wide as it has cells, which is too much if any of them
  // is padding. The loop takes 0 to mean that it has not passed sx yet, so a first cell wider than sx
  // goes unnoticed.
  method Measure(gl: Line, sx: nat) returns (width: nat, at: nat)
    requires LineOk(gl) && sx > 0
    ensures Width(gl.cells) <= width && at <= |gl.cells|
    ensures width == Width(gl.cells) <==> gl.extended || Unit(gl.cells)
    ensures width > sx && Fits(gl.cells, sx) ==> at > 0 && Width(gl.cells[..at]) <= sx
    ensures width > sx && (Unit(gl.cells) || !gl.extended) ==> at == sx < |gl.cells|
  {
    at, width := 0, 0;
    if !gl.extended {
      WidthThin(gl.cells);
      width := |gl.cells|;
      at := if width > sx then sx else width;
      assert Thin(gl.cells[..at]);
      WidthThin(gl.cells[..at]);
    } else {
      for i := 0 to |gl.cells|
        invariant width == Width(gl.cells[..i]) && at <= i
        invariant Unit(gl.cells) ==> width == i && (at == 0 ==> i <= sx) && (at != 0 ==> at == sx)
        invariant Fits(gl.cells, sx) && at == 0 ==> width <= sx
        invariant Fits(gl.cells, sx) && at > 0 ==> Width(gl.cells[..at]) <= sx
      {
        assert gl.cells[..i + 1] == gl.cells[..i] + [gl.cells[i]];
        WidthPush(gl.cells[..i], gl.cells[i]);
        if at == 0 && width + gl.cells[i].data.width > sx {
          at := i;
        }
        width := width + gl.cells[i].data.width;
      }
      assert gl.cells[..|gl.cells|] == gl.cells;
    }
  }

  // The lines that grid_reflow_split adds but does not write to: it counts cells, not columns, of a line
  // without the extended flag.
  function Unused(gl: Line, sx: nat, at: nat): int
    requires sx > 0 && at <= |gl.cells|
  {
    if gl.extended then 0 else Extra(|gl.cells[at..]|, sx) - Extra(Width(gl.cells[at..]), sx)
  }

  lemma SplitCountThin(gl: Line, sx: nat)
    requires LineOk(gl) && !gl.extended && 0 < sx < |gl.cells|
    ensures 1 + (|gl.cells| - 1) / sx == 2 + Overflows(gl.cells[sx..], 0, sx) + Unused(gl, sx, sx)
  {
    var n: nat := |gl.cells| - 1 - sx;
    OverflowsThin(gl.cells[sx..], 0, sx);
    assert |gl.cells| - 1 == sx + n;
    DivStep(n, sx);
  }

  lemma UnusedCount(gl: Line, sx: nat, at: nat)
    requires LineOk(gl) && sx > 0 && at <= |gl.cells|
    ensures Unused(gl, sx, at) >= 0 && (Unit(gl.cells) ==> Unused(gl, sx, at) == 0)
  {
    if !gl.extended {
      var rest := gl.cells[at..];
      assert Thin(rest);
      WidthThin(rest);
      if 0 < Width(rest) {
        DivGrows(Width(rest) - 1, |rest| - 1, sx);
      }
    }
  }

  lemma DivGrows(m: nat, n: nat, d: nat)
    requires m <= n && d > 0
    ensures m / d <= n / d
  {
    if n / d < m / d {
      Scale(d, n / d + 1, m / d);
    }
  }

  // A tab's padding and five characters, as grid_reflow_split leaves them when the tab itself does not
  // fit: split to three columns, the line is given four lines and takes three.
  lemma SplitLeavesLine(c: Cell)
    requires c.data.width == 1 && !NeedsExtended(c)
    ensures var pad := Blank(Indexed(8)).(data := PADDING_GLYPH, flags := {PADDING});
      var gl := EMPTY_LINE.(cells := seq(7, _ => pad) + seq(5, _ => c));
      LineOk(gl) && 1 + (|gl.cells| - 1) / 3 == 4 && 2 + Overflows(gl.cells[3..], 0, 3) == 3 && Unused(gl, 3, 3) == 1
  {
    var pad := Blank(Indexed(8)).(data := PADDING_GLYPH, flags := {PADDING});
    var gl := EMPTY_LINE.(cells := seq(7, _ => pad) + seq(5, _ => c));
    var rest := gl.cells[3..];
    assert rest == seq(4, _ => pad) + seq(5, _ => c);
    WidthConcat(seq(4, _ => pad), seq(5, _ => c));
    WidthUnit(seq(5, _ => c));
    WidthNone(seq(4, _ => pad));
    OverflowsThin(rest, 0, 3);
  }

  lemma {:induction false} WidthNone(cells: seq<Cell>)
    requires forall i :: 0 <= i < |cells| ==> cells[i].data.width == 0
    ensures Width(cells) == 0
    decreases |cells|
  {
    if cells != [] {
      WidthNone(cells[..|cells| - 1]);
    }
  }

  // Where laying out one more cell leaves the line that takes it.
  function NextWidth(width: nat, c: Cell, sx: nat): nat {
    if width + c.data.width > sx then c.data.width else width + c.data.width
  }

  lemma OverflowsStep(cells: seq<Cell>, i: nat, width: nat, sx: nat)
    requires i < |cells|
    ensures Overflows(cells[i..], width, sx) ==
      Overflows(cells[i + 1..], NextWidth(width, cells[i], sx), sx)
      + if width + cells[i].data.width > sx then 1 else 0
  {
    assert cells[i..][1..] == cells[i + 1..];
  }

  // How many lines grid_reflow_split adds: those it will write to and the unused ones.
  method SplitCount(gl: Line, sx: nat, at: nat) returns (lines: nat)
    requires LineOk(gl) && sx > 0 && at <= |gl.cells|
    requires !gl.extended ==> at == sx < |gl.cells|
    ensures lines == 2 + Overflows(gl.cells[at..], 0, sx) + Unused(gl, sx, at)
  {
    if !gl.extended {
      lines := 1 + (|gl.cells| - 1) / sx;
      SplitCountThin(gl, sx);
    } else {
      lines := 2;
      var width: nat := 0;
      for i := at to |gl.cells|
        invariant lines + Overflows(gl.cells[i..], width, sx) == 2 + Overflows(gl.cells[at..], 0, sx)
      {
        OverflowsStep(gl.cells, i, width, sx);
        if width + gl.cells[i].data.width > sx {
          lines := lines + 1;
          width := 0;
        }
        width := width + gl.cells[i].data.width;
      }
    }
  }

  // The new lines while a line is being laid out: lines 1 to line hold done, the later ones nothing.
  ghost predicate Laid(t: seq<Line>, line: nat, done: seq<Cell>, sx: nat) {
    && 1 <= line < |t|
    && (forall j :: 1 <= j < line ==> t[j].wrapped)
    && !t[line].wrapped
    && (forall j :: 1 <= j <= line ==> LineOk(t[j]))
    && (forall j :: line < j < |t| ==> t[j] == EMPTY_LINE)
    && Tokens(t[1..line], true) + Chars(t[line].cells) == Chars(done)
    && (Fits(done, sx) ==> forall j :: 1 <= j <= line ==> Width(t[j].cells) <= sx)
    && (Unit(done) ==> LaidFull(t, line, sx) && (done != [] ==> t[line].cells != []))
  }

  // Lines 1 to line hold unit cells, and all but the last are full.
  ghost predicate LaidFull(t: seq<Line>, line: nat, sx: nat) {
    && 1 <= line < |t|
    && (forall j :: 1 <= j < line ==> Unit(t[j].cells) && |t[j].cells| == sx)
    && Unit(t[line].cells) && |t[line].cells| <= sx
  }

  lemma UnitPush(done: seq<Cell>, c: Cell)
    ensures Unit(done + [c]) <==> Unit(done) && c.data.width == 1
  {
    assert forall i :: 0 <= i < |done| ==> done[i] == (done + [c])[i];
    assert (done + [c])[|done|] == c;
  }

  lemma OneCell(c: Cell)
    ensures Width([c]) == c.data.width && (Unit([c]) <==> c.data.width == 1)
  {
    WidthPush([], c);
    assert [] + [c] == [c];
  }

  lemma FitsPush(done: seq<Cell>, c: Cell, sx: nat)
    ensures Fits(done + [c], sx) <==> Fits(done, sx) && c.data.width <= sx
  {
    assert forall i :: 0 <= i < |done| ==> done[i] == (done + [c])[i];
    assert (done + [c])[|done|] == c;
  }

  lemma CharsPush(cells: seq<Cell>, c: Cell)
    ensures Chars(cells + [c]) == Chars(cells) + [Char(c)]
  {
  }

  lemma LaidStart(t: seq<Line>, done: seq<Cell>, sx: nat)
    requires |t| >= 2 && done == [] && forall j :: 1 <= j < |t| ==> t[j] == EMPTY_LINE
    ensures Laid(t, 1, done, sx) && Width(t[1].cells) == 0
  {
    assert t[1..1] == [] && Chars([]) == [];
  }

  lemma LaidOn(t: seq<Line>, line: nat, done: seq<Cell>, c: Cell, t2: seq<Line>, sx: nat)
    requires Laid(t, line, done, sx) && Width(t[line].cells) + c.data.width <= sx
    requires |t2| == |t| && t2 == t[line := t2[line]]
    requires t2[line].cells == t[line].cells + [c] && !t2[line].wrapped && LineOk(t2[line])
    ensures Laid(t2, line, done + [c], sx)
  {
    hide Chars, Tokens, Fits, Unit, Width, LineOk;
    CharsPush(done, c);
    CharsPush(t[line].cells, c);
    assert t2[1..line] == t[1..line];
    WidthPush(t[line].cells, c);
    UnitPush(done, c);
    FitsPush(done, c, sx);
    if Unit(done + [c]) {
      UnitPush(t[line].cells, c);
      WidthUnit(t2[line].cells);
    }
  }

  lemma LaidBreakText(t: seq<Line>, line: nat, done: seq<Cell>, c: Cell, t2: seq<Line>, sx: nat)
    requires Laid(t, line, done, sx) && line + 1 < |t| == |t2|
    requires t2[..line] == t[..line] && t2[line].cells == t[line].cells && t2[line].wrapped
    requires t2[line + 1].cells == [c]
    ensures Tokens(t2[1..line + 1], true) + Chars(t2[line + 1].cells) == Chars(done + [c])
  {
    CharsPush(done, c);
    assert t2[1..line + 1] == t[1..line] + [t2[line]] by {
      assert forall i :: 1 <= i < line ==> t2[i] == t2[..line][i] == t[..line][i];
    }
    TokensPush(t[1..line], t2[line], true);
  }

  lemma LaidBreak(t: seq<Line>, line: nat, done: seq<Cell>, c: Cell, t2: seq<Line>, sx: nat)
    requires Laid(t, line, done, sx) && Width(t[line].cells) + c.data.width > sx > 0
    requires line + 1 < |t| && |t2| == |t| && t2 == t[line := t2[line]][line + 1 := t2[line + 1]]
    requires t2[line].cells == t[line].cells && t2[line].wrapped && LineOk(t2[line])
    requires t2[line + 1].cells == [c] && !t2[line + 1].wrapped && LineOk(t2[line + 1])
    ensures Laid(t2, line + 1, done + [c], sx)
  {
    hide Chars, Tokens, Fits, Unit, Width, LineOk;
    LaidBreakText(t, line, done, c, t2, sx);
    UnitPush(done, c);
    FitsPush(done, c, sx);
    OneCell(c);
    if Unit(done + [c]) {
      WidthUnit(t[line].cells);
    }
  }


  lemma OverflowsNone(cells: seq<Cell>, width: nat, sx: nat)
    requires cells == []
    ensures Overflows(cells, width, sx) == 0
  {
  }

  function CellCount(lines: seq<Line>): nat {
    if lines == [] then 0 else CellCount(lines[..|lines| - 1]) + |lines[|lines| - 1].cells|
  }

  // Marker m is on line j, c cells on from the start of the lines.
  ghost predicate MarkAt(lines: seq<Line>, j: nat, m: Marker, c: nat) {
    j < |lines| && m in lines[j].marks && CellCount(lines[..j]) + lines[j].marks[m] == c
  }

  // Part way through a split of a line with markers all: those on the lines before line are on their cells,
  // and the rest are in marks, by how far past the start of line they are.
  ghost predicate MarksPlaced(t: seq<Line>, line: nat, marks: map<Marker, nat>, all: map<Marker, nat>) {
    && line < |t|
    && (forall m :: m in marks ==> m in all && CellCount(t[..line]) + marks[m] == all[m])
    && (forall m :: m in all && m !in marks ==> OnCell(t, line, m, all[m]))
    && (forall j :: 0 <= j < |t| ==> t[j].marks.Keys <= all.Keys && t[j].marks.Keys !! marks.Keys)
    && (forall j :: line <= j < |t| ==> t[j].marks == map[])
    && (forall i, j :: 0 <= i < j < |t| ==> t[i].marks.Keys !! t[j].marks.Keys)
  }

  // Marker m is on cell c, which is on a line before line.
  ghost predicate OnCell(t: seq<Line>, line: nat, m: Marker, c: nat) {
    exists j: nat :: j < line && MarkAt(t, j, m, c) && t[j].marks[m] < |t[j].cells|
  }

  lemma OnCellSame(t: seq<Line>, t2: seq<Line>, line: nat, m: Marker, c: nat)
    requires OnCell(t, line, m, c) && line <= |t| == |t2| && t2[..line] == t[..line]
    ensures OnCell(t2, line, m, c) && OnCell(t2, line + 1, m, c)
  {
    hide CellCount;
    var j: nat :| j < line && MarkAt(t, j, m, c) && t[j].marks[m] < |t[j].cells|;
    assert t2[..j] == t2[..line][..j] == t[..line][..j] == t[..j];
    assert t2[j] == t2[..line][j] == t[..line][j] == t[j];
    assert MarkAt(t2, j, m, c);
  }

  lemma PlacedOn(t: seq<Line>, line: nat, marks: map<Marker, nat>, all: map<Marker, nat>, c: Cell, t2: seq<Line>)
    requires MarksPlaced(t, line, marks, all) && |t2| == |t| && t2 == t[line := t2[line]]
    requires t2[line].cells == t[line].cells + [c] && t2[line].marks == t[line].marks
    ensures MarksPlaced(t2, line, marks, all) && CellCount(t2[..line + 1]) == CellCount(t[..line + 1]) + 1
  {
    hide CellCount, OnCell;
    assert t2[..line] == t[..line];
    CountLine(t, line);
    CountLine(t2, line);
    forall m | m in all && m !in marks
      ensures OnCell(t2, line, m, all[m])
    {
      OnCellSame(t, t2, line, m, all[m]);
    }
    assert forall j :: 0 <= j < |t| ==> t2[j].marks == t[j].marks;
  }

  lemma CountLine(t: seq<Line>, line: nat)
    requires line < |t|
    ensures CellCount(t[..line + 1]) == CellCount(t[..line]) + |t[line].cells|
  {
    assert t[..line + 1][..line] == t[..line];
  }

  // The line is full: its markers are those of its cells, and the rest are further on.
  lemma PlacedFull(t: seq<Line>, line: nat, marks: map<Marker, nat>, all: map<Marker, nat>, t2: seq<Line>)
    requires MarksPlaced(t, line, marks, all) && line + 1 < |t2| == |t| && t2 == t[line := t2[line]]
    requires t2[line].cells == t[line].cells
    requires t2[line].marks == t[line].marks + MarksTaken(marks, 0, |t[line].cells|, false)
    ensures MarksPlaced(t2, line + 1, MarksLeft(marks, |t[line].cells|, false), all)
    ensures CellCount(t2[..line + 1]) == CellCount(t[..line + 1])
  {
    hide CellCount, OnCell;
    assert t2[..line] == t[..line];
    CountLine(t, line);
    CountLine(t2, line);
    forall m | m in all && m !in MarksLeft(marks, |t[line].cells|, false)
      ensures OnCell(t2, line + 1, m, all[m])
    {
      if m in marks {
        OnCellNow(t2, line, m, all[m]);
      } else {
        OnCellSame(t, t2, line, m, all[m]);
      }
    }
    assert forall j :: 0 <= j < |t| && j != line ==> t2[j].marks == t[j].marks;
  }

  lemma OnCellNow(t: seq<Line>, line: nat, m: Marker, c: nat)
    requires MarkAt(t, line, m, c) && t[line].marks[m] < |t[line].cells|
    ensures OnCell(t, line + 1, m, c)
  {
  }

  // Every marker of a line is on its cell of the lines it has been split into, once; one past the end of
  // the line is as far past the end of the last line written to.
  ghost predicate MarksFollow(l: Line, f: seq<Line>) {
    && (forall m :: m in l.marks ==>
          exists j: nat :: MarkAt(f, j, m, l.marks[m]) && (l.marks[m] < |l.cells| ==> f[j].marks[m] < |f[j].cells|))
    && (forall j :: 0 <= j < |f| ==> f[j].marks.Keys <= l.marks.Keys)
    && (forall i, j :: 0 <= i < j < |f| ==> f[i].marks.Keys !! f[j].marks.Keys)
  }

  lemma PlacedLast(l: Line, t: seq<Line>, line: nat, marks: map<Marker, nat>, t2: seq<Line>)
    requires MarksPlaced(t, line, marks, l.marks) && |t2| == |t| && t2 == t[line := t2[line]]
    requires t2[line].cells == t[line].cells && CellCount(t[..line + 1]) == |l.cells|
    requires t2[line].marks == t[line].marks + MarksTaken(marks, 0, |t[line].cells|, true)
    ensures MarksFollow(l, t2)
  {
    hide CellCount, OnCell;
    assert t2[..line] == t[..line];
    CountLine(t, line);
    TakenLast(marks, |t[line].cells|);
    assert t[line].marks == map[] && t2[line].marks == marks;
    assert forall j :: 0 <= j < |t| && j != line ==> t2[j].marks == t[j].marks;
    forall m | m in l.marks
      ensures exists j: nat :: MarkAt(t2, j, m, l.marks[m]) && (l.marks[m] < |l.cells| ==> t2[j].marks[m] < |t2[j].cells|)
    {
      if m in marks {
        assert MarkAt(t2, line, m, l.marks[m]);
      } else {
        OnCellSame(t, t2, line, m, l.marks[m]);
        OnSome(t2, line, m, l.marks[m]);
      }
    }
  }

  lemma OnSome(t: seq<Line>, line: nat, m: Marker, c: nat)
    requires OnCell(t, line, m, c)
    ensures exists j: nat :: MarkAt(t, j, m, c) && t[j].marks[m] < |t[j].cells|
  {
  }

  lemma TakenLast(marks: map<Marker, nat>, count: nat)
    ensures MarksTaken(marks, 0, count, true) == marks && map[] + marks == marks
  {
  }

  lemma PlacedStart(gl: Line, at: nat, first: Line, t: seq<Line>)
    requires at <= |gl.cells| && first.cells == gl.cells[..at] && first.marks == MarksTaken(gl.marks, 0, at, false)
    requires |t| > 1 && t[0] == first && forall j :: 1 <= j < |t| ==> t[j] == EMPTY_LINE
    ensures MarksPlaced(t, 1, MarksLeft(gl.marks, at, false), gl.marks) && CellCount(t[..2]) == at
  {
    assert t[..1] == [first] && [first][..0] == [] && t[..2][..1] == [first];
    assert CellCount([first]) == at;
    forall m | m in gl.marks && m !in MarksLeft(gl.marks, at, false)
      ensures OnCell(t, 1, m, gl.marks[m])
    {
      assert t[..0] == [];
      assert MarkAt(t, 0, m, gl.marks[m]);
    }
  }

  // One turn of the copying loop of grid_reflow_split.
  method SplitPut(t0: seq<Line>, line0: nat, marks0: map<Marker, nat>, width0: nat, sx: nat, gc: Cell,
                  ghost done: seq<Cell>, ghost all: map<Marker, nat>)
    returns (t: seq<Line>, line: nat, marks: map<Marker, nat>, width: nat)
    requires sx > 0 && Laid(t0, line0, done, sx) && width0 == Width(t0[line0].cells)
    requires MarksPlaced(t0, line0, marks0, all)
    requires width0 + gc.data.width > sx ==> line0 + 1 < |t0|
    ensures |t| == |t0| && t[0] == t0[0] && 1 <= line < |t| && Laid(t, line, done + [gc], sx)
    ensures line == if width0 + gc.data.width > sx then line0 + 1 else line0
    ensures width == Width(t[line].cells) == NextWidth(width0, gc, sx)
    ensures MarksPlaced(t, line, marks, all) && CellCount(t[..line + 1]) == CellCount(t0[..line0 + 1]) + 1
  {
    hide Line.SetCell, Tokens, Unit, Fits, Chars, MarksPlaced, CellCount, MarksTaken, MarksLeft;
    t, line, marks, width := t0, line0, marks0, width0;
    if width0 + gc.data.width > sx {
      var xx := |t[line].cells|;
      var full := t[line].(wrapped := true, marks := t[line].marks + MarksTaken(marks, 0, xx, false));
      marks := MarksLeft(marks, xx, false);
      t := t[line := full];
      ghost var t1 := t;
      PlacedFull(t0, line0, marks0, all, t1);
      line, width := line + 1, 0;
      t := t[line := t[line].SetCell(0, gc)];
      WidthPush([], gc);
      assert [] + [gc] == [gc];
      LaidBreak(t0, line0, done, gc, t, sx);
      PlacedOn(t1, line, marks, all, gc, t);
      CountLine(t1, line);
    } else {
      t := t[line := t[line].SetCell(|t[line].cells|, gc)];
      WidthPush(t0[line].cells, gc);
      LaidOn(t0, line0, done, gc, t, sx);
      PlacedOn(t0, line, marks, all, gc, t);
    }
    width := width + gc.data.width;
  }

  // The copying loop of grid_reflow_split, for the cells past the first line, over the lines it has
  // added. It writes to the second and to one more each time a line fills up.
  method SplitCopy(cells: seq<Cell>, sx: nat, marks0: map<Marker, nat>, first: seq<Line>, ghost all: map<Marker, nat>)
    returns (t: seq<Line>, line: nat, marks: map<Marker, nat>, width: nat)
    requires sx > 0 && |first| >= 2 + Overflows(cells, 0, sx)
    requires forall j :: 1 <= j < |first| ==> first[j] == EMPTY_LINE
    requires MarksPlaced(first, 1, marks0, all)
    ensures |t| == |first| && t[0] == first[0]
    ensures 1 <= line < |t| && MarksPlaced(t, line, marks, all)
    ensures CellCount(t[..line + 1]) == CellCount(first[..2]) + |cells|
    ensures line == 1 + Overflows(cells, 0, sx) && Laid(t, line, cells, sx)
    ensures width == Width(t[line].cells)
  {
    hide Laid, Overflows, Width, MarksPlaced, CellCount;
    line := 1;
    t, marks, width := first, marks0, 0;
    LaidStart(first, cells[..0], sx);
    for i := 0 to |cells|
      invariant |t| == |first| && t[0] == first[0] && 1 <= line < |t|
      invariant Laid(t, line, cells[..i], sx)
      invariant 1 + Overflows(cells, 0, sx) == line + Overflows(cells[i..], width, sx)
      invariant width == Width(t[line].cells)
      invariant MarksPlaced(t, line, marks, all) && CellCount(t[..line + 1]) == CellCount(first[..2]) + i
    {
      OverflowsStep(cells, i, width, sx);
      assert cells[..i + 1] == cells[..i] + [cells[i]];
      t, line, marks, width := SplitPut(t, line, marks, width, sx, cells[i], cells[..i], all);
    }
    OverflowsNone(cells[|cells|..], width, sx);
    assert cells[..|cells|] == cells;
  }

  // ----- One step of grid_reflow -----

  ghost predicate AllFit(lines: seq<Line>, sx: nat) {
    forall i :: 0 <= i < |lines| ==> Fits(lines[i].cells, sx)
  }

  ghost predicate Narrow(lines: seq<Line>, sx: nat) {
    forall i :: 0 <= i < |lines| ==> Width(lines[i].cells) <= sx
  }

  ghost predicate Good(t: seq<Line>, rest: seq<Line>, sx: nat) {
    Filled(t, sx) && Flowing(rest) && (EndsWrapped(t) ==> Continues(rest))
  }

  // There are more columns than cells, all of them one column wide.
  ghost predicate Wide(lines: seq<Line>, sx: nat) {
    UnitAll(lines) && |Tokens(lines, false)| < sx
  }

  // With more columns than cells, lines yy to k are one logical line, or all of it but a bare end; and a
  // bare end left behind after two or more lines costs a break.
  ghost predicate WideStep(t0: seq<Line>, s0: seq<Line>, t: seq<Line>, s: seq<Line>, yy: nat, k: nat)
    requires yy < k <= |s| == |s0|
  {
    && s[k..] == s0[k..]
    && (forall j :: yy <= j < k - 1 ==> s0[j].wrapped)
    && (k < |s0| && s0[k - 1].wrapped ==> Bare(s0[k]))
    && (k > yy + 1 ==> !Bare(s0[k - 1]))
    && Ends(t) + Ends(s[k..]) >=
         Ends(t0) + Ends(s0[yy..]) + if k > yy + 1 && k < |s0| && s0[k - 1].wrapped then 1 else 0
  }

  // Source lines yy to k have gone to the target and nothing has been lost, repeated or reordered;
  // no target line is too wide if every cell fits; breaks are kept if the lines are tied; and under the
  // chunking hypotheses the target stays filled.
  ghost predicate Advanced(t0: seq<Line>, s0: seq<Line>, t: seq<Line>, s: seq<Line>, sx: nat, yy: nat, k: nat) {
    && yy < k <= |s| == |s0|
    && (forall i :: yy <= i < k ==> s[i].dead)
    && LeftFrom(s0, s, k)
    && (AllOk(t0) ==> AllOk(t))
    && (AllFit(s0[yy..], sx) && Narrow(t0, sx) ==> Narrow(t, sx))
    && SameTotal(t0, s0[yy..], t, false, s[k..], false)
    && (UnitAll(s0[yy..]) && Tied(s0[yy..]) ==> SameTotal(t0, s0[yy..], t, false, s[k..], true))
    && (Wide(s0[yy..], sx) ==> WideStep(t0, s0, t, s, yy, k))
    && (Good(t0, s0[yy..], sx) ==> Good(t, s[k..], sx))
    && (UnitAll(s0[yy..]) && k == |s| && !s0[k - 1].wrapped ==> !EndsWrapped(t))
  }

  lemma TokensTail(s: seq<Line>, yy: nat, breaks: bool)
    requires yy < |s|
    ensures Tokens(s[yy..], breaks) == LineTokens(s[yy], breaks) + Tokens(s[yy + 1..], breaks)
  {
    assert s[yy..][1..] == s[yy + 1..];
  }

  lemma MovedTotal(t0: seq<Line>, s0: seq<Line>, yy: nat, breaks: bool)
    requires yy < |s0|
    ensures SameTotal(t0, s0[yy..], t0 + [s0[yy]], false, s0[yy + 1..], breaks)
  {
    TokensPush(t0, s0[yy], breaks);
    TokensTail(s0, yy, breaks);
  }

  lemma WideWidth(s: seq<Line>, sx: nat, yy: nat)
    requires yy < |s| && Wide(s[yy..], sx)
    ensures Unit(s[yy].cells) && |s[yy].cells| == Width(s[yy].cells) && UnitAll(s[yy + 1..])
    ensures |s[yy].cells| + |Tokens(s[yy + 1..], false)| < sx
  {
    assert s[yy..][0] == s[yy];
    TokensTail(s, yy, false);
    WidthUnit(s[yy].cells);
    assert forall i :: yy < i < |s| ==> s[i] == s[yy..][i - yy];
  }

  // Moving a line that is just right, or that is narrower and ends its logical line.
  lemma AdvanceMove(t0: seq<Line>, s0: seq<Line>, s: seq<Line>, sx: nat, yy: nat)
    requires yy < |s0| && LineOk(s0[yy]) && sx > 0
    requires Width(s0[yy].cells) <= sx && (s0[yy].wrapped && Unit(s0[yy].cells) ==> Width(s0[yy].cells) == sx)
    requires s == s0[yy := DEAD_LINE]
    ensures Advanced(t0, s0, t0 + [s0[yy]], s, sx, yy, yy + 1)
  {
    hide SameTotal, Width, LineOk, Ends, Unit, Bare;
    var l, t := s0[yy], t0 + [s0[yy]];
    assert s[yy + 1..] == s0[yy + 1..];
    MovedTotal(t0, s0, yy, false);
    MovedTotal(t0, s0, yy, true);
    SameEnds(t0, s0[yy..], t, s[yy + 1..]);
    if Wide(s0[yy..], sx) {
      WideWidth(s0, sx, yy);
    }
    if Good(t0, s0[yy..], sx) {
      assert s0[yy..][0] == l && s0[yy..][1..] == s0[yy + 1..];
      FlowingTail(s0[yy..]);
      WidthUnit(l.cells);
      assert Filled(t, sx);
    }
  }

  lemma SameTotalTrans(t0: seq<Line>, s0: seq<Line>, t1: seq<Line>, s1: seq<Line>, t2: seq<Line>, s2: seq<Line>, breaks: bool)
    requires SameTotal(t0, s0, t1, false, s1, breaks) && SameTotal(t1, s1, t2, false, s2, breaks)
    ensures SameTotal(t0, s0, t2, false, s2, breaks)
  {
  }

  // Moving a line across and then joining keeps the text if the join does.
  lemma MovedThenJoined(t0: seq<Line>, s0: seq<Line>, t: seq<Line>, rest: seq<Line>, yy: nat, breaks: bool)
    requires yy < |s0| && SameTotal(t0 + [s0[yy]], s0[yy + 1..], t, false, rest, breaks)
    ensures SameTotal(t0, s0[yy..], t, false, rest, breaks)
  {
    MovedTotal(t0, s0, yy, breaks);
    SameTotalTrans(t0, s0[yy..], t0 + [s0[yy]], s0[yy + 1..], t, rest, breaks);
  }

  lemma MovedFlowing(t0: seq<Line>, s0: seq<Line>, sx: nat, yy: nat)
    requires yy < |s0| && s0[yy].wrapped && Width(s0[yy].cells) < sx && Good(t0, s0[yy..], sx)
    ensures JoinedFlowing(s0[yy], s0[yy + 1..], sx, false, false)
  {
    assert s0[yy..][0] == s0[yy] && s0[yy..][1..] == s0[yy + 1..];
    FlowingTail(s0[yy..]);
    WidthUnit(s0[yy].cells);
  }

  // What a join onto a wrapped line says about breaks, for the lines from yy on.
  ghost predicate JoinKept(t0: seq<Line>, s0: seq<Line>, t: seq<Line>, s: seq<Line>,
                           sx: nat, yy: nat, k: nat, width: nat)
    requires yy < |s0| && k <= |s|
  {
    var s1 := s0[yy := DEAD_LINE];
    var end := JoinRun(s1, sx, yy, Joinable(width));
    && Counted(end, s1, yy) && JoinedUpTo(s1, s, yy, end, k) && LastEnded(t0, t, s1, yy, end)
    && BreaksJoined(t0, s0[yy + 1..], t, s[k..], StoppedShort(s1, sx, yy, end))
  }

  lemma JoinKeptTied(t0: seq<Line>, s0: seq<Line>, t: seq<Line>, s: seq<Line>, sx: nat, yy: nat, k: nat, width: nat)
    requires yy < |s0| && k <= |s| && s0[yy].wrapped && width < sx
    requires JoinKept(t0, s0, t, s, sx, yy, k, width) && UnitAll(s0[yy..]) && Tied(s0[yy..])
    ensures SameTotal(t0, s0[yy + 1..], t, false, s[k..], true)
  {
    hide JoinRun, SameTotal, UnitAll, Tied, StoppedShort;
    if StoppedShort(s0[yy := DEAD_LINE], sx, yy, JoinRun(s0[yy := DEAD_LINE], sx, yy, Joinable(width))) {
      ShortIsLoose(s0, sx, yy, width);
    }
  }

  lemma JoinKeptEnd(t0: seq<Line>, s0: seq<Line>, t: seq<Line>, s: seq<Line>, sx: nat, yy: nat, k: nat, width: nat)
    requires yy < |s0| == |s| && k == |s| && s0[yy].wrapped && JoinKept(t0, s0, t, s, sx, yy, k, width)
    ensures !s0[k - 1].wrapped ==> !EndsWrapped(t)
  {
    hide JoinRun, BreaksJoined, StoppedShort;
  }

  lemma JoinKeptWide(t0: seq<Line>, s0: seq<Line>, t: seq<Line>, s: seq<Line>, sx: nat, yy: nat, k: nat)
    requires yy < |s0| == |s| && k <= |s| && s0[yy].wrapped && Wide(s0[yy..], sx)
    requires JoinKept(t0 + [s0[yy]], s0, t, s, sx, yy, k, Width(s0[yy].cells))
    ensures yy < k && WideStep(t0, s0, t, s, yy, k)
  {
    hide JoinRun, SameTotal, StoppedShort, Ends, Bare, Tokens, Unit;
    var s1, st := s0[yy := DEAD_LINE], Joinable(Width(s0[yy].cells));
    WideWidth(s0, sx, yy);
    assert s1[yy + 1..] == s0[yy + 1..];
    JoinRunWide(s1, sx, yy, st);
    var end := JoinRun(s1, sx, yy, st);
    assert s1[k..] == s0[k..];
    MovedTotal(t0, s0, yy, true);
    SameEnds(t0, s0[yy..], t0 + [s0[yy]], s0[yy + 1..]);
  }

  // Moving a wrapped line across and joining what follows onto it.
  lemma AdvanceJoin(t0: seq<Line>, s0: seq<Line>, s1: seq<Line>, t: seq<Line>, s: seq<Line>,
                    sx: nat, yy: nat, k: nat, width: nat)
    requires yy < |s0| && s0[yy].wrapped && LineOk(s0[yy]) && Width(s0[yy].cells) <= width < sx
    requires Unit(s0[yy].cells) ==> width == Width(s0[yy].cells)
    requires s1 == s0[yy := DEAD_LINE]
    requires Absorbed(t0 + [s0[yy]], s1, t, s, sx, yy, k, width - Width(s0[yy].cells))
    requires JoinKept(t0 + [s0[yy]], s0, t, s, sx, yy, k, width)
    ensures Advanced(t0, s0, t, s, sx, yy, k)
  {
    hide SameTotal, Width, JoinKept, WideStep, UnitAll, Tied, LineOk, Good, FlowsOn, JoinedFlowing;
    var gl := t[|t| - 1];
    assert s1[yy + 1..] == s0[yy + 1..];
    assert t == t0 + [gl] && s[yy] == s[..yy + 1][yy] == DEAD_LINE;
    MovedThenJoined(t0, s0, t, s[k..], yy, false);
    if k == |s| {
      JoinKeptEnd(t0 + [s0[yy]], s0, t, s, sx, yy, k, width);
    }
    if UnitAll(s0[yy..]) && Tied(s0[yy..]) {
      JoinKeptTied(t0 + [s0[yy]], s0, t, s, sx, yy, k, width);
      MovedThenJoined(t0, s0, t, s[k..], yy, true);
    }
    if Wide(s0[yy..], sx) {
      WideWidth(s0, sx, yy);
      JoinKeptWide(t0, s0, t, s, sx, yy, k);
    }
    if Good(t0, s0[yy..], sx) {
      GoodUnit(t0, s0, sx, yy);
      MovedFlowing(t0, s0, sx, yy);
      GoodPush(t0, s0, gl, s[k..], sx, yy);
    }
  }

  lemma GoodPush(t0: seq<Line>, s0: seq<Line>, gl: Line, rest: seq<Line>, sx: nat, yy: nat)
    requires yy < |s0| && Good(t0, s0[yy..], sx) && FlowsOn(gl, rest, sx)
    ensures Good(t0 + [gl], rest, sx)
  {
    FilledPush(t0, gl, sx);
  }

  lemma FilledPush(t: seq<Line>, l: Line, sx: nat)
    requires Filled(t, sx) && Unit(l.cells) && |l.cells| <= sx && (l.wrapped ==> |l.cells| == sx)
    requires EndsWrapped(t) ==> l.cells != []
    ensures Filled(t + [l], sx)
  {
  }

  // The lines f that grid_reflow_split makes of l: the first at cells, then the rest laid out as f0 up
  // to `line`, which is wrapped only if l was; the others are unused.
  ghost predicate SplitInto(l: Line, f0: seq<Line>, f: seq<Line>, at: nat, sx: nat, line: nat) {
    && |f0| == |f| && at <= |l.cells|
    && 1 <= line < |f| && (Unit(l.cells) ==> line == |f| - 1)
    && f0[0].cells == l.cells[..at] && f0[0].wrapped && LineOk(f0[0])
    && Laid(f0, line, l.cells[at..], sx)
    && f == f0[line := f[line]]
    && f[line].cells == f0[line].cells && f[line].wrapped == l.wrapped && LineOk(f[line])
  }

  lemma {:induction false} TokensWrapped(lines: seq<Line>, breaks: bool)
    requires forall i :: 0 <= i < |lines| ==> lines[i].wrapped
    ensures Tokens(lines, breaks) == Tokens(lines, true)
  {
    if lines != [] {
      TokensWrapped(lines[1..], breaks);
    }
  }

  lemma {:induction false} TokensUnused(lines: seq<Line>)
    requires forall i :: 0 <= i < |lines| ==> lines[i] == EMPTY_LINE
    ensures Tokens(lines, false) == []
  {
    if lines != [] {
      TokensUnused(lines[1..]);
    }
  }

  // The text of the lines written to.
  lemma SplitText(l: Line, f0: seq<Line>, f: seq<Line>, at: nat, sx: nat, line: nat, breaks: bool)
    requires SplitInto(l, f0, f, at, sx, line) && LineOk(l)
    ensures Tokens(f[..line + 1], breaks) == LineTokens(l, breaks)
    ensures breaks ==> line == |f| - 1 ==> Tokens(f, breaks) == LineTokens(l, breaks)
    ensures Tokens(f, false) == LineTokens(l, false)
  {
    SplitWritten(l, f0, f, at, sx, line, breaks);
    SplitWritten(l, f0, f, at, sx, line, false);
    var unused := f[line + 1..];
    assert f == f[..line + 1] + unused;
    TokensConcat(f[..line + 1], unused, false);
    TokensUnused(unused);
    if line == |f| - 1 {
      assert f[..line + 1] == f;
    }
  }

  lemma LaidText(t: seq<Line>, line: nat, done: seq<Cell>, sx: nat)
    requires Laid(t, line, done, sx)
    ensures 1 <= line < |t| && Tokens(t[1..line], true) + Chars(t[line].cells) == Chars(done)
    ensures forall j :: 0 <= j < line - 1 ==> t[1..line][j].wrapped
  {
  }

  lemma SplitWritten(l: Line, f0: seq<Line>, f: seq<Line>, at: nat, sx: nat, line: nat, breaks: bool)
    requires SplitInto(l, f0, f, at, sx, line) && !l.dead
    ensures Tokens(f[..line + 1], breaks) == LineTokens(l, breaks)
  {
    hide Tokens, Laid;
    var mid := f0[1..line];
    LaidText(f0, line, l.cells[at..], sx);
    assert f[..line + 1] == ([f0[0]] + mid) + [f[line]];
    TokensPush([f0[0]] + mid, f[line], breaks);
    TokensConcat([f0[0]], mid, breaks);
    TokensOne(f0[0], breaks);
    TokensWrapped(mid, breaks);
    assert l.cells == l.cells[..at] + l.cells[at..];
    assert Chars(l.cells) == Chars(l.cells[..at]) + Chars(l.cells[at..]);
    Regroup(Chars(l.cells[..at]), Tokens(mid, true), Chars(f[line].cells), if breaks && !l.wrapped then [Newline] else []);
  }

  lemma SplitTotal(t0: seq<Line>, s0: seq<Line>, f: seq<Line>, yy: nat, breaks: bool)
    requires yy < |s0| && Tokens(f, breaks) == LineTokens(s0[yy], breaks)
    ensures SameTotal(t0, s0[yy..], t0 + f, false, s0[yy + 1..], breaks)
  {
    hide Tokens, LineTokens;
    TokensConcat(t0, f, breaks);
    TokensTail(s0, yy, breaks);
  }

  lemma SplitFits(l: Line, f0: seq<Line>, f: seq<Line>, at: nat, sx: nat, line: nat)
    requires SplitInto(l, f0, f, at, sx, line)
    ensures AllOk(f)
    ensures Fits(l.cells, sx) && Width(l.cells[..at]) <= sx ==> Narrow(f, sx)
  {
  }

  // Under the chunking hypotheses every new line but the last is full.
  lemma SplitFilled(t0: seq<Line>, l: Line, f0: seq<Line>, f: seq<Line>, at: nat, sx: nat)
    requires |f| > 0 && SplitInto(l, f0, f, at, sx, |f| - 1) && Unit(l.cells) && 0 < at == sx < |l.cells|
    requires Filled(t0, sx)
    ensures var n := |f| - 1;
      Filled(t0 + f[..n], sx) && EndsWrapped(t0 + f[..n]) && Unit(f[n].cells) && 0 < |f[n].cells| <= sx
  {
    var n := |f| - 1;
    var head := t0 + f[..n];
    assert Unit(l.cells[at..]) && Unit(l.cells[..at]);
    forall i | 0 <= i < |head|
      ensures Unit(head[i].cells) && |head[i].cells| <= sx && (head[i].wrapped ==> |head[i].cells| == sx)
      ensures i > 0 && head[i - 1].wrapped ==> head[i].cells != []
    {
      if i >= |t0| {
        assert head[i] == f[i - |t0|] == f0[i - |t0|];
      }
    }
    assert head[|head| - 1] == f[n - 1] == f0[n - 1];
  }

  // The line at yy is split into f at `at`: what Split has done when it comes to the join.
  ghost predicate SplitAt(s0: seq<Line>, f0: seq<Line>, f: seq<Line>, at: nat, sx: nat, yy: nat, line: nat) {
    && yy < |s0| && LineOk(s0[yy]) && sx > 0 && SplitInto(s0[yy], f0, f, at, sx, line)
    && (Fits(s0[yy].cells, sx) ==> Width(s0[yy].cells[..at]) <= sx)
    && (Unit(s0[yy].cells) ==> at == sx < |s0[yy].cells|)
    && !Wide(s0[yy..], sx)
  }

  // Splitting a line when nothing is to be joined to its last piece.
  lemma AdvanceSplit(t0: seq<Line>, s0: seq<Line>, s: seq<Line>, f0: seq<Line>, f: seq<Line>,
                     at: nat, sx: nat, yy: nat, line: nat)
    requires SplitAt(s0, f0, f, at, sx, yy, line) && s == s0[yy := DEAD_LINE]
    requires s0[yy].wrapped ==> Width(f[line].cells) >= sx
    ensures Advanced(t0, s0, t0 + f, s, sx, yy, yy + 1)
  {
    hide SameTotal, Laid, Filled, Flowing, Fits, Tied, Wide, WideStep, LineOk;
    var l, n := s0[yy], |f| - 1;
    assert s[yy + 1..] == s0[yy + 1..];
    assert s0[yy..][0] == l && s0[yy..][1..] == s0[yy + 1..];
    SplitFits(l, f0, f, at, sx, line);
    SplitText(l, f0, f, at, sx, line, true);
    SplitTotal(t0, s0, f, yy, false);
    if Unit(l.cells) {
      SplitTotal(t0, s0, f, yy, true);
    }
    if Good(t0, s0[yy..], sx) {
      FlowingTail(s0[yy..]);
      SplitFilled(t0, l, f0, f, at, sx);
      WidthUnit(f[n].cells);
      FilledPush(t0 + f[..n], f[n], sx);
      assert t0 + f == t0 + f[..n] + [f[n]];
    }
  }

  lemma SplitThenJoined(t0: seq<Line>, s0: seq<Line>, f0: seq<Line>, f: seq<Line>, t: seq<Line>, rest: seq<Line>,
                        at: nat, sx: nat, yy: nat, line: nat, breaks: bool)
    requires yy < |s0| && LineOk(s0[yy]) && SplitInto(s0[yy], f0, f, at, sx, line) && (breaks ==> Unit(s0[yy].cells))
    requires SameTotal(t0 + f, s0[yy + 1..], t, false, rest, breaks)
    ensures SameTotal(t0, s0[yy..], t, false, rest, breaks)
  {
    hide SameTotal, Laid;
    SplitText(s0[yy], f0, f, at, sx, line, breaks);
    SplitTotal(t0, s0, f, yy, breaks);
    SameTotalTrans(t0, s0[yy..], t0 + f, s0[yy + 1..], t, rest, breaks);
  }

  lemma SplitGood(t0: seq<Line>, s0: seq<Line>, f0: seq<Line>, f: seq<Line>, at: nat, sx: nat, yy: nat)
    requires |f| > 0 && SplitAt(s0, f0, f, at, sx, yy, |f| - 1) && Good(t0, s0[yy..], sx)
    requires s0[yy].wrapped && Width(f[|f| - 1].cells) < sx
    ensures var n := |f| - 1;
      && Filled(t0 + f[..n], sx) && EndsWrapped(t0 + f[..n])
      && JoinedFlowing(f[n], s0[yy + 1..], sx, false, false)
  {
    assert s0[yy..][0] == s0[yy] && s0[yy..][1..] == s0[yy + 1..];
    FlowingTail(s0[yy..]);
    SplitFilled(t0, s0[yy], f0, f, at, sx);
    WidthUnit(f[|f| - 1].cells);
  }

  lemma SplitJoinGood(t0: seq<Line>, s0: seq<Line>, s1: seq<Line>, f0: seq<Line>, f: seq<Line>,
                      t: seq<Line>, s: seq<Line>, at: nat, sx: nat, yy: nat, k: nat)
    requires |f| > 0 && SplitAt(s0, f0, f, at, sx, yy, |f| - 1) && s1 == s0[yy := DEAD_LINE]
    requires s0[yy].wrapped && Width(f[|f| - 1].cells) < sx
    requires Absorbed(t0 + f, s1, t, s, sx, yy, k, 0) && Good(t0, s0[yy..], sx)
    ensures Good(t, s[k..], sx)
  {
    hide SameTotal, Laid, Width;
    var head, gl, rest := t0 + f[..|f| - 1], t[|t| - 1], s[k..];
    assert s1[yy + 1..] == s0[yy + 1..];
    assert (t0 + f)[..|t0 + f| - 1] == head;
    assert t == head + [gl];
    SplitGood(t0, s0, f0, f, at, sx, yy);
    assert (t0 + f)[|t0 + f| - 1] == f[|f| - 1];
    FilledPush(head, gl, sx);
  }

  // Splitting a wrapped line and joining what follows onto the last line added.
  lemma AdvanceSplitJoin(t0: seq<Line>, s0: seq<Line>, s1: seq<Line>, f0: seq<Line>, f: seq<Line>,
                         t: seq<Line>, s: seq<Line>, at: nat, sx: nat, yy: nat, line: nat, k: nat)
    requires SplitAt(s0, f0, f, at, sx, yy, line) && s1 == s0[yy := DEAD_LINE]
    requires s0[yy].wrapped && Width(f[line].cells) < sx
    requires Absorbed(t0 + f, s1, t, s, sx, yy, k, Width(f[line].cells) - Width(f[|f| - 1].cells))
    requires f[|f| - 1].wrapped ==> JoinKept(t0 + f, s0, t, s, sx, yy, k, Width(f[line].cells))
    ensures Advanced(t0, s0, t, s, sx, yy, k)
  {
    hide SameTotal, Laid, Width, Good, Fits, Tied, Wide, WideStep, LineOk, JoinKept;
    assert t[..|t| - 1] == t0 + f[..|f| - 1] && s[yy] == s[..yy + 1][yy] == DEAD_LINE;
    assert s1[yy + 1..] == s0[yy + 1..] && s0[yy..][0] == s0[yy];
    SplitFits(s0[yy], f0, f, at, sx, line);
    SplitThenJoined(t0, s0, f0, f, t, s[k..], at, sx, yy, line, false);
    if k == |s| && f[|f| - 1].wrapped {
      JoinKeptEnd(t0 + f, s0, t, s, sx, yy, k, Width(f[line].cells));
    }
    if UnitAll(s0[yy..]) && Tied(s0[yy..]) {
      JoinKeptTied(t0 + f, s0, t, s, sx, yy, k, Width(f[line].cells));
      SplitThenJoined(t0, s0, f0, f, t, s[k..], at, sx, yy, line, true);
    }
    if Good(t0, s0[yy..], sx) {
      GoodUnit(t0, s0, sx, yy);
      SplitJoinGood(t0, s0, s1, f0, f, t, s, at, sx, yy, k);
    }
  }

  lemma GoodUnit(t0: seq<Line>, s0: seq<Line>, sx: nat, yy: nat)
    requires yy < |s0| && Good(t0, s0[yy..], sx)
    ensures Unit(s0[yy].cells)
  {
    assert s0[yy..][0] == s0[yy];
  }

  // grid_reflow_split. The lines it adds and does not write to stay empty, and a join goes on at the last
  // of them.
  method Split(target: Grid, gd: Grid, sx: nat, yy: nat, at: nat) returns (ghost k: nat)
    requires target != gd && target.Valid() && target.hsize == 0 && gd.Valid() && sx > 0
    requires yy < |gd.linedata| && AllOk(gd.linedata[yy..]) && at <= |gd.linedata[yy].cells|
    requires var l := gd.linedata[yy];
      && (!l.extended || Unit(l.cells) ==> at == sx < |l.cells|)
      && (Fits(l.cells, sx) ==> Width(l.cells[..at]) <= sx)
    requires !Wide(gd.linedata[yy..], sx)
    modifies target`linedata, target`sy, gd`linedata, gd`hscrolled
    ensures target.Valid() && gd.Valid()
    ensures Advanced(old(target.linedata), old(gd.linedata), target.linedata, gd.linedata, sx, yy, k)
    ensures yy < k && |old(target.linedata)| < |target.linedata|
    ensures gd.hscrolled ==
      ScrollStep(old(gd.hscrolled), yy, |old(target.linedata)|, |target.linedata|, k - yy - 1)
  {
    hide Laid, Width, Overflows, Wide, Unit, Fits, LineOk, Absorbed, JoinRun, BreaksJoined, JoinedUpTo, LastEnded, StoppedShort,
      Counted, Advanced, Thin, ScrollStep, JoinScroll;
    ghost var t0, s0, h := target.linedata, gd.linedata, gd.hscrolled;
    OkFrom(s0, yy);
    var gl := gd.linedata[yy];
    ghost var f0;
    var lines := SplitCount(gl, sx, at);
    var t, line, width;
    t, line, width, f0 := SplitLines(gl, sx, at, lines);
    target.linedata, target.sy := target.linedata + t, target.sy + lines;
    gd.linedata := gd.linedata[yy := DEAD_LINE];
    if yy <= gd.hscrolled {
      gd.hscrolled := gd.hscrolled + lines - 1;
    }
    if width < sx && gl.wrapped {
      ghost var s1 := gd.linedata;
      SplitLast(gl, f0, t, at, sx, line);
      k := Join(target, gd, sx, yy, width, true);
      assert s1[yy + 1..] == s0[yy + 1..];
      AdvanceSplitJoin(t0, s0, s1, f0, t, target.linedata, gd.linedata, at, sx, yy, line, k);
      SplitScroll(h, yy, |t0|, lines, k - yy - 1);
    } else {
      k := yy + 1;
      AdvanceSplit(t0, s0, gd.linedata, f0, t, at, sx, yy, line);
      SplitScroll(h, yy, |t0|, lines, 0);
    }
  }

  // The lines that grid_reflow_split makes of a line.
  method SplitLines(gl: Line, sx: nat, at: nat, lines: nat) returns (t: seq<Line>, line: nat, width: nat, ghost f0: seq<Line>)
    requires LineOk(gl) && sx > 0 && at <= |gl.cells| && (!gl.extended || Unit(gl.cells) ==> at == sx < |gl.cells|)
    requires lines == 2 + Overflows(gl.cells[at..], 0, sx) + Unused(gl, sx, at)
    ensures |t| == lines && SplitInto(gl, f0, t, at, sx, line) && width == Width(t[line].cells)
    ensures MarksFollow(gl, t)
  {
    hide Laid, Width, Overflows, Unit, Fits, LineOk, MarksPlaced, MarksTaken, MarksLeft, CellCount, MarksFollow, SplitInto;
    UnusedCount(gl, sx, at);
    var first := gl.(cells := gl.cells[..at], spare := [], wrapped := true,
                     marks := MarksTaken(gl.marks, 0, at, false));
    var made := [first] + seq(lines - 1, _ => EMPTY_LINE);
    PlacedStart(gl, at, first, made);
    var marks;
    t, line, marks, width := SplitCopy(gl.cells[at..], sx, MarksLeft(gl.marks, at, false), made, gl.marks);
    f0 := t;
    var last := t[line].(wrapped := gl.wrapped, marks := t[line].marks + MarksTaken(marks, 0, |t[line].cells|, true));
    t := t[line := last];
    SplitIntoMade(gl, first, f0, t, at, sx, line);
    PlacedLast(gl, f0, line, marks, t);
  }

  lemma SplitScroll(h: nat, yy: nat, before: nat, lines: nat, taken: nat)
    requires lines > 0
    ensures var h1 := if yy <= h then h + lines - 1 else h;
      && ScrollStep(h, yy, before, before + lines, taken) == JoinScroll(h1, before + lines - 1, taken)
      && JoinScroll(h1, before + lines - 1, 0) == h1
  {
  }

  lemma SplitIntoMade(gl: Line, first: Line, f0: seq<Line>, f: seq<Line>, at: nat, sx: nat, line: nat)
    requires LineOk(gl) && sx > 0 && at <= |gl.cells|
    requires |f| == |f0| == 2 + Overflows(gl.cells[at..], 0, sx) + Unused(gl, sx, at) && |f0| > line
    requires f0[0] == first == gl.(cells := gl.cells[..at], spare := [], wrapped := true, marks := first.marks)
    requires line == 1 + Overflows(gl.cells[at..], 0, sx) && Laid(f0, line, gl.cells[at..], sx)
    requires f == f0[line := f0[line].(wrapped := gl.wrapped, marks := f[line].marks)]
    ensures SplitInto(gl, f0, f, at, sx, line)
  {
    UnusedCount(gl, sx, at);
  }

  lemma SplitLast(l: Line, f0: seq<Line>, f: seq<Line>, at: nat, sx: nat, line: nat)
    requires SplitInto(l, f0, f, at, sx, line)
    ensures f != [] && LineOk(f[|f| - 1]) && Width(f[|f| - 1].cells) <= Width(f[line].cells)
  {
  }

  lemma OkFrom(s: seq<Line>, yy: nat)
    requires yy < |s| && AllOk(s[yy..])
    ensures forall i :: yy <= i < |s| ==> LineOk(s[i]) && !s[i].dead
  {
    forall i | yy <= i < |s|
      ensures LineOk(s[i]) && !s[i].dead
    {
      assert s[i] == s[yy..][i - yy];
    }
  }

  // The body of the grid_reflow loop, for a line that is not dead.
  method Step(target: Grid, gd: Grid, sx: nat, yy: nat) returns (ghost k: nat)
    requires target != gd && target.Valid() && target.hsize == 0 && gd.Valid() && sx > 0
    requires yy < |gd.linedata| && AllOk(gd.linedata[yy..])
    modifies target`linedata, target`sy, gd`linedata, gd`hscrolled
    ensures target.Valid() && gd.Valid()
    ensures Advanced(old(target.linedata), old(gd.linedata), target.linedata, gd.linedata, sx, yy, k)
    ensures yy < k && |old(target.linedata)| < |target.linedata|
    ensures gd.hscrolled ==
      ScrollStep(old(gd.hscrolled), yy, |old(target.linedata)|, |target.linedata|, k - yy - 1)
  {
    hide Width, Fits, Unit, Flowing, Filled, SameTotal, Absorbed, JoinRun, BreaksJoined, JoinedUpTo, LastEnded, StoppedShort,
      Counted, Advanced, Wide, Thin;
    ghost var t0, s0 := target.linedata, gd.linedata;
    OkFrom(s0, yy);
    var gl := gd.linedata[yy];
    var width, at := Measure(gl, sx);
    if width > sx {
      UnitFits(gl.cells, sx);
      NotWide(s0, sx, yy, width);
      k := Split(target, gd, sx, yy, at);
    } else if width < sx && gl.wrapped {
      k := Join(target, gd, sx, yy, width, false);
      assert s0[yy := DEAD_LINE][yy + 1..] == s0[yy + 1..];
      AdvanceJoin(t0, s0, s0[yy := DEAD_LINE], target.linedata, gd.linedata, sx, yy, k, width);
    } else {
      Move(target, gd, yy);
      k := yy + 1;
      AdvanceMove(t0, s0, gd.linedata, sx, yy);
    }
  }

  lemma NotWide(s: seq<Line>, sx: nat, yy: nat, width: nat)
    requires yy < |s| && width > sx && (width == Width(s[yy].cells) <==> s[yy].extended || Unit(s[yy].cells))
    ensures !Wide(s[yy..], sx)
  {
    if Wide(s[yy..], sx) {
      WideWidth(s, sx, yy);
    }
  }

  lemma UnitFits(cells: seq<Cell>, sx: nat)
    requires sx > 0
    ensures Unit(cells) || Thin(cells) ==> Fits(cells, sx)
  {
  }

  // ----- The whole run -----

  ghost predicate TextKept(o: seq<Line>, t: seq<Line>, rest: seq<Line>, breaks: bool) {
    SameTotal([], o, t, false, rest, breaks)
  }

  // With more columns than cells: the source from k on is untouched, and a loose line before k has
  // cost a break.
  ghost predicate WideRun(o: seq<Line>, t: seq<Line>, s: seq<Line>, k: nat) {
    && k <= |s| == |o| && s[k..] == o[k..]
    && (0 < k < |o| && o[k - 1].wrapped ==> Bare(o[k]))
    && Ends(t) + Ends(s[k..]) >= Ends(o)
    && ((exists i: nat :: i + 1 < k && Loose(o, i)) ==> Ends(t) + Ends(s[k..]) > Ends(o))
  }

  // Where grid_reflow stands at the head of its loop: source lines before k have been dealt with.
  ghost predicate Reflowing(o: seq<Line>, t: seq<Line>, s: seq<Line>, sx: nat, yy: nat, k: nat) {
    && yy <= k <= |s| == |o|
    && (forall i :: yy <= i < k ==> s[i].dead)
    && AllOk(t) && AllOk(s[k..])
    && (AllFit(o, sx) ==> Narrow(t, sx) && AllFit(s[k..], sx))
    && TextKept(o, t, s[k..], false)
    && (UnitAll(o) && Tied(o) ==> UnitAll(s[k..]) && Tied(s[k..]) && TextKept(o, t, s[k..], true))
    && (Wide(o, sx) ==> WideRun(o, t, s, k))
    && (Flowing(o) ==> Good(t, s[k..], sx))
    && (UnitAll(o) ==> UnitAll(s[k..]))
    && (UnitAll(o) && !EndsWrapped(o) ==> if k == |s| then !EndsWrapped(t) else !EndsWrapped(s))
  }

  lemma CutRest(s0: seq<Line>, s: seq<Line>, sx: nat, yy: nat, k: nat)
    requires yy < k <= |s| && LeftFrom(s0, s, k) && AllOk(s0[yy..])
    ensures AllOk(s[k..])
    ensures AllFit(s0[yy..], sx) ==> AllFit(s[k..], sx)
    ensures UnitAll(s0[yy..]) ==> UnitAll(s[k..])
    ensures UnitAll(s0[yy..]) && Tied(s0[yy..]) ==> Tied(s[k..])
  {
    var a, b := s0[yy..], s[k..];
    forall i | 0 <= i < |b|
      ensures var j := k + i - yy;
        0 <= j < |a| && (b[i] == a[j] || (b[i].cells != [] && CutOf(b[i], a[j])))
    {
      assert a[k + i - yy] == s0[k + i];
    }
    CutKeeps(a, b, sx, k - yy);
  }

  // Cutting a first line keeps what matters of the lines.
  lemma CutKeeps(a: seq<Line>, b: seq<Line>, sx: nat, d: nat)
    requires |a| == d + |b| && AllOk(a)
    requires forall i :: 0 <= i < |b| ==> b[i] == a[d + i] || (b[i].cells != [] && CutOf(b[i], a[d + i]))
    ensures AllOk(b) && (AllFit(a, sx) ==> AllFit(b, sx)) && (UnitAll(a) ==> UnitAll(b))
    ensures Tied(a) ==> Tied(b)
  {
    if Tied(a) {
      forall i: nat
        ensures !Loose(b, i)
      {
        assert !Loose(a, d + i);
        if i + 2 < |b| {
          assert a[d + (i + 1)].wrapped == b[i + 1].wrapped && (Bare(b[i + 2]) ==> Bare(a[d + (i + 2)]));
        }
      }
    }
  }

  lemma {:induction false} WideTail(o: seq<Line>, sx: nat, k: nat)
    requires k <= |o| && Wide(o, sx)
    ensures Wide(o[k..], sx)
  {
    assert o == o[..k] + o[k..];
    TokensConcat(o[..k], o[k..], false);
  }

  lemma WideRunStep(o: seq<Line>, t0: seq<Line>, s0: seq<Line>, t: seq<Line>, s: seq<Line>, yy: nat, k: nat)
    requires WideRun(o, t0, s0, yy) && yy < k <= |s| == |s0| && WideStep(t0, s0, t, s, yy, k)
    ensures WideRun(o, t, s, k)
  {
    hide Bare, Ends;
    assert s[k..] == o[k..] by {
      assert s0[k..] == s0[yy..][k - yy..] && o[k..] == o[yy..][k - yy..];
    }
    assert forall i :: yy <= i < |o| ==> s0[i] == s0[yy..][i - yy] == o[yy..][i - yy] == o[i];
    if i: nat :| i + 1 < k && Loose(o, i) {
      if i + 1 >= yy {
        LooseCosts(o, yy, k, i);
      } else {
        assert exists i: nat :: i + 1 < yy && Loose(o, i);
      }
    }
  }

  // A step that takes the first two of a loose three stops at the third.
  lemma LooseCosts(o: seq<Line>, yy: nat, k: nat, i: nat)
    requires yy < k <= |o| && i + 1 < k && yy <= i + 1 && Loose(o, i)
    requires 0 < yy && o[yy - 1].wrapped ==> Bare(o[yy])
    requires forall j :: yy <= j < k - 1 ==> o[j].wrapped
    requires k > yy + 1 ==> !Bare(o[k - 1])
    ensures k > yy + 1 && k < |o| && o[k - 1].wrapped
  {
    assert i >= yy;
  }

  lemma ReflowingStep(o: seq<Line>, t0: seq<Line>, s0: seq<Line>, t: seq<Line>, s: seq<Line>, sx: nat, yy: nat, k: nat)
    requires Reflowing(o, t0, s0, sx, yy, yy) && yy < |s0| && Advanced(t0, s0, t, s, sx, yy, k)
    ensures Reflowing(o, t, s, sx, yy + 1, k)
  {
    hide SameTotal, Good, AllFit, Narrow, AllOk, Tied, UnitAll, Wide, WideRun, WideStep, LeftFrom;
    CutRest(s0, s, sx, yy, k);
    LastKept(s0, s, k);
    SameTotalTrans([], o, t0, s0[yy..], t, s[k..], false);
    if UnitAll(o) && Tied(o) {
      SameTotalTrans([], o, t0, s0[yy..], t, s[k..], true);
    }
    if Wide(o, sx) {
      WideRunRest(o, t0, s0, yy);
      WideTail(o, sx, yy);
      WideRunStep(o, t0, s0, t, s, yy, k);
    }
  }

  lemma LastKept(s0: seq<Line>, s: seq<Line>, k: nat)
    requires LeftFrom(s0, s, k)
    ensures k < |s| ==> EndsWrapped(s) == EndsWrapped(s0)
  {
  }

  lemma WideRunRest(o: seq<Line>, t: seq<Line>, s: seq<Line>, k: nat)
    requires WideRun(o, t, s, k)
    ensures k <= |s| == |o| && s[k..] == o[k..]
  {
  }

  lemma ReflowingStart(o: seq<Line>, sx: nat)
    requires AllOk(o)
    ensures Reflowing(o, [], o, sx, 0, 0)
  {
    assert o[0..] == o;
  }

  // What the finished target t says about the original lines o. The text is the same whatever the
  // widths. If every cell is one column wide, breaks survive whenever the lines are tied, and when they
  // are not some width adds a break: any with more columns than there are cells.
  ghost predicate Reflowed(o: seq<Line>, t: seq<Line>, sx: nat) {
    && AllOk(t)
    && (AllFit(o, sx) ==> Narrow(t, sx))
    && Tokens(t, false) == Tokens(o, false)
    && (UnitAll(o) && Tied(o) ==> Tokens(t, true) == Tokens(o, true))
    && (Wide(o, sx) && !Tied(o) ==> Ends(t) > Ends(o))
    && (UnitAll(o) && !EndsWrapped(o) ==> !EndsWrapped(t))
    && (Flowing(o) ==> Filled(t, sx) && !EndsWrapped(t))
  }

  lemma FlowingTied(lines: seq<Line>)
    requires Flowing(lines)
    ensures UnitAll(lines) && Tied(lines)
  {
    forall i: nat
      ensures !Loose(lines, i)
    {
      if i + 2 < |lines| && lines[i + 1].wrapped {
        assert lines[i + 1 + 1].wrapped || lines[i + 1 + 1].cells != [];
      }
    }
  }

  lemma ReflowingEnd(o: seq<Line>, t: seq<Line>, s: seq<Line>, sx: nat)
    requires Reflowing(o, t, s, sx, |o|, |o|)
    ensures Reflowed(o, t, sx)
  {
    hide Filled, UnitAll, Wide;
    var rest := s[|o|..];
    assert rest == [] && TextKept(o, t, rest, false);
    assert [] + Tokens(o, false) == Tokens(o, false) && Tokens(t, false) + [] + [] == Tokens(t, false);
    assert [] + Tokens(o, true) == Tokens(o, true) && Tokens(t, true) + [] + [] == Tokens(t, true);
    if Wide(o, sx) && !Tied(o) {
      var i: nat :| Loose(o, i);
      assert i + 1 < |o|;
      assert Ends(rest) == 0;
    }
  }

  lemma ReflowingDead(o: seq<Line>, t: seq<Line>, s: seq<Line>, sx: nat, yy: nat, k: nat)
    requires Reflowing(o, t, s, sx, yy, k) && yy < |s| && s[yy].dead
    ensures Reflowing(o, t, s, sx, yy + 1, k)
  {
    if k < |s| {
      OkFrom(s, k);
    }
  }

  lemma NoStages(h: nat)
    ensures Stages([], 0, 0) && ScrollAll(h, [], 0, 0) == h
  {
  }

  lemma ReflowingHere(o: seq<Line>, t: seq<Line>, s: seq<Line>, sx: nat, yy: nat, k: nat)
    requires Reflowing(o, t, s, sx, yy, k) && yy < |s| && !s[yy].dead
    ensures k == yy
  {
  }

  // A step of grid_reflow: source line yy became the target lines from before up to after, the last of them
  // having used up taken lines more.
  datatype Stage = Stage(yy: nat, before: nat, after: nat, taken: nat)

  // Stages that follow one another, from the first source line up to line k and the first target line up to n.
  ghost predicate Stages(stages: seq<Stage>, k: nat, n: nat)
    decreases |stages|
  {
    if stages == [] then k == 0 && n == 0
    else
      var x := stages[|stages| - 1];
      k == x.yy + 1 + x.taken && n == x.after && x.before < n && Stages(stages[..|stages| - 1], x.yy, x.before)
  }

  ghost function ScrollAll(h: nat, stages: seq<Stage>, k: nat, n: nat): nat
    requires Stages(stages, k, n)
    decreases |stages|
  {
    if stages == [] then h
    else
      var x := stages[|stages| - 1];
      ScrollStep(ScrollAll(h, stages[..|stages| - 1], x.yy, x.before), x.yy, x.before, n, x.taken)
  }

  lemma StagesPush(h: nat, stages: seq<Stage>, yy: nat, n: nat, after: nat, k: nat)
    requires Stages(stages, yy, n) && yy < k && n < after
    ensures var more := stages + [Stage(yy, n, after, k - yy - 1)];
      Stages(more, k, after) && ScrollAll(h, more, k, after) == ScrollStep(ScrollAll(h, stages, yy, n), yy, n, after, k - yy - 1)
  {
    hide ScrollStep;
    var x := Stage(yy, n, after, k - yy - 1);
    assert (stages + [x])[..|stages|] == stages;
  }

  // Lines that are moved across one for one leave the scroll position where it is.
  lemma {:induction false} ScrollUnmoved(h: nat, stages: seq<Stage>, k: nat, n: nat)
    requires Stages(stages, k, n)
    requires forall i :: 0 <= i < |stages| ==> stages[i].taken == 0 && stages[i].after == stages[i].before + 1
    ensures ScrollAll(h, stages, k, n) == h && k == n == |stages|
    decreases |stages|
  {
    if stages != [] {
      var x := stages[|stages| - 1];
      ScrollUnmoved(h, stages[..|stages| - 1], x.yy, x.before);
    }
  }

  // The loop of grid_reflow: every source line goes to the target.
  method ReflowLoop(target: Grid, gd: Grid, sx: nat) returns (ghost stages: seq<Stage>)
    requires target != gd && target.Valid() && target.hsize == 0 && target.linedata == [] && gd.Valid() && sx > 0
    requires AllOk(gd.linedata)
    modifies target`linedata, target`sy, gd`linedata, gd`hscrolled
    ensures target.Valid() && gd.Valid()
    ensures Reflowed(old(gd.linedata), target.linedata, sx)
    ensures Stages(stages, |old(gd.linedata)|, |target.linedata|)
    ensures gd.hscrolled == ScrollAll(old(gd.hscrolled), stages, |old(gd.linedata)|, |target.linedata|)
  {
    hide Good, Flowing, TextKept, AllFit, Narrow, AllOk, UnitAll, Tied, Wide, WideRun, Advanced, Stages, ScrollAll, ScrollStep;
    ghost var o, h := gd.linedata, gd.hscrolled;
    ghost var k := 0;
    stages := [];
    NoStages(h);
    ReflowingStart(o, sx);
    var yy := 0;
    while yy < gd.hsize + gd.sy
      invariant target.Valid() && gd.Valid() && target.hsize == 0
      invariant Reflowing(o, target.linedata, gd.linedata, sx, yy, k)
      invariant Stages(stages, k, |target.linedata|) && gd.hscrolled == ScrollAll(h, stages, k, |target.linedata|)
    {
      if !gd.linedata[yy].dead {
        ghost var t, s, was := target.linedata, gd.linedata, gd.hscrolled;
        ReflowingHere(o, t, s, sx, yy, k);
        k := Step(target, gd, sx, yy);
        ReflowingStep(o, t, s, target.linedata, gd.linedata, sx, yy, k);
        StagesPush(h, stages, yy, |t|, |target.linedata|, k);
        stages := stages + [Stage(yy, |t|, |target.linedata|, k - yy - 1)];
      } else {
        ReflowingDead(o, target.linedata, gd.linedata, sx, yy, k);
      }
      assert yy < k;
      yy := yy + 1;
    }
    ReflowingEnd(o, target.linedata, gd.linedata, sx);
  }
}

// Lines scrolled into the history, and its limit.

module History {
  import opened GridCell
  import opened Grids
  import opened GridView

  // ----- Specification -----

  // The history and the visible rows of a grid, with its scroll counters.
  datatype View = View(history: seq<Line>, rows: seq<Line>, hscrolled: nat, added: nat, collected: nat)

  ghost function ViewOf(gd: Grid): View
    reads gd
    requires gd.Valid()
  {
    View(gd.linedata[..gd.hsize], gd.linedata[gd.hsize..], gd.hscrolled, gd.scrollAdded, gd.scrollCollected)
  }

  // How many of hsize history lines grid_collect_history frees: with all, down to the limit; otherwise a
  // tenth of the limit; at least one, once there are as many as the limit.
  function CollectCount(hsize: nat, hlimit: nat, all: bool): (n: nat)
    ensures n <= hsize
  {
    if hsize == 0 || hsize < hlimit then 0
    else
      var ny := if all then hsize - hlimit else hlimit / 10;
      if ny < 1 then 1 else ny
  }

  function Collected(v: View, hlimit: nat, all: bool): View {
    var n := CollectCount(|v.history|, hlimit, all);
    if n == 0 then v else
    v.(history := v.history[n..], collected := v.collected + n,
       hscrolled := if v.hscrolled > |v.history| - n then |v.history| - n else v.hscrolled)
  }

  // One step up of the rows upper to lower: the top one goes to the end of the history.
  datatype Scroll = Scroll(upper: nat, lower: nat, bg: Colour)

  predicate InScreen(s: Scroll, sy: nat) {
    s.upper <= s.lower < sy
  }

  function RowsUp(rows: seq<Line>, s: Scroll, sx: nat): (r: seq<Line>)
    requires InScreen(s, |rows|)
    ensures |r| == |rows|
  {
    rows[..s.upper] + rows[s.upper + 1..s.lower + 1] + [BlankLine(sx, s.bg)] + rows[s.lower + 1..]
  }

  function Scrolled(v: View, s: Scroll, hlimit: nat, sx: nat): (r: View)
    requires InScreen(s, |v.rows|)
    ensures |r.rows| == |v.rows|
  {
    var c := Collected(v, hlimit, false);
    View(c.history + [v.rows[s.upper]], RowsUp(v.rows, s, sx), c.hscrolled + 1, c.added + 1, c.collected)
  }

  function ScrolledAll(v: View, ops: seq<Scroll>, hlimit: nat, sx: nat): (r: View)
    requires forall k :: 0 <= k < |ops| ==> InScreen(ops[k], |v.rows|)
    ensures |r.rows| == |v.rows|
  {
    if ops == [] then v else Scrolled(ScrolledAll(v, ops[..|ops| - 1], hlimit, sx), ops[|ops| - 1], hlimit, sx)
  }

  // The lines scrolled off by a run, oldest first.
  function Off(v: View, ops: seq<Scroll>, hlimit: nat, sx: nat): seq<Line>
    requires forall k :: 0 <= k < |ops| ==> InScreen(ops[k], |v.rows|)
  {
    if ops == [] then []
    else
      var before := ScrolledAll(v, ops[..|ops| - 1], hlimit, sx);
      assert InScreen(ops[|ops| - 1], |v.rows|);
      Off(v, ops[..|ops| - 1], hlimit, sx) + [before.rows[ops[|ops| - 1].upper]]
  }

  ghost predicate IsSuffix(a: seq<Line>, b: seq<Line>) {
    |a| <= |b| && a == b[|b| - |a|..]
  }

  ghost predicate WithinLimit(v: View, hlimit: nat) {
    |v.history| <= hlimit && v.hscrolled <= |v.history|
  }

  // ----- One step -----

  // A scroll adds a line to the history while there are fewer than the limit. Once there are as many it first
  // frees a tenth of the limit, but at least one. What is left is always the latest, and the row scrolled
  // off is the last of it.
  lemma ScrollOnce(v: View, s: Scroll, hlimit: nat, sx: nat)
    requires InScreen(s, |v.rows|)
    ensures var w, h := Scrolled(v, s, hlimit, sx), |v.history|;
      var freed := if h == 0 || h < hlimit then 0 else if hlimit < 20 then 1 else hlimit / 10;
      && |w.history| == h + 1 - freed && IsSuffix(w.history, v.history + [v.rows[s.upper]])
      && w.hscrolled == 1 + (if freed > 0 && v.hscrolled > h - freed then h - freed else v.hscrolled)
      && w.added == v.added + 1 && w.collected == v.collected + freed && w.rows == RowsUp(v.rows, s, sx)
  {
    hide BlankLine, RowsUp, Collected;
    var c := Collected(v, hlimit, false);
    CollectedTo(v, hlimit, false);
    SuffixStep(c.history, v.history, 0, v.rows[s.upper]);
    assert c.history[0..] == c.history;
  }

  // Collecting everything over the limit brings the history to its limit, or to one line less if it was
  // there already.
  lemma CollectedTo(v: View, hlimit: nat, all: bool)
    ensures var w, h := Collected(v, hlimit, all), |v.history|;
      && IsSuffix(w.history, v.history) && w.rows == v.rows && w.added == v.added
      && w.collected == v.collected + h - |w.history|
      && (w.history != v.history ==> w.hscrolled == if v.hscrolled > |w.history| then |w.history| else v.hscrolled)
      && (h == 0 || h < hlimit ==> w == v)
      && (all && h > hlimit ==> |w.history| == hlimit)
      && (all && h == hlimit && h > 0 ==> |w.history| == h - 1)
      && (!all && h >= hlimit && h > 0 && hlimit < 20 ==> |w.history| == h - 1)
      && (!all && h >= hlimit && h > 0 && hlimit >= 20 ==> |w.history| == h - hlimit / 10)
  {
  }

  // A run that does not pass the limit frees nothing.
  lemma {:induction false} BelowLimit(v: View, ops: seq<Scroll>, hlimit: nat, sx: nat)
    requires forall k :: 0 <= k < |ops| ==> InScreen(ops[k], |v.rows|)
    requires |v.history| + |ops| <= hlimit
    ensures ScrolledAll(v, ops, hlimit, sx).history == v.history + Off(v, ops, hlimit, sx)
    decreases |ops|
  {
    hide RowsUp;
    if ops == [] {
      assert v.history + [] == v.history;
    } else {
      var init := ops[..|ops| - 1];
      BelowLimit(v, init, hlimit, sx);
      HistoryOfRun(v, init, hlimit, sx);
      assert InScreen(ops[|ops| - 1], |v.rows|);
    }
  }

  // ----- Any run of scroll steps -----

  // Nothing is invented or reordered: the history is the latest part of what it was followed by the
  // lines scrolled off. It stays within its limit, or if a reflow has left it over its limit it never grows
  // while it is, and the counters account for every line.
  lemma {:induction false} HistoryOfRun(v: View, ops: seq<Scroll>, hlimit: nat, sx: nat)
    requires forall k :: 0 <= k < |ops| ==> InScreen(ops[k], |v.rows|)
    ensures var w := ScrolledAll(v, ops, hlimit, sx);
      && IsSuffix(w.history, v.history + Off(v, ops, hlimit, sx))
      && (hlimit > 0 ==> |w.history| <= |v.history| || |w.history| <= hlimit)
      && (v.hscrolled <= |v.history| ==> w.hscrolled <= |w.history|)
      && (hlimit > 0 && WithinLimit(v, hlimit) ==> WithinLimit(w, hlimit))
      && |w.history| - |v.history| == (w.added - v.added) - (w.collected - v.collected)
      && w.added == v.added + |ops| && |Off(v, ops, hlimit, sx)| == |ops|
    decreases |ops|
  {
    if ops == [] {
      assert v.history + [] == v.history;
    } else {
      var init := ops[..|ops| - 1];
      HistoryOfRun(v, init, hlimit, sx);
      var w, s := ScrolledAll(v, init, hlimit, sx), ops[|ops| - 1];
      SuffixStep(w.history, v.history + Off(v, init, hlimit, sx), CollectCount(|w.history|, hlimit, false), w.rows[s.upper]);
      assert v.history + Off(v, ops, hlimit, sx) == v.history + Off(v, init, hlimit, sx) + [w.rows[s.upper]];
    }
  }

  // How many lines fewer a history over its limit has after each scroll: none if the limit is under twenty.
  function Shrink(hlimit: nat): nat {
    if hlimit < 20 then 0 else hlimit / 10 - 1
  }

  // A history over its limit loses as many lines at each scroll as Shrink says until it is back within it:
  // after a number of scrolls it is still over exactly if that has not come to enough.
  lemma {:induction false} OverLimit(v: View, ops: seq<Scroll>, hlimit: nat, sx: nat)
    requires forall k :: 0 <= k < |ops| ==> InScreen(ops[k], |v.rows|)
    requires hlimit > 0 && |v.history| > hlimit
    ensures var w, left := ScrolledAll(v, ops, hlimit, sx), |v.history| - |ops| * Shrink(hlimit);
      && (|w.history| > hlimit <==> left > hlimit)
      && (left > hlimit ==> |w.history| == left)
    decreases |ops|
  {
    hide Scrolled, Shrink;
    if ops != [] {
      var init, c := ops[..|ops| - 1], Shrink(hlimit);
      OverLimit(v, init, hlimit, sx);
      ScrolledLength(ScrolledAll(v, init, hlimit, sx), ops[|ops| - 1], hlimit, sx);
      assert |ops| * c == (|init| + 1) * c == |init| * c + c;
    }
  }

  lemma ScrolledLength(v: View, s: Scroll, hlimit: nat, sx: nat)
    requires InScreen(s, |v.rows|) && hlimit > 0
    ensures var n := |Scrolled(v, s, hlimit, sx).history|;
      if |v.history| > hlimit then n == |v.history| - Shrink(hlimit) else n <= hlimit
  {
    hide RowsUp;
  }

  // With a limit under twenty it never is; otherwise it is after as many scrolls as it has lines too many.
  lemma BackWithinLimit(v: View, ops: seq<Scroll>, hlimit: nat, sx: nat)
    requires forall k :: 0 <= k < |ops| ==> InScreen(ops[k], |v.rows|)
    requires hlimit > 0 && |v.history| > hlimit
    ensures hlimit < 20 ==> |ScrolledAll(v, ops, hlimit, sx).history| == |v.history|
    ensures hlimit >= 20 && |ops| >= |v.history| - hlimit ==> |ScrolledAll(v, ops, hlimit, sx).history| <= hlimit
  {
    hide ScrolledAll;
    OverLimit(v, ops, hlimit, sx);
    if hlimit >= 20 {
      Times(|ops|, Shrink(hlimit));
    }
  }

  lemma Times(m: nat, n: nat)
    requires n >= 1
    ensures m * n >= m
  {
  }

  lemma SuffixStep(a: seq<Line>, b: seq<Line>, n: nat, l: Line)
    requires IsSuffix(a, b) && n <= |a|
    ensures IsSuffix(a[n..] + [l], b + [l])
  {
  }

  // Rows outside every region scrolled are exactly as they were.
  lemma {:induction false} RowsOutsideRun(v: View, ops: seq<Scroll>, hlimit: nat, sx: nat, row: nat)
    requires forall k :: 0 <= k < |ops| ==> InScreen(ops[k], |v.rows|)
    requires row < |v.rows| && forall k :: 0 <= k < |ops| ==> !(ops[k].upper <= row <= ops[k].lower)
    ensures ScrolledAll(v, ops, hlimit, sx).rows[row] == v.rows[row]
    decreases |ops|
  {
    if ops != [] {
      RowsOutsideRun(v, ops[..|ops| - 1], hlimit, sx, row);
    }
  }

  // ----- grid.c -----

  method CollectSize(hsize: nat, hlimit: nat, all: bool) returns (ny: nat)
    requires 0 < hsize && hlimit <= hsize
    ensures ny == CollectCount(hsize, hlimit, all) && 0 < ny <= hsize
    ensures hsize - ny == if all && hsize > hlimit then hlimit else if all || hlimit < 20 then hsize - 1 else hsize - hlimit / 10
  {
    if all {
      ny := hsize - hlimit;
    } else {
      ny := hlimit / 10;
    }
    if ny < 1 {
      ny := 1;
    }
    assert ny <= hsize;  // so the source's clamp to hsize never applies
  }

  lemma CollectNone(v: View, hlimit: nat, all: bool)
    requires |v.history| == 0 || |v.history| < hlimit
    ensures Collected(v, hlimit, all) == v
  {
  }

  // grid_trim_history and grid_collect_history
  method CollectHistory(gd: Grid, all: bool)
    requires gd.Valid()
    modifies gd
    ensures gd.Valid() && gd.sx == old(gd.sx) && gd.sy == old(gd.sy) && gd.hlimit == old(gd.hlimit)
    ensures gd.keepsHistory == old(gd.keepsHistory)
    ensures ViewOf(gd) == Collected(old(ViewOf(gd)), gd.hlimit, all)
    ensures gd.hsize ==
      if old(gd.hsize) == 0 || old(gd.hsize) < gd.hlimit then old(gd.hsize)
      else if all && old(gd.hsize) > gd.hlimit then gd.hlimit
      else if all || gd.hlimit < 20 then old(gd.hsize) - 1
      else old(gd.hsize) - gd.hlimit / 10
  {
    hide Collected;
    ghost var v := ViewOf(gd);
    if gd.hsize == 0 || gd.hsize < gd.hlimit {
      CollectNone(v, gd.hlimit, all);
      return;
    }
    var ny := CollectSize(gd.hsize, gd.hlimit, all);
    TrimSplits(gd.linedata, gd.hsize, ny);
    gd.linedata := gd.linedata[ny..];
    gd.hsize := gd.hsize - ny;
    gd.scrollCollected := gd.scrollCollected + ny;
    if gd.hscrolled > gd.hsize {
      gd.hscrolled := gd.hsize;
    }
    CollectedIs(v, ViewOf(gd), gd.hlimit, all, ny);
  }

  lemma TrimSplits(lines: seq<Line>, h: nat, ny: nat)
    requires ny <= h <= |lines|
    ensures lines[ny..][..h - ny] == lines[..h][ny..] && lines[ny..][h - ny..] == lines[h..]
  {
  }

  lemma CollectedIs(v: View, w: View, hlimit: nat, all: bool, ny: nat)
    requires 0 < ny == CollectCount(|v.history|, hlimit, all)
    requires w == View(v.history[ny..], v.rows, if v.hscrolled > |v.history| - ny then |v.history| - ny else v.hscrolled,
                       v.added, v.collected + ny)
    ensures w == Collected(v, hlimit, all)
  {
  }

  // grid_scroll_history
  method ScrollHistory(gd: Grid, bg: Colour)
    requires gd.Valid() && gd.sy > 0
    modifies gd
    ensures gd.Valid() && gd.sx == old(gd.sx) && gd.sy == old(gd.sy) && gd.hlimit == old(gd.hlimit)
    ensures gd.keepsHistory == old(gd.keepsHistory)
    ensures var v := old(ViewOf(gd));
      ViewOf(gd) == View(v.history + [v.rows[0]], v.rows[1..] + [BlankLine(gd.sx, bg)],
                         v.hscrolled + 1, v.added + 1, v.collected)
  {
    ghost var v := ViewOf(gd);
    gd.linedata := gd.linedata + [BlankLine(gd.sx, bg)];
    gd.hscrolled := gd.hscrolled + 1;
    gd.hsize := gd.hsize + 1;
    gd.scrollAdded := gd.scrollAdded + 1;
    assert gd.linedata[..gd.hsize] == v.history + [v.rows[0]];
    assert gd.linedata[gd.hsize..] == v.rows[1..] + [BlankLine(gd.sx, bg)];
  }

  // grid_scroll_history_region: the screen moves down over a new line, the top line of the region is
  // copied into the space and the region moves up.
  method ScrollHistoryRegion(gd: Grid, upper0: nat, lower0: nat, bg: Colour)
    requires gd.Valid() && gd.hsize <= upper0 <= lower0 < |gd.linedata|
    modifies gd
    ensures gd.Valid() && gd.sx == old(gd.sx) && gd.sy == old(gd.sy) && gd.hlimit == old(gd.hlimit)
    ensures gd.keepsHistory == old(gd.keepsHistory)
    ensures var v, s := old(ViewOf(gd)), Scroll(upper0 - old(gd.hsize), lower0 - old(gd.hsize), bg);
      ViewOf(gd) == View(v.history + [v.rows[s.upper]], RowsUp(v.rows, s, gd.sx),
                         v.hscrolled + 1, v.added + 1, v.collected)
  {
    hide BlankLine, RowsUp;
    ghost var lines, h := gd.linedata, gd.hsize;
    var upper, lower := upper0 + 1, lower0 + 1;
    gd.linedata := MoveRegion(gd.linedata, gd.hsize, upper, lower, gd.sx, bg);
    gd.hscrolled := gd.hscrolled + 1;
    gd.hsize := gd.hsize + 1;
    gd.scrollAdded := gd.scrollAdded + 1;
    RegionShifted(lines, gd.linedata, h, upper0, lower0, gd.sx, bg);
  }

  // The moves of grid_scroll_history_region: a line is made at hsize, the line at upper goes there, and
  // the region up to lower closes up.
  method MoveRegion(lines: seq<Line>, hsize: nat, upper: nat, lower: nat, sx: nat, bg: Colour) returns (t: seq<Line>)
    requires hsize < upper <= lower <= |lines|
    ensures |t| == |lines| + 1
    ensures forall i :: 0 <= i < |t| ==> t[i] == Shifted(lines, hsize, upper - 1, lower - 1, sx, bg, i)
  {
    hide BlankLine;
    t := lines[..hsize] + [lines[hsize]] + lines[hsize..];
    ghost var t0 := t;
    assert forall i :: 0 <= i < |t0| ==> t0[i] == if i <= hsize then lines[i] else lines[i - 1];
    t := t[hsize := t[upper]];
    ghost var t1 := t;
    t := CloseUp(t, upper, lower);
    ghost var t2 := t;
    t := t[lower := BlankLine(sx, bg)];
    forall i | 0 <= i < |t|
      ensures t[i] == Shifted(lines, hsize, upper - 1, lower - 1, sx, bg, i)
    {
      if i == lower {
      } else if upper <= i < lower {
        assert t[i] == t2[i] == t1[i + 1] == t0[i + 1] == lines[i];
      } else {
        assert t[i] == t2[i] == (if i < upper then t2[..upper][i] else t2[lower..][i - lower]) == t1[i];
        assert t1[i] == if i == hsize then t0[upper] else t0[i];
      }
    }
  }

  // The lines after upper, up to lower, moved up one.
  method CloseUp(lines: seq<Line>, upper: nat, lower: nat) returns (t: seq<Line>)
    requires upper <= lower < |lines|
    ensures |t| == |lines| && t[..upper] == lines[..upper] && t[lower..] == lines[lower..]
    ensures forall i :: upper <= i < lower ==> t[i] == lines[i + 1]
  {
    t := lines[..upper] + lines[upper + 1..lower + 1] + lines[lower..];
  }

  lemma RowsUpAt(rows: seq<Line>, s: Scroll, sx: nat, i: nat)
    requires InScreen(s, |rows|) && i < |rows|
    ensures RowsUp(rows, s, sx)[i] ==
      if s.upper <= i < s.lower then rows[i + 1] else if i == s.lower then BlankLine(sx, s.bg) else rows[i]
  {
  }

  lemma RegionShifted(lines: seq<Line>, t: seq<Line>, h: nat, upper: nat, lower: nat, sx: nat, bg: Colour)
    requires h <= upper <= lower < |lines| && |t| == |lines| + 1
    requires forall i :: 0 <= i < |t| ==> t[i] == Shifted(lines, h, upper, lower, sx, bg, i)
    ensures t[..h + 1] == lines[..h] + [lines[upper]]
    ensures t[h + 1..] == RowsUp(lines[h..], Scroll(upper - h, lower - h, bg), sx)
  {
    hide BlankLine, RowsUp;
    var s := Scroll(upper - h, lower - h, bg);
    forall i | 0 <= i < |lines| - h
      ensures t[h + 1..][i] == RowsUp(lines[h..], s, sx)[i]
    {
      RowsUpAt(lines[h..], s, sx, i);
      assert t[h + 1..][i] == t[h + 1 + i];
    }
  }

  // What grid_scroll_history_region leaves at line i.
  function Shifted(lines: seq<Line>, h: nat, upper: nat, lower: nat, sx: nat, bg: Colour, i: nat): Line
    requires h <= upper <= lower < |lines| && i <= |lines|
  {
    if i < h then lines[i]
    else if i == h then lines[upper]
    else if upper < i <= lower then lines[i]
    else if i == lower + 1 then BlankLine(sx, bg)
    else lines[i - 1]
  }

  // ----- grid-view.c -----

  lemma RowsUpFull(rows: seq<Line>, sx: nat, bg: Colour)
    requires rows != []
    ensures RowsUp(rows, Scroll(0, |rows| - 1, bg), sx) == rows[1..] + [BlankLine(sx, bg)]
  {
  }

  // grid_view_scroll_region_up, keeping history: one step of the specification.
  method ScrollRegionUp(gd: Grid, rupper: nat, rlower: nat, bg: Colour)
    requires gd.Valid() && rupper <= rlower < gd.sy && gd.keepsHistory
    modifies gd
    ensures gd.Valid() && gd.sx == old(gd.sx) && gd.sy == old(gd.sy) && gd.hlimit == old(gd.hlimit)
    ensures gd.keepsHistory
    ensures ViewOf(gd) == Scrolled(old(ViewOf(gd)), Scroll(rupper, rlower, bg), gd.hlimit, gd.sx)
  {
    hide RowsUp, BlankLine, Collected, Scrolled;
    ghost var v := ViewOf(gd);
    CollectHistory(gd, false);
    ghost var c := ViewOf(gd);
    if rupper == 0 && rlower == gd.sy - 1 {
      ScrollHistory(gd, bg);
      RowsUpFull(c.rows, gd.sx, bg);
    } else {
      ScrollHistoryRegion(gd, gd.hsize + rupper, gd.hsize + rlower, bg);
    }
    ScrolledIs(v, c, ViewOf(gd), Scroll(rupper, rlower, bg), gd.hlimit, gd.sx);
  }

  lemma ScrolledIs(v: View, c: View, w: View, s: Scroll, hlimit: nat, sx: nat)
    requires InScreen(s, |v.rows|) && c == Collected(v, hlimit, false) && |c.rows| == |v.rows|
    requires w == View(c.history + [c.rows[s.upper]], RowsUp(c.rows, s, sx), c.hscrolled + 1, c.added + 1, c.collected)
    ensures w == Scrolled(v, s, hlimit, sx)
  {
    hide RowsUp;
  }

  // The same without history: the top line of the region is lost. A region of one line is left alone.
  method ScrollRegionUpPlain(gd: Grid, rupper: nat, rlower: nat, bg: Colour)
    requires Small(gd) && rupper <= rlower < gd.sy && !gd.keepsHistory
    modifies gd`linedata
    ensures Small(gd)
    ensures Contents(gd.linedata) ==
      if rupper == rlower then Contents(old(gd.linedata))
      else Deleted(Contents(old(gd.linedata)), gd.hsize + rlower, gd.hsize + rupper, 1, gd.sx, bg)
    ensures SameOutside(gd.linedata, old(gd.linedata), gd.hsize + rupper - 1, gd.hsize + rlower)
  {
    hide Contents, Deleted, MovedLines, BlankLine;
    var upper, lower := gd.hsize + rupper, gd.hsize + rlower;
    ghost var lines := gd.linedata;
    MoveLines(gd, upper, upper + 1, rlower - rupper, bg);
    if rupper < rlower {
      MovedUp(lines, gd.linedata, lower, upper, gd.sx, bg);
    }
  }

  lemma MovedUp(lines: seq<Line>, after: seq<Line>, lower: nat, upper: nat, sx: nat, bg: Colour)
    requires upper < lower < |lines| && after == MovedLines(lines, upper, upper + 1, lower - upper, sx, bg)
    ensures Contents(after) == Deleted(Contents(lines), lower, upper, 1, sx, bg)
    ensures SameOutside(after, lines, upper - 1, lower)
  {
    hide BlankLine, Deleted;
    BlankUnwrapped(sx, bg);
    forall i | 0 <= i < |lines|
      ensures Unwrapped(after[i]) == Deleted(Contents(lines), lower, upper, 1, sx, bg)[i]
    {
      DeletedAt(Contents(lines), lower, upper, 1, sx, bg, i);
    }
  }

  // Any run of steps is the run of the specification.
  method RunScrolls(gd: Grid, ops: seq<Scroll>)
    requires gd.Valid() && gd.keepsHistory && forall k :: 0 <= k < |ops| ==> InScreen(ops[k], gd.sy)
    modifies gd
    ensures gd.Valid() && gd.sx == old(gd.sx) && gd.sy == old(gd.sy) && gd.hlimit == old(gd.hlimit)
    ensures ViewOf(gd) == ScrolledAll(old(ViewOf(gd)), ops, gd.hlimit, gd.sx)
  {
    ghost var v := ViewOf(gd);
    for k := 0 to |ops|
      invariant gd.Valid() && gd.keepsHistory
      invariant gd.sx == old(gd.sx) && gd.sy == old(gd.sy) && gd.hlimit == old(gd.hlimit)
      invariant ViewOf(gd) == ScrolledAll(v, ops[..k], gd.hlimit, gd.sx)
    {
      assert ops[..k + 1][..k] == ops[..k];
      ScrollRegionUp(gd, ops[k].upper, ops[k].lower, ops[k].bg);
    }
    assert ops[..|ops|] == ops;
  }

  // ----- Clearing the screen into the history -----

  // Scrolling the whole screen n times.
  function Whole(n: nat, sy: nat, bg: Colour): seq<Scroll>
    requires sy > 0
  {
    seq(n, _ => Scroll(0, sy - 1, bg))
  }

  lemma {:induction false} WholeRun(v: View, n: nat, hlimit: nat, sx: nat, bg: Colour)
    requires 0 < |v.rows| && n <= |v.rows|
    ensures var ops := Whole(n, |v.rows|, bg);
      && ScrolledAll(v, ops, hlimit, sx).rows == v.rows[n..] + Blanks(n, sx, bg)
      && Off(v, ops, hlimit, sx) == v.rows[..n]
    decreases n
  {
    hide BlankLine, RowsUp, Collected;
    var ops := Whole(n, |v.rows|, bg);
    if n > 0 {
      assert ops[..n - 1] == Whole(n - 1, |v.rows|, bg);
      WholeRun(v, n - 1, hlimit, sx, bg);
      RowsUpFull(v.rows[n - 1..] + Blanks(n - 1, sx, bg), sx, bg);
    }
  }

  // The number of rows down to the last one in use.
  function LastUsed(rows: seq<Line>, n: nat): (last: nat)
    requires n <= |rows|
    ensures last <= n && (last > 0 ==> rows[last - 1].cells != [])
    ensures forall i :: last <= i < n ==> rows[i].cells == []
  {
    if n == 0 then 0 else if rows[n - 1].cells != [] then n else LastUsed(rows, n - 1)
  }

  method ScrollOff(gd: Grid, bg: Colour)
    requires gd.Valid() && gd.sy > 0
    modifies gd
    ensures gd.Valid() && gd.sx == old(gd.sx) && gd.sy == old(gd.sy) && gd.hlimit == old(gd.hlimit)
    ensures |gd.linedata| <= |old(gd.linedata)| + 1
    ensures ViewOf(gd) == Scrolled(old(ViewOf(gd)), Scroll(0, gd.sy - 1, bg), gd.hlimit, gd.sx)
  {
    hide BlankLine, RowsUp, CollectCount;
    ghost var rows, h := ViewOf(gd).rows, |ViewOf(gd).history|;
    CollectHistory(gd, false);
    assert |ViewOf(gd).history| == gd.hsize <= h;
    ScrollHistory(gd, bg);
    assert |ViewOf(gd).history| == gd.hsize <= h + 1;
    RowsUpFull(rows, gd.sx, bg);
  }

  // The loop of grid_view_clear_history
  method ScrollAway(gd: Grid, last: nat, bg: Colour)
    requires gd.Valid() && 0 < last <= gd.sy
    modifies gd
    ensures gd.Valid() && gd.sx == old(gd.sx) && gd.sy == old(gd.sy) && gd.hlimit == old(gd.hlimit)
    ensures |gd.linedata| <= |old(gd.linedata)| + last
    ensures ViewOf(gd) == ScrolledAll(old(ViewOf(gd)), Whole(last, gd.sy, bg), gd.hlimit, gd.sx)
  {
    hide Scrolled;
    ghost var v, sy := ViewOf(gd), gd.sy;
    for yy := 0 to last
      invariant gd.Valid() && gd.sx == old(gd.sx) && gd.sy == sy && gd.hlimit == old(gd.hlimit)
      invariant |gd.linedata| <= |old(gd.linedata)| + yy
      invariant ViewOf(gd) == ScrolledAll(v, Whole(yy, sy, bg), gd.hlimit, gd.sx)
    {
      assert Whole(yy + 1, sy, bg)[..yy] == Whole(yy, sy, bg);
      ScrollOff(gd, bg);
    }
  }

  method FindLast(gd: Grid) returns (last: nat)
    requires gd.Valid()
    ensures last == LastUsed(gd.linedata[gd.hsize..], gd.sy)
  {
    last := 0;
    for yy := 0 to gd.sy
      invariant last == LastUsed(gd.linedata[gd.hsize..], yy)
    {
      if gd.linedata[gd.hsize + yy].cells != [] {
        last := yy + 1;
      }
    }
  }

  // grid_view_clear_history: every row in use goes to the history, in order, and the screen is blank.
  method ClearHistory(gd: Grid, bg: Colour)
    requires Small(gd) && gd.sy > 0 && |gd.linedata| + gd.sy < U32
    modifies gd
    ensures Small(gd) && gd.sy == old(gd.sy) && (old(gd.hscrolled <= gd.hsize) ==> gd.hscrolled <= gd.hsize)
    ensures gd.hlimit > 0 ==> gd.hsize <= old(gd.hsize) || gd.hsize <= gd.hlimit
    ensures gd.hlimit > 0 && old(WithinLimit(ViewOf(gd), gd.hlimit)) ==> WithinLimit(ViewOf(gd), gd.hlimit)
    ensures forall i :: gd.hsize <= i < |gd.linedata| ==> gd.linedata[i] == BlankLine(gd.sx, bg)
    ensures var v := old(ViewOf(gd));
      IsSuffix(Contents(ViewOf(gd).history), Contents(v.history + v.rows[..LastUsed(v.rows, |v.rows|)]))
    ensures var v, last := old(ViewOf(gd)), LastUsed(old(ViewOf(gd)).rows, old(gd.sy));
      && (last == 0 || |v.history| + last <= gd.hlimit ==> gd.hsize == |v.history| + last)
      && gd.hscrolled == if last == 0 then v.hscrolled else 0
  {
    hide BlankLine, RowsUp, CollectCount, ScrolledAll, Off, Contents, Unwrapped, LastUsed;
    ghost var v := ViewOf(gd);
    var last := FindLast(gd);
    if last == 0 {
      ClearTop(gd, gd.sy, bg);
      assert v.history + v.rows[..0] == v.history;
      return;
    }
    ScrollAway(gd, last, bg);
    ghost var w := ViewOf(gd);
    ScrolledAway(v, w, last, gd.hlimit, gd.sx, bg);
    ClearTop(gd, gd.sy - last, bg);
    gd.hscrolled := 0;
    SuffixContents(w.history, v.history + v.rows[..last]);
  }

  lemma ScrolledAway(v: View, w: View, last: nat, hlimit: nat, sx: nat, bg: Colour)
    requires 0 < |v.rows| && last <= |v.rows| && w == ScrolledAll(v, Whole(last, |v.rows|, bg), hlimit, sx)
    ensures IsSuffix(w.history, v.history + v.rows[..last])
    ensures hlimit > 0 ==> |w.history| <= |v.history| || |w.history| <= hlimit
    ensures |v.history| + last <= hlimit ==> |w.history| == |v.history| + last
    ensures forall i :: |v.rows| - last <= i < |v.rows| ==> w.rows[i] == BlankLine(sx, bg)
  {
    hide BlankLine, RowsUp, ScrolledAll, Off;
    HistoryOfRun(v, Whole(last, |v.rows|, bg), hlimit, sx);
    WholeRun(v, last, hlimit, sx, bg);
    if |v.history| + last <= hlimit {
      BelowLimit(v, Whole(last, |v.rows|, bg), hlimit, sx);
    }
  }

  // The clear that finishes grid_view_clear_history: the first n rows, the rest being blank already.
  method ClearTop(gd: Grid, n: nat, bg: Colour)
    requires Small(gd) && n <= gd.sy
    requires forall i :: n <= i < gd.sy ==> gd.linedata[gd.hsize..][i] == BlankLine(gd.sx, bg)
    modifies gd`linedata
    ensures Small(gd)
    ensures forall i :: gd.hsize <= i < |gd.linedata| ==> gd.linedata[i] == BlankLine(gd.sx, bg)
    ensures Contents(gd.linedata[..gd.hsize]) == Contents(old(gd.linedata)[..gd.hsize])
  {
    hide BlankLine;
    ghost var lines := gd.linedata;
    if n > 0 {
      ClearLines(gd, gd.hsize, n, bg);
    }
    assert forall i :: gd.hsize + n <= i < |lines| ==> lines[i] == lines[gd.hsize..][i - gd.hsize];
    assert forall i :: 0 <= i < gd.hsize ==> Unwrapped(gd.linedata[i]) == Unwrapped(lines[i]);
  }

  lemma SuffixContents(a: seq<Line>, b: seq<Line>)
    requires IsSuffix(a, b)
    ensures IsSuffix(Contents(a), Contents(b))
  {
  }
}

// Laying out a format in a line, and matching it.

module Layout {
  // Copy width columns from start of a source screen to offset on the line.
  datatype Part = Part(offset: nat, start: nat, width: nat)

  datatype Align = Left | Centre | Right | AbsoluteCentre

  datatype Widths = Widths(left: nat, centre: nat, right: nat, absCentre: nat)

  function Of(w: Widths, a: Align): nat {
    match a
    case Left => w.left
    case Centre => w.centre
    case Right => w.right
    case AbsoluteCentre => w.absCentre
  }

  function Min(a: nat, b: nat): nat {
    if a < b then a else b
  }

  // ----- Trimming -----

  // The left gives way last and the centre first.
  function KeptLeft(w: Widths, available: nat): nat {
    Min(w.left, available)
  }

  function KeptRight(w: Widths, available: nat): nat {
    Min(w.right, available - KeptLeft(w, available))
  }

  function KeptCentre(w: Widths, available: nat): nat {
    Min(w.centre, available - KeptLeft(w, available) - KeptRight(w, available))
  }

  // The loop of format_draw_none, and of fuzzy_match.
  method Trim(w: Widths, available: nat) returns (left: nat, centre: nat, right: nat)
    ensures left == KeptLeft(w, available) && right == KeptRight(w, available) && centre == KeptCentre(w, available)
  {
    left, centre, right := w.left, w.centre, w.right;
    while left + centre + right > available
      invariant left <= w.left && centre <= w.centre && right <= w.right
      invariant centre > 0 ==> right == w.right && left == w.left
      invariant right > 0 ==> left == w.left
      invariant left + centre + right >= Min(w.left + w.centre + w.right, available)
      decreases left + centre + right
    {
      if centre > 0 {
        centre := centre - 1;
      } else if right > 0 {
        right := right - 1;
      } else {
        left := left - 1;
      }
    }
  }

  // ----- format_draw_none -----

  datatype Parts = Parts(left: Part, centre: Part, right: Part, absCentre: Part)

  function PartOf(p: Parts, a: Align): Part {
    match a
    case Left => p.left
    case Centre => p.centre
    case Right => p.right
    case AbsoluteCentre => p.absCentre
  }

  // Left at the left, right at the right, the middle of the centre in the middle of what is between
  // them, and the absolute centre in the middle of the line.
  function NoList(w: Widths, available: nat): Parts {
    var left, right, centre := KeptLeft(w, available), KeptRight(w, available), KeptCentre(w, available);
    var absCentre := Min(w.absCentre, available);
    Parts(
      Part(0, 0, left),
      Part(left + (available - right - left) / 2 - centre / 2, w.centre / 2 - centre / 2, centre),
      Part(available - right, w.right - right, right),
      Part((available - absCentre) / 2, 0, absCentre))
  }

  method DrawNone(w: Widths, available: nat) returns (p: Parts)
    ensures p == NoList(w, available)
  {
    var left, centre, right := Trim(w, available);
    var p1 := Part(0, 0, left);
    var p2 := Part(available - right, w.right - right, right);
    var p3 := Part(left + (available - right - left) / 2 - centre / 2, w.centre / 2 - centre / 2, centre);
    var absCentre := w.absCentre;
    if absCentre > available {
      absCentre := available;
    }
    p := Parts(p1, p3, p2, Part((available - absCentre) / 2, 0, absCentre));
  }

  ghost predicate Inside(p: Part, source: nat, low: nat, high: nat) {
    low <= p.offset && p.offset + p.width <= high && p.start + p.width <= source
  }

  // The parts stay on the line and on their sources, the left, centre and right apart and in order.
  lemma NoListApart(w: Widths, available: nat)
    ensures var p := NoList(w, available);
      && Inside(p.left, w.left, 0, p.centre.offset) && p.left.offset + p.left.width <= p.centre.offset
      && Inside(p.centre, w.centre, p.left.width, p.right.offset)
      && Inside(p.right, w.right, p.centre.offset + p.centre.width, available)
      && Inside(p.absCentre, w.absCentre, 0, available)
  {
    var left, right, centre := KeptLeft(w, available), KeptRight(w, available), KeptCentre(w, available);
    Halves(available - right - left, centre);
    Halves(w.centre, centre);
  }

  // left columns, width and then right columns with as near as may be as many on each side: if there cannot be
  // as many the odd column is on the left of an odd width and on the right of an even one.
  ghost predicate Middle(left: int, width: int, right: int) {
    && left >= 0 && right >= 0 && -1 <= left - right <= 1
    && (left > right ==> width % 2 == 1) && (left < right ==> width % 2 == 0)
  }

  lemma InTheMiddle(a: nat, b: nat)
    requires b <= a
    ensures Middle(a / 2 - b / 2, b, a - b - (a / 2 - b / 2))
  {
  }

  // The left starts the line and the right ends it, each showing that end of its source. The middle of the
  // centre is in the middle of what is between them, and the absolute centre shows the start of its source in
  // the middle of the line. Nothing of the centre is kept unless all of the left and right are, nor of the
  // right unless all of the left is.
  lemma NoListPlaces(w: Widths, available: nat)
    ensures var p := NoList(w, available);
      && p.left.offset == 0 && p.left.start == 0
      && p.right.offset + p.right.width == available && p.right.start + p.right.width == w.right
      && Middle(p.centre.offset - p.left.width, p.centre.width, p.right.offset - (p.centre.offset + p.centre.width))
      && Middle(p.centre.start, p.centre.width, w.centre - (p.centre.start + p.centre.width))
      && 0 <= available - (p.absCentre.offset + p.absCentre.width) - p.absCentre.offset <= 1
      && p.absCentre.start == 0 && p.absCentre.width == (if w.absCentre > available then available else w.absCentre)
      && (p.centre.width > 0 ==> p.right.width == w.right && p.left.width == w.left)
      && (p.right.width > 0 ==> p.left.width == w.left)
      && p.left.width + p.centre.width + p.right.width == Min(w.left + w.centre + w.right, available)
  {
    var left, right, centre := KeptLeft(w, available), KeptRight(w, available), KeptCentre(w, available);
    hide Middle;
    InTheMiddle(available - right - left, centre);
    InTheMiddle(w.centre, centre);
  }

  // An interval of b centred in one of a stays in it.
  lemma Halves(a: nat, b: nat)
    requires b <= a
    ensures 0 <= a / 2 - b / 2 && a / 2 - b / 2 + b <= a
  {
  }

  // Nothing is trimmed while there is room, and the line is full when something is.
  lemma NoListFills(w: Widths, available: nat)
    ensures var left, right, centre := KeptLeft(w, available), KeptRight(w, available), KeptCentre(w, available);
      && left + right + centre == Min(w.left + w.right + w.centre, available)
      && (centre < w.centre || right < w.right || left < w.left ==> left + right + centre == available)
  {
  }

  // ----- The fuzzy matcher's columns -----

  // The arrays fuzzy_match fills in: where each alignment starts on the line, where in its source, and
  // how much of it can be seen.
  method FuzzyLayout(w: Widths, available: nat) returns (start: map<Align, nat>, src: map<Align, nat>, vis: map<Align, nat>)
    ensures forall a: Align ::
      a in start && a in src && a in vis && Part(start[a], src[a], vis[a]) == PartOf(NoList(w, available), a)
  {
    var left, centre, right := Trim(w, available);
    var absCentre := w.absCentre;
    if absCentre > available {
      absCentre := available;
    }
    start := map[Left := 0, Right := available - right, Centre := left + ((available - right) - left) / 2 - centre / 2,
                 AbsoluteCentre := (available - absCentre) / 2];
    src := map[Left := 0, Right := w.right - right, Centre := w.centre / 2 - centre / 2, AbsoluteCentre := 0];
    vis := map[Left := left, Right := right, Centre := centre, AbsoluteCentre := absCentre];
    forall a: Align
      ensures a in start && a in src && a in vis && Part(start[a], src[a], vis[a]) == PartOf(NoList(w, available), a)
    {
      match a
      case Left =>
      case Centre =>
      case Right =>
      case AbsoluteCentre =>
    }
  }

  datatype Option = None | Some(column: nat)

  // fuzzy_column
  function FuzzyColumn(start: nat, src: nat, vis: nat, offset: nat): Option {
    if offset < src || offset >= src + vis then None else Some(start + (offset - src))
  }

  // Where a column of the source is drawn.
  function DrawnAt(p: Part, column: nat): Option {
    if p.start <= column < p.start + p.width then Some(p.offset + column - p.start) else None
  }

  // The matcher puts a character where the layout draws it, whatever its alignment, and the same column
  // never shows two of them from the left, centre and right.
  lemma ColumnsAgree(w: Widths, available: nat, a: Align, offset: nat)
    ensures var p := PartOf(NoList(w, available), a);
      && FuzzyColumn(p.offset, p.start, p.width, offset) == DrawnAt(p, offset)
      && (DrawnAt(p, offset).Some? ==> DrawnAt(p, offset).column < available && offset < Of(w, a))
  {
    NoListApart(w, available);
  }

  lemma ColumnsDistinct(w: Widths, available: nat, a: Align, x: nat, b: Align, y: nat)
    requires a != AbsoluteCentre && b != AbsoluteCentre
    requires DrawnAt(PartOf(NoList(w, available), a), x).Some?
    requires DrawnAt(PartOf(NoList(w, available), a), x) == DrawnAt(PartOf(NoList(w, available), b), y)
    ensures a == b && x == y
  {
    NoListApart(w, available);
  }

  // The columns of the line that show some of a character, and those the matcher marks for it.
  ghost predicate Shown(p: Part, offset: nat, width: nat, column: nat) {
    exists x: nat :: offset <= x < offset + width && DrawnAt(p, x) == Some(column)
  }

  ghost predicate Marked(p: Part, available: nat, offset: nat, width: nat, column: nat) {
    && FuzzyColumn(p.offset, p.start, p.width, offset).Some?
    && var first := FuzzyColumn(p.offset, p.start, p.width, offset).column;
       first <= column < first + width && column < available
  }

  // Is the character cut at an edge of its part that is not the end of the line?
  predicate Cut(p: Part, available: nat, offset: nat, width: nat) {
    && p.width > 0
    && (|| (offset < p.start < offset + width)
        || (p.start <= offset < p.start + p.width < offset + width && p.offset + p.width < available))
  }

  lemma ShownColumn(p: Part, offset: nat, width: nat, column: nat)
    ensures Shown(p, offset, width, column) <==>
      p.offset <= column < p.offset + p.width && offset <= column - p.offset + p.start < offset + width
  {
    if p.offset <= column < p.offset + p.width && offset <= column - p.offset + p.start < offset + width {
      assert DrawnAt(p, column - p.offset + p.start) == Some(column);
    }
  }

  // What is marked for a matched character is exactly what shows of it, unless a wide character is cut.
  lemma MarkedIsShown(p: Part, available: nat, offset: nat, width: nat)
    requires p.offset + p.width <= available
    ensures (forall column :: Shown(p, offset, width, column) <==> Marked(p, available, offset, width, column))
      <==> !Cut(p, available, offset, width)
  {
    forall column: nat
      ensures Shown(p, offset, width, column) <==>
        p.offset <= column < p.offset + p.width && offset <= column - p.offset + p.start < offset + width
    {
      ShownColumn(p, offset, width, column);
    }
    if Cut(p, available, offset, width) {
      if offset < p.start {
        assert Shown(p, offset, width, p.offset) && !Marked(p, available, offset, width, p.offset);
      } else {
        var end := p.offset + p.width;
        assert Marked(p, available, offset, width, end) && !Shown(p, offset, width, end);
      }
    }
  }

  // Wide characters cut at either edge: one whose second half shows at the start of a line of two columns
  // and is not marked, and one in the centre for which a column of the right is marked instead.
  lemma CutCharacters()
    ensures var p := NoList(Widths(0, 0, 3, 0), 2).right;
      Cut(p, 2, 0, 2) && Shown(p, 0, 2, 0) && !Marked(p, 2, 0, 2, 0)
    ensures var p := NoList(Widths(0, 4, 1, 0), 3);
      Cut(p.centre, 3, 2, 2) && Marked(p.centre, 3, 2, 2, p.right.offset) && !Shown(p.centre, 2, 2, p.right.offset)
  {
    var p, q := NoList(Widths(0, 0, 3, 0), 2).right, NoList(Widths(0, 4, 1, 0), 3);
    assert p == Part(0, 1, 2) && q.centre == Part(0, 1, 2) && q.right == Part(2, 0, 1);
    ShownColumn(p, 0, 2, 0);
    ShownColumn(q.centre, 2, 2, 2);
  }

  // A visible character of the text: its alignment, where it is within it and how wide it is.
  datatype Char = Char(align: Align, offset: nat, width: nat)

  ghost predicate MarkedBy(w: Widths, available: nat, c: Char, column: nat) {
    Marked(PartOf(NoList(w, available), c.align), available, c.offset, c.width, column)
  }

  // The end of fuzzy_match: a bit for each column of each matched character.
  method Mask(w: Widths, available: nat, cs: seq<Char>, best: seq<bool>) returns (mask: array<bool>)
    requires |best| == |cs|
    ensures fresh(mask) && mask.Length == available
    ensures forall x: nat :: x < available ==>
      (mask[x] <==> exists i :: 0 <= i < |cs| && best[i] && MarkedBy(w, available, cs[i], x))
  {
    var start, src, vis := FuzzyLayout(w, available);
    mask := new bool[available](_ => false);
    var i := 0;
    while i < |cs|
      invariant 0 <= i <= |cs|
      invariant forall x: nat :: x < available ==>
        (mask[x] <==> exists k :: 0 <= k < i && best[k] && MarkedBy(w, available, cs[k], x))
    {
      var c := cs[i];
      var at := FuzzyColumn(start[c.align], src[c.align], vis[c.align], c.offset);
      assert Part(start[c.align], src[c.align], vis[c.align]) == PartOf(NoList(w, available), c.align);
      ghost var was := mask[..];
      if best[i] && at.Some? {
        SetBits(mask, at.column, c.width);
      }
      forall x: nat | x < available
        ensures mask[x] <==> was[x] || (best[i] && MarkedBy(w, available, c, x))
      {
      }
      i := i + 1;
    }
  }

  method SetBits(mask: array<bool>, column: nat, width: nat)
    modifies mask
    ensures forall x: nat :: x < mask.Length ==> mask[x] == (old(mask[x]) || column <= x < column + width)
  {
    var j := 0;
    while j < width && column + j < mask.Length
      invariant 0 <= j <= width
      invariant forall x: nat :: x < mask.Length ==> mask[x] == (old(mask[x]) || column <= x < column + j)
    {
      mask[column + j] := true;
      j := j + 1;
    }
  }

  // ----- With a list -----

  datatype Five = Five(left: nat, centre: nat, right: nat, list: nat, after: nat)

  // What trimming leaves: first the centre goes, then the list, the right, what is after the list, and
  // the left.
  function Kept(w: Five, available: nat): Five {
    var left := Min(w.left, available);
    var after := Min(w.after, available - left);
    var right := Min(w.right, available - left - after);
    var list := Min(w.list, available - left - after - right);
    var centre := Min(w.centre, available - left - after - right - list);
    Five(left, centre, right, list, after)
  }

  function Total(w: Five): nat {
    w.left + w.centre + w.right + w.list + w.after
  }

  // The loop of format_draw_left and format_draw_right.
  method TrimList(w: Five, available: nat) returns (r: Five)
    ensures r == Kept(w, available)
  {
    r := w;
    while r.left + r.centre + r.right + r.list + r.after > available
      invariant r.left <= w.left && r.centre <= w.centre && r.right <= w.right && r.list <= w.list && r.after <= w.after
      invariant r.centre > 0 ==> r.list == w.list
      invariant r.list > 0 ==> r.right == w.right
      invariant r.right > 0 ==> r.after == w.after
      invariant r.after > 0 ==> r.left == w.left
      invariant r.centre > 0 ==> r.right == w.right && r.after == w.after && r.left == w.left
      invariant r.list > 0 ==> r.after == w.after && r.left == w.left
      invariant r.right > 0 ==> r.left == w.left
      invariant Total(r) >= Min(Total(w), available)
      decreases Total(r)
    {
      if r.centre > 0 {
        r := r.(centre := r.centre - 1);
      } else if r.list > 0 {
        r := r.(list := r.list - 1);
      } else if r.right > 0 {
        r := r.(right := r.right - 1);
      } else if r.after > 0 {
        r := r.(after := r.after - 1);
      } else {
        r := r.(left := r.left - 1);
      }
    }
  }

  datatype ListParts = ListParts(left: Part, list: Part, after: Part, centre: Part, right: Part)

  // format_draw_left: left, list, after from the left; right at the right; the centre between. The list
  // part is the space it has; what goes there is format_draw_put_list's.
  function ListLeft(w: Five, available: nat): ListParts {
    var k := Kept(w, available);
    var before := k.left + k.list + k.after;
    ListParts(
      Part(0, 0, k.left), Part(k.left, 0, k.list), Part(k.left + k.list, 0, k.after),
      Part(before + (available - k.right - before) / 2 - k.centre / 2, w.centre / 2 - k.centre / 2, k.centre),
      Part(available - k.right, w.right - k.right, k.right))
  }

  // format_draw_right: left at the left; right, list, after up to the right; the centre between.
  function ListRight(w: Five, available: nat): ListParts {
    var k := Kept(w, available);
    var end: nat := available - k.right - k.list - k.after;
    ListParts(
      Part(0, 0, k.left), Part(available - k.list - k.after, 0, k.list),
      Part(available - k.after, w.after - k.after, k.after),
      Part(k.left + (end - k.left) / 2 - k.centre / 2, w.centre / 2 - k.centre / 2, k.centre),
      Part(end, 0, k.right))
  }

  // With a list on the left: the left, the list and what is after it follow one another from the start of the
  // line, the right ends it, and the middle of the centre is in the middle of what is between. The centre
  // gives way first, then the list, the right, what is after the list, and the left.
  lemma ListLeftPlaces(w: Five, available: nat)
    ensures var p := ListLeft(w, available);
      && p.left.offset == 0 && p.left.start == 0
      && p.list.offset == p.left.width && p.list.start == 0
      && p.after.offset == p.list.offset + p.list.width && p.after.start == 0
      && p.right.offset + p.right.width == available && p.right.start + p.right.width == w.right
      && Middle(p.centre.offset - (p.after.offset + p.after.width), p.centre.width,
                p.right.offset - (p.centre.offset + p.centre.width))
      && Middle(p.centre.start, p.centre.width, w.centre - (p.centre.start + p.centre.width))
      && GivesWay(w, Five(p.left.width, p.centre.width, p.right.width, p.list.width, p.after.width), available)
  {
    hide Middle, GivesWay, Kept;
    var k := Kept(w, available);
    KeptGivesWay(w, available);
    InTheMiddle(available - k.right - (k.left + k.list + k.after), k.centre);
    InTheMiddle(w.centre, k.centre);
  }

  // With a list on the right: the left starts the line, what is after the list ends it, the list is before
  // that and the right before the list, and the centre is between the left and the right.
  lemma ListRightPlaces(w: Five, available: nat)
    ensures var p := ListRight(w, available);
      && p.left.offset == 0 && p.left.start == 0
      && p.after.offset + p.after.width == available && p.after.start + p.after.width == w.after
      && p.list.offset + p.list.width == p.after.offset && p.list.start == 0
      && p.right.offset + p.right.width == p.list.offset && p.right.start == 0
      && Middle(p.centre.offset - p.left.width, p.centre.width, p.right.offset - (p.centre.offset + p.centre.width))
      && Middle(p.centre.start, p.centre.width, w.centre - (p.centre.start + p.centre.width))
      && GivesWay(w, Five(p.left.width, p.centre.width, p.right.width, p.list.width, p.after.width), available)
  {
    hide Middle, GivesWay, Kept;
    var k := Kept(w, available);
    KeptGivesWay(w, available);
    InTheMiddle(available - k.right - k.list - k.after - k.left, k.centre);
    InTheMiddle(w.centre, k.centre);
  }

  // k is what is kept of w: as much as there is room for, each part only if those that give way after it are
  // whole.
  ghost predicate GivesWay(w: Five, k: Five, available: nat) {
    && k.left <= w.left && k.centre <= w.centre && k.right <= w.right && k.list <= w.list && k.after <= w.after
    && Total(k) == Min(Total(w), available)
    && (k.centre > 0 ==> k.list == w.list) && (k.list > 0 || k.centre > 0 ==> k.right == w.right)
    && (k.right > 0 || k.list > 0 || k.centre > 0 ==> k.after == w.after)
    && (k.after > 0 || k.right > 0 || k.list > 0 || k.centre > 0 ==> k.left == w.left)
  }

  lemma KeptGivesWay(w: Five, available: nat)
    ensures var k := Kept(w, available);
      GivesWay(w, k, available) && k.left + k.list + k.after + k.right + k.centre <= available && k.centre <= w.centre
  {
  }

  method DrawLeft(w: Five, available: nat) returns (p: ListParts)
    ensures p == ListLeft(w, available)
  {
    var k := TrimList(w, available);
    var left := Part(0, 0, k.left);
    var right := Part(available - k.right, w.right - k.right, k.right);
    var after := Part(k.left + k.list, 0, k.after);
    var centre := Part((k.left + k.list + k.after) + ((available - k.right) - (k.left + k.list + k.after)) / 2 - k.centre / 2,
                       w.centre / 2 - k.centre / 2, k.centre);
    p := ListParts(left, Part(k.left, 0, k.list), after, centre, right);
  }

  method DrawRight(w: Five, available: nat) returns (p: ListParts)
    ensures p == ListRight(w, available)
  {
    var k := TrimList(w, available);
    var left := Part(0, 0, k.left);
    var after := Part(available - k.after, w.after - k.after, k.after);
    var right := Part(available - k.right - k.list - k.after, 0, k.right);
    var centre := Part(k.left + ((available - k.right - k.list - k.after) - k.left) / 2 - k.centre / 2,
                       w.centre / 2 - k.centre / 2, k.centre);
    p := ListParts(left, Part(available - k.list - k.after, 0, k.list), after, centre, right);
  }

  // Each in its own stretch of the line, in order, on its own source.
  lemma ListLeftApart(w: Five, available: nat)
    ensures var p := ListLeft(w, available);
      && Inside(p.left, w.left, 0, p.list.offset)
      && Inside(p.list, w.list, p.left.width, p.after.offset)
      && Inside(p.after, w.after, p.list.offset + p.list.width, p.centre.offset)
      && Inside(p.centre, w.centre, p.after.offset + p.after.width, p.right.offset)
      && Inside(p.right, w.right, p.centre.offset + p.centre.width, available)
  {
    var k := Kept(w, available);
    Halves(available - k.right - (k.left + k.list + k.after), k.centre);
    Halves(w.centre, k.centre);
  }

  lemma ListRightApart(w: Five, available: nat)
    ensures var p := ListRight(w, available);
      && Inside(p.left, w.left, 0, p.centre.offset)
      && Inside(p.centre, w.centre, p.left.width, p.right.offset)
      && Inside(p.right, w.right, p.centre.offset + p.centre.width, p.list.offset)
      && Inside(p.list, w.list, p.right.offset + p.right.width, p.after.offset)
      && Inside(p.after, w.after, p.list.offset + p.list.width, available)
  {
    var k := Kept(w, available);
    Halves(available - k.right - k.list - k.after - k.left, k.centre);
    Halves(w.centre, k.centre);
  }

  // With no room for the list, what is after it is joined to its side and the rest drawn as without a
  // list. Nothing more is trimmed.
  lemma JoinedLeft(w: Five, available: nat)
    requires Kept(w, available).list == 0
    ensures var k := Kept(w, available);
      var joined := Widths(k.left + k.after, w.centre, w.right, 0);
      && KeptLeft(joined, available) == k.left + k.after
      && KeptRight(joined, available) == k.right && KeptCentre(joined, available) == k.centre
  {
  }

  lemma JoinedRight(w: Five, available: nat)
    requires Kept(w, available).list == 0
    ensures var k := Kept(w, available);
      var joined := Widths(w.left, w.centre, k.right + k.after, 0);
      && KeptLeft(joined, available) == k.left
      && KeptRight(joined, available) == k.right + k.after && KeptCentre(joined, available) == k.centre
  {
  }

  // When a list too wide for its space shows its focus: the markers are drawn over the space, and the focus
  // is not under one. Near the start of the list there is only a right marker, near its end only a left
  // one; in between the focus is in the middle.
  predicate FocusSeen(width: nat, list: nat, markLeft: nat, markRight: nat, focus: nat) {
    && focus < list
    && (if focus <= width / 2 then focus + markRight < width || markRight >= width
        else if focus + width >= list + width / 2 then focus + width >= list + markLeft || markLeft >= width
        else
          && (markLeft <= width / 2 || markLeft >= width)
          && (width / 2 + markRight < width || markRight + (if markLeft < width then markLeft else 0) >= width))
  }

  // With markers of one column, as the default formats have, the focus is hidden in one case only: the
  // second column of the list in a space of two.
  lemma OneColumnMarkers(width: nat, list: nat, focus: nat)
    requires 0 < width < list && focus < list
    ensures FocusSeen(width, list, 1, 1, focus) <==> !(width == 2 && focus == 1)
  {
    Halving(width);
  }

  lemma Halving(width: nat)
    ensures width / 2 + width / 2 <= width <= width / 2 + width / 2 + 1
  {
  }

  // format_draw_put_list: the list in the space it has, trimmed around its focus, with markers where it
  // goes on. markLeft and markRight are how wide those are. The focus is in the space, and in view exactly
  // when no marker covers it.
  method PutList(offset: nat, width: nat, list: nat, markLeft: nat, markRight: nat, focusStart: nat, focusEnd: nat)
    returns (before: nat, p: Part, after: nat)
    requires width > 0 && focusStart <= focusEnd
    ensures p.offset == offset + before && before + p.width + after == width
    ensures p.start + p.width <= list || (width >= list && p == Part(offset, 0, width))
    ensures before == 0 || before == markLeft
    ensures after == 0 || after == markRight
    ensures before > 0 ==> p.start > markLeft
    ensures after > 0 ==> p.start + p.width + after < list
    ensures width < list && focusStart + (focusEnd - focusStart) / 2 < list ==>
      p.start - before <= focusStart + (focusEnd - focusStart) / 2 < p.start + p.width + after
    ensures width < list ==> var focus: nat := focusStart + (focusEnd - focusStart) / 2;
      p.start <= focus < p.start + p.width <==> FocusSeen(width, list, markLeft, markRight, focus)
    ensures width < list ==> var focus, first := focusStart + (focusEnd - focusStart) / 2, p.start - before;
      0 <= first <= list - width && (first > focus - width / 2 ==> first == 0) && (first < focus - width / 2 ==> first == list - width)
    ensures p.start - before > 0 && markLeft < width ==> before == markLeft
    ensures p.start + p.width + after < list && markRight < width - before ==> after == markRight
  {
    if width >= list {
      return 0, Part(offset, 0, width), 0;
    }
    var focus := focusStart + (focusEnd - focusStart) / 2;
    var start := if focus < width / 2 then 0 else focus - width / 2;
    if start + width > list {
      start := list - width;
    }
    before, after := 0, 0;
    var at, room := offset, width;
    if start != 0 && room > markLeft {
      before := markLeft;
      at, start, room := at + markLeft, start + markLeft, room - markLeft;
    }
    if start + room < list && room > markRight {
      after := markRight;
      room := room - markRight;
    }
    p := Part(at, start, room);
  }

  // ----- Ranges -----

  // A range of columns on one of the source screens.
  datatype Range = Range(screen: nat, start: nat, end: nat, id: nat)

  // What one range becomes when part of its screen is drawn; none if none of it is.
  datatype Moved = Gone | Kept(range: Range)

  function MoveRange(r: Range, screen: nat, p: Part): Moved {
    if r.screen != screen then Moved.Kept(r)
    else if r.end <= p.start || r.start >= p.start + p.width then Gone
    else
      var start := if r.start < p.start then p.start else r.start;
      var end := if r.end > p.start + p.width then p.start + p.width else r.end;
      if start == end then Gone
      else Moved.Kept(r.(start := start - p.start + p.offset, end := end - p.start + p.offset))
  }

  function MoveRanges(rs: seq<Range>, screen: nat, p: Part): seq<Range> {
    if rs == [] then []
    else
      var m := MoveRange(rs[|rs| - 1], screen, p);
      MoveRanges(rs[..|rs| - 1], screen, p) + if m.Kept? then [m.range] else []
  }

  // format_update_ranges
  method UpdateRanges(rs: seq<Range>, screen: nat, p: Part) returns (r: seq<Range>)
    requires forall i :: 0 <= i < |rs| ==> rs[i].start <= rs[i].end
    ensures r == MoveRanges(rs, screen, p)
  {
    r := [];
    var i := 0;
    while i < |rs|
      invariant 0 <= i <= |rs| && r == MoveRanges(rs[..i], screen, p)
    {
      assert rs[..i + 1][..i] == rs[..i];
      var fr := rs[i];
      if fr.screen != screen {
        r := r + [fr];
      } else if fr.end > p.start && fr.start < p.start + p.width {
        if fr.start < p.start {
          fr := fr.(start := p.start);
        }
        if fr.end > p.start + p.width {
          fr := fr.(end := p.start + p.width);
        }
        if fr.start != fr.end {
          r := r + [fr.(start := fr.start - p.start + p.offset, end := fr.end - p.start + p.offset)];
        }
      }
      i := i + 1;
    }
    assert rs[..i] == rs;
  }

  // Ranges are taken in order, each by itself; those of another screen stay as they are.
  lemma {:induction false} RangesEach(a: seq<Range>, b: seq<Range>, r: Range, screen: nat, p: Part)
    ensures MoveRanges(a + b, screen, p) == MoveRanges(a, screen, p) + MoveRanges(b, screen, p)
    ensures r.screen != screen ==> MoveRanges([r], screen, p) == [r]
    ensures r.screen == screen && MoveRange(r, screen, p).Gone? ==> MoveRanges([r], screen, p) == []
    ensures r.screen == screen && MoveRange(r, screen, p).Kept? ==>
      MoveRanges([r], screen, p) == [MoveRange(r, screen, p).range]
    decreases |b|
  {
    hide MoveRange;
    assert [r][..0] == [];
    if b == [] {
      assert a + b == a;
      OtherScreen(r, screen, p);
    } else {
      var init := b[..|b| - 1];
      assert (a + b)[..|a + b| - 1] == a + init;
      RangesEach(a, init, r, screen, p);
    }
  }

  lemma OtherScreen(r: Range, screen: nat, p: Part)
    ensures r.screen != screen ==> MoveRange(r, screen, p) == Moved.Kept(r)
  {
  }

  // A range of the screen drawn covers exactly the columns its columns are drawn at, and goes when there
  // are none.
  lemma RangeFollows(r: Range, p: Part)
    requires r.start <= r.end
    ensures var m, width: nat := MoveRange(r, r.screen, p), r.end - r.start;
      && (m.Kept? ==>
            && m.range.start < m.range.end && m.range.id == r.id
            && (forall x: nat :: m.range.start <= x < m.range.end <==> Shown(p, r.start, width, x)))
      && (m.Gone? <==> forall x: nat :: !Shown(p, r.start, width, x))
  {
    var m := MoveRange(r, r.screen, p);
    var width: nat := r.end - r.start;
    forall x: nat
      ensures Shown(p, r.start, width, x) <==>
        p.offset <= x < p.offset + p.width && r.start <= x - p.offset + p.start < r.end
    {
      ShownColumn(p, r.start, width, x);
    }
    if m.Kept? {
      assert Shown(p, r.start, width, m.range.start);
    }
  }
}

// Fuzzy and exact matching of visible characters.

module Fuzzy {
  import opened GridCell

  // struct utf8_data, as its bytes
  type Ud = seq<byte>

  const BONUS_EXACT := 1000
  const BONUS_PREFIX := 200
  const BONUS_SUFFIX := 100
  const BONUS_START := 12
  const BONUS_BOUNDARY := 8
  const BONUS_CONSECUTIVE := 6
  const PENALTY_LEADING := 1
  const PENALTY_LEADING_MAX := 10
  const PENALTY_GAP := 1

  // A parsed term, or one that could not be parsed; text is what it decodes to.
  datatype Term = Bad | Term(inverse: bool, exact: bool, prefix: bool, suffix: bool, text: seq<Ud>)

  // " -_/.:" and the zero byte strchr also finds
  const BOUNDARY: set<byte> := {32, 45, 95, 47, 46, 58, 0}

  function Lower(b: byte): byte {
    if 65 <= b <= 90 then b + 32 else b
  }

  predicate CharEqual(a: Ud, b: Ud, fold: bool) {
    if fold && |a| == 1 && |b| == 1 && a[0] < 0x80 && b[0] < 0x80 then Lower(a[0]) == Lower(b[0]) else a == b
  }

  // Characters match if they are the same or, when case is ignored, are the two cases of an ASCII letter.
  lemma CharEqualCases(a: Ud, b: Ud, fold: bool)
    ensures CharEqual(a, b, fold) <==> (
      a == b || (
        && fold && |a| == 1 && |b| == 1
        && ((65 <= a[0] <= 90 && b[0] as int == a[0] as int + 32) || (65 <= b[0] <= 90 && a[0] as int == b[0] as int + 32))))
  {
    if |a| == 1 && |b| == 1 {
      assert a == b <==> a[0] == b[0];
    }
  }

  predicate IsBoundary(ud: Ud) {
    |ud| == 1 && ud[0] in BOUNDARY
  }

  // ----- What a match is -----

  // pos takes tok into cs, in order.
  ghost predicate Embeds(tok: seq<Ud>, cs: seq<Ud>, fold: bool, pos: seq<nat>) {
    && |pos| == |tok|
    && (forall i :: 0 <= i < |pos| ==> pos[i] < |cs| && CharEqual(tok[i], cs[pos[i]], fold))
    && (forall i, j :: 0 <= i < j < |pos| ==> pos[i] < pos[j])
  }

  ghost predicate Subsequence(tok: seq<Ud>, cs: seq<Ud>, fold: bool) {
    exists pos :: Embeds(tok, cs, fold, pos)
  }

  // Ends as soon as any match, and of those that end there has every character as late as any.
  ghost predicate Tightest(tok: seq<Ud>, cs: seq<Ud>, fold: bool, pos: seq<nat>) {
    && tok != [] && Embeds(tok, cs, fold, pos)
    && (forall q :: Embeds(tok, cs, fold, q) ==>
          && pos[|tok| - 1] <= q[|tok| - 1]
          && (q[|tok| - 1] == pos[|tok| - 1] ==> forall i :: 0 <= i < |tok| ==> q[i] <= pos[i]))
  }

  // The tightest match is the only one there is, so its score and marks are settled by the text.
  lemma TightestUnique(tok: seq<Ud>, cs: seq<Ud>, fold: bool, p: seq<nat>, q: seq<nat>)
    requires Tightest(tok, cs, fold, p) && Tightest(tok, cs, fold, q)
    ensures p == q
  {
    forall i | 0 <= i < |tok|
      ensures p[i] == q[i]
    {
      assert p[|tok| - 1] == q[|tok| - 1];
    }
  }

  // ----- Score -----

  function LeadingPenalty(start: nat): int {
    (if start < PENALTY_LEADING_MAX then start else PENALTY_LEADING_MAX) * PENALTY_LEADING
  }

  function StartScore(cs: seq<Ud>, start: nat): int
    requires start < |cs|
  {
    if start == 0 then BONUS_START
    else (if IsBoundary(cs[start - 1]) then BONUS_BOUNDARY else 0) - LeadingPenalty(start)
  }

  function StepScores(cs: seq<Ud>, pos: seq<nat>): int
    requires forall i :: 0 <= i < |pos| ==> 0 < pos[i] <= |cs| || i == 0
  {
    if |pos| <= 1 then 0
    else
      var init, a, b := pos[..|pos| - 1], pos[|pos| - 2], pos[|pos| - 1];
      StepScores(cs, init) +
      if b == a + 1 then BONUS_CONSECUTIVE else if IsBoundary(cs[b - 1]) then BONUS_BOUNDARY else 0
  }

  // ----- fuzzy_match_fuzzy -----

  // The first pi characters are placed before ci, as soon as any match has them, and the next is in no
  // match before ci.
  ghost predicate Greedy(tok: seq<Ud>, cs: seq<Ud>, fold: bool, p: seq<nat>, pi: nat, ci: nat) {
    && |p| == |tok| && pi <= |tok| && ci <= |cs|
    && (forall i :: 0 <= i < pi ==> p[i] < ci && CharEqual(tok[i], cs[p[i]], fold))
    && (forall i, j :: 0 <= i < j < pi ==> p[i] < p[j])
    && (forall q :: Embeds(tok, cs, fold, q) ==>
          (forall i :: 0 <= i < pi ==> p[i] <= q[i]) && (pi < |tok| ==> ci <= q[pi]))
  }

  lemma GreedyStep(tok: seq<Ud>, cs: seq<Ud>, fold: bool, p: seq<nat>, pi: nat, ci: nat, at: nat)
    requires Greedy(tok, cs, fold, p, pi, ci) && pi < |tok| && ci <= at <= |cs|
    requires forall k :: ci <= k < at ==> !CharEqual(tok[pi], cs[k], fold)
    requires at < |cs| ==> CharEqual(tok[pi], cs[at], fold)
    ensures at < |cs| ==> Greedy(tok, cs, fold, p[pi := at], pi + 1, at + 1)
    ensures at == |cs| ==> !Subsequence(tok, cs, fold)
  {
    forall q | Embeds(tok, cs, fold, q)
      ensures at <= q[pi] && at < |cs| && (pi + 1 < |tok| ==> at + 1 <= q[pi + 1])
    {
      assert ci <= q[pi] && CharEqual(tok[pi], cs[q[pi]], fold);
    }
  }

  // No match has any character sooner.
  ghost predicate Earliest(tok: seq<Ud>, cs: seq<Ud>, fold: bool, p: seq<nat>) {
    Embeds(tok, cs, fold, p) && forall q, i :: Embeds(tok, cs, fold, q) && 0 <= i < |tok| ==> p[i] <= q[i]
  }

  lemma GreedyEnd(tok: seq<Ud>, cs: seq<Ud>, fold: bool, p: seq<nat>, ci: nat)
    requires Greedy(tok, cs, fold, p, |tok|, ci)
    ensures Subsequence(tok, cs, fold) && Earliest(tok, cs, fold, p)
  {
    assert Embeds(tok, cs, fold, p);
  }

  // The next character at or after from that c matches, or the end.
  method FindNext(c: Ud, cs: seq<Ud>, fold: bool, from: nat) returns (ci: nat)
    requires from <= |cs|
    ensures from <= ci <= |cs| && (ci < |cs| ==> CharEqual(c, cs[ci], fold))
    ensures forall k :: from <= k < ci ==> !CharEqual(c, cs[k], fold)
  {
    ci := from;
    while ci != |cs| && !CharEqual(c, cs[ci], fold)
      invariant from <= ci <= |cs|
      invariant forall k :: from <= k < ci ==> !CharEqual(c, cs[k], fold)
    {
      ci := ci + 1;
    }
  }

  // The first match from the start: no match has any character sooner.
  method FirstFromStart(tok: seq<Ud>, cs: seq<Ud>, fold: bool, pos: array<nat>) returns (found: bool)
    requires tok != [] && pos.Length == |tok|
    modifies pos
    ensures found <==> Subsequence(tok, cs, fold)
    ensures found ==> Earliest(tok, cs, fold, pos[..])
  {
    hide Greedy, Earliest, CharEqual, Subsequence;
    GreedyStart(tok, cs, fold, pos[..]);
    var ci, pi := 0, 0;
    while pi < |tok|
      invariant 0 <= pi <= |tok| && 0 <= ci <= |cs| && Greedy(tok, cs, fold, pos[..], pi, ci)
    {
      var at := FindNext(tok[pi], cs, fold, ci);
      GreedyStep(tok, cs, fold, pos[..], pi, ci, at);
      if at == |cs| {
        return false;
      }
      ghost var p := pos[..];
      pos[pi] := at;
      assert pos[..] == p[pi := at];
      ci, pi := at + 1, pi + 1;
    }
    GreedyEnd(tok, cs, fold, pos[..], ci);
    return true;
  }

  lemma GreedyStart(tok: seq<Ud>, cs: seq<Ud>, fold: bool, p: seq<nat>)
    requires |p| == |tok|
    ensures Greedy(tok, cs, fold, p, 0, 0)
  {
  }

  // The first pi characters are still where first has them; the rest are as late as any match that ends
  // there has them; every such match has the character before that at or before ci.
  ghost predicate Compacted(tok: seq<Ud>, cs: seq<Ud>, fold: bool, first: seq<nat>, p: seq<nat>, pi: nat, ci: nat) {
    && |p| == |first| == |tok| && pi <= |tok| && tok != [] && ci < |cs|
    && p[..pi] == first[..pi]
    && (if pi < |tok| then p[|tok| - 1] else ci) == first[|tok| - 1]
    && (forall i :: pi <= i < |tok| ==> p[i] < |cs| && CharEqual(tok[i], cs[p[i]], fold))
    && (forall i :: 0 < pi <= i < |tok| ==> ci < p[i])
    && (forall i, j :: pi <= i < j < |tok| ==> p[i] < p[j])
    && (forall q :: Ends(tok, cs, fold, first, q) ==>
          && (forall i :: pi <= i < |tok| ==> q[i] <= p[i])
          && (pi > 0 ==> q[pi - 1] <= ci))
  }

  ghost predicate Ends(tok: seq<Ud>, cs: seq<Ud>, fold: bool, first: seq<nat>, q: seq<nat>)
    requires |first| == |tok| && tok != []
  {
    Embeds(tok, cs, fold, q) && q[|tok| - 1] == first[|tok| - 1]
  }

  // The next character placed at at, the last place at or before ci that suits it.
  lemma CompactStep(tok: seq<Ud>, cs: seq<Ud>, fold: bool, first: seq<nat>, p: seq<nat>, pi: nat, ci: nat, at: nat)
    requires Compacted(tok, cs, fold, first, p, pi, ci) && pi > 0 && Embeds(tok, cs, fold, first)
    requires first[pi - 1] <= at <= ci && CharEqual(tok[pi - 1], cs[at], fold)
    requires forall k :: at < k <= ci ==> !CharEqual(tok[pi - 1], cs[k], fold)
    ensures pi != 1 ==> at > 0
    ensures Compacted(tok, cs, fold, first, p[pi - 1 := at], pi - 1, if pi != 1 then at - 1 else at)
  {
    var p1 := p[pi - 1 := at];
    if pi != 1 {
      assert first[pi - 2] < first[pi - 1];
    }
    assert Ends(tok, cs, fold, first, first);
    forall q | Ends(tok, cs, fold, first, q)
      ensures q[pi - 1] <= at && (pi > 1 ==> q[pi - 2] < at)
    {
      assert q[pi - 1] <= ci && CharEqual(tok[pi - 1], cs[q[pi - 1]], fold);
    }
    assert p1[..pi - 1] == first[..pi - 1] by {
      assert p1[..pi - 1] == p[..pi][..pi - 1] && first[..pi - 1] == first[..pi][..pi - 1];
    }
    assert p1[|tok| - 1] == first[|tok| - 1];
  }

  // Compacted backwards from its end. A place is found for every character, so nothing goes below zero.
  method CompactBackwards(tok: seq<Ud>, cs: seq<Ud>, fold: bool, pos: array<nat>)
    requires tok != [] && pos.Length == |tok| && Earliest(tok, cs, fold, pos[..])
    modifies pos
    ensures Tightest(tok, cs, fold, pos[..])
  {
    hide Embeds, CharEqual, Compacted, Tightest;
    ghost var first := pos[..];
    StartCompact(tok, cs, fold, first);
    var ci, pi := pos[|tok| - 1], |tok|;
    while pi > 0
      invariant 0 <= pi <= |tok| && Compacted(tok, cs, fold, first, pos[..], pi, ci)
    {
      FirstPlace(tok, cs, fold, first, pos[..], pi, ci);
      ghost var p, was := pos[..], ci;
      ci := FindBack(tok[pi - 1], cs, fold, ci, first[pi - 1]);
      CompactStep(tok, cs, fold, first, p, pi, was, ci);
      pos[pi - 1] := ci;
      assert pos[..] == p[pi - 1 := ci];
      if pi != 1 {
        ci := ci - 1;
      }
      pi := pi - 1;
    }
    EndCompact(tok, cs, fold, first, pos[..], ci);
  }

  // The last character at or before ci that c matches; below is one it does match.
  method FindBack(c: Ud, cs: seq<Ud>, fold: bool, from: nat, ghost below: nat) returns (ci: nat)
    requires below <= from < |cs| && CharEqual(c, cs[below], fold)
    ensures below <= ci <= from && CharEqual(c, cs[ci], fold)
    ensures forall k :: ci < k <= from ==> !CharEqual(c, cs[k], fold)
  {
    ci := from;
    while !CharEqual(c, cs[ci], fold)
      invariant below <= ci <= from
      invariant forall k :: ci < k <= from ==> !CharEqual(c, cs[k], fold)
      decreases ci
    {
      assert ci != 0; // so the source's give-up at zero is not reached
      ci := ci - 1;
    }
  }

  lemma StartCompact(tok: seq<Ud>, cs: seq<Ud>, fold: bool, first: seq<nat>)
    requires tok != [] && Embeds(tok, cs, fold, first)
    ensures first[|tok| - 1] < |cs| && Compacted(tok, cs, fold, first, first, |tok|, first[|tok| - 1])
  {
  }

  lemma FirstPlace(tok: seq<Ud>, cs: seq<Ud>, fold: bool, first: seq<nat>, p: seq<nat>, pi: nat, ci: nat)
    requires Compacted(tok, cs, fold, first, p, pi, ci) && pi > 0 && Embeds(tok, cs, fold, first)
    ensures first[pi - 1] <= ci < |cs| && CharEqual(tok[pi - 1], cs[first[pi - 1]], fold)
  {
    assert Ends(tok, cs, fold, first, first);
  }

  lemma EndCompact(tok: seq<Ud>, cs: seq<Ud>, fold: bool, first: seq<nat>, p: seq<nat>, ci: nat)
    requires Compacted(tok, cs, fold, first, p, 0, ci)
    requires |first| == |tok| && Earliest(tok, cs, fold, first)
    ensures Tightest(tok, cs, fold, p)
  {
    forall q | Embeds(tok, cs, fold, q)
      ensures p[|tok| - 1] <= q[|tok| - 1]
      ensures q[|tok| - 1] == p[|tok| - 1] ==> forall i :: 0 <= i < |tok| ==> q[i] <= p[i]
    {
      if q[|tok| - 1] == p[|tok| - 1] {
        assert Ends(tok, cs, fold, first, q);
      }
    }
  }

  // fuzzy_score_positions
  method ScorePositions(cs: seq<Ud>, pos: array<nat>) returns (score: int)
    requires pos.Length > 0 && forall i :: 0 <= i < pos.Length ==> pos[i] < |cs|
    requires forall i, j :: 0 <= i < j < pos.Length ==> pos[i] < pos[j]
    ensures score == FuzzyScore(cs, pos[..])
  {
    if pos[0] == 0 {
      score := BONUS_START;
    } else {
      score := if IsBoundary(cs[pos[0] - 1]) then BONUS_BOUNDARY else 0;
      if pos[0] < PENALTY_LEADING_MAX {
        score := score - pos[0] * PENALTY_LEADING;
      } else {
        score := score - PENALTY_LEADING_MAX * PENALTY_LEADING;
      }
    }
    var i := 1;
    while i < pos.Length
      invariant 1 <= i <= pos.Length && score == StartScore(cs, pos[0]) + StepScores(cs, pos[..i])
    {
      assert pos[..i + 1][..i] == pos[..i];
      if pos[i] == pos[i - 1] + 1 {
        score := score + BONUS_CONSECUTIVE;
      } else if IsBoundary(cs[pos[i] - 1]) {
        score := score + BONUS_BOUNDARY;
      }
      i := i + 1;
    }
    assert pos[..i] == pos[..];
    SpanCovers(pos[..]);
    var span: nat := pos[pos.Length - 1] - pos[0] + 1;
    var gap: nat := span - pos.Length; // never below zero
    score := score - gap * PENALTY_GAP;
  }

  // Bonuses for where it starts and for each step, less what it skips.
  function FuzzyScore(cs: seq<Ud>, pos: seq<nat>): int
    requires pos != [] && forall i :: 0 <= i < |pos| ==> pos[i] < |cs|
    requires forall i, j :: 0 <= i < j < |pos| ==> pos[i] < pos[j]
  {
    StartScore(cs, pos[0]) + StepScores(cs, pos) - (pos[|pos| - 1] - pos[0] + 1 - |pos|) * PENALTY_GAP
  }

  // A word starts after a space or any of - _ / . : and after a zero byte.
  ghost predicate WordStart(cs: seq<Ud>, k: nat) {
    0 < k <= |cs| && |cs[k - 1]| == 1 && cs[k - 1][0] in {32, 45, 95, 47, 46, 58, 0}
  }

  // The steps of a match that go on to the next character, and those that skip to the start of a word.
  ghost function Runs(pos: seq<nat>): set<nat> {
    set i: nat | 0 < i < |pos| && GoesOn(pos, i)
  }

  ghost function Jumps(cs: seq<Ud>, pos: seq<nat>): set<nat> {
    set i: nat | 0 < i < |pos| && !GoesOn(pos, i) && WordStart(cs, pos[i])
  }

  ghost predicate GoesOn(pos: seq<nat>, i: nat)
    requires 0 < i < |pos|
  {
    pos[i] == pos[i - 1] + 1
  }

  // The score of a match: 12 if it starts the text; otherwise 8 if it starts a word, less one for each
  // character before it up to ten. Then 6 for each character that follows the last one, 8 for each other
  // that starts a word, and one off for each character skipped.
  lemma ScoreCounts(cs: seq<Ud>, pos: seq<nat>)
    requires pos != [] && forall i :: 0 <= i < |pos| ==> pos[i] < |cs|
    requires forall i, j :: 0 <= i < j < |pos| ==> pos[i] < pos[j]
    ensures var first, last := pos[0], pos[|pos| - 1];
      FuzzyScore(cs, pos) ==
        (if first == 0 then 12 else (if WordStart(cs, first) then 8 else 0) - (if first < 10 then first else 10))
        + 6 * |Runs(pos)| + 8 * |Jumps(cs, pos)| - (last - first + 1 - |pos|)
  {
    hide StepScores, Runs, Jumps;
    forall i | 0 < i < |pos|
      ensures 0 < pos[i]
    {
      assert pos[0] < pos[i];
    }
    StepCounts(cs, pos);
    if pos[0] > 0 {
      Boundary(cs, pos[0]);
    }
  }

  lemma Boundary(cs: seq<Ud>, k: nat)
    requires 0 < k <= |cs|
    ensures IsBoundary(cs[k - 1]) <==> WordStart(cs, k)
  {
  }

  lemma {:induction false} StepCounts(cs: seq<Ud>, pos: seq<nat>)
    requires forall i :: 0 <= i < |pos| ==> pos[i] < |cs|
    requires forall i :: 0 < i < |pos| ==> 0 < pos[i]
    ensures StepScores(cs, pos) == 6 * |Runs(pos)| + 8 * |Jumps(cs, pos)|
    decreases |pos|
  {
    hide IsBoundary, WordStart, Runs, Jumps;
    if |pos| <= 1 {
      NoSteps(cs, pos);
    } else {
      var n: nat := |pos| - 1;
      StepCounts(cs, pos[..n]);
      StepsPush(cs, pos[..n], pos[n]);
      assert pos == pos[..n] + [pos[n]];
      Boundary(cs, pos[n]);
    }
  }

  lemma NoSteps(cs: seq<Ud>, pos: seq<nat>)
    requires |pos| <= 1
    ensures Runs(pos) == {} && Jumps(cs, pos) == {}
  {
  }

  lemma StepsPush(cs: seq<Ud>, init: seq<nat>, b: nat)
    requires init != []
    ensures var n, goes := |init|, b == init[|init| - 1] + 1;
      && |Runs(init + [b])| == |Runs(init)| + (if goes then 1 else 0)
      && |Jumps(cs, init + [b])| == |Jumps(cs, init)| + (if !goes && WordStart(cs, b) then 1 else 0)
  {
    hide WordStart;
    var pos, n: nat := init + [b], |init|;
    forall i: nat | 0 < i < n
      ensures GoesOn(pos, i) <==> GoesOn(init, i)
    {
    }
    assert GoesOn(pos, n) <==> b == init[n - 1] + 1;
    RunsPush(init, pos, n);
    JumpsPush(cs, init, pos, n);
  }

  lemma RunsPush(init: seq<nat>, pos: seq<nat>, n: nat)
    requires 0 < n == |init| && |pos| == n + 1
    requires forall i: nat :: 0 < i < n ==> (GoesOn(pos, i) <==> GoesOn(init, i))
    ensures |Runs(pos)| == |Runs(init)| + if GoesOn(pos, n) then 1 else 0
  {
    hide GoesOn;
    assert Runs(pos) == Runs(init) + if GoesOn(pos, n) then {n} else {};
  }

  lemma JumpsPush(cs: seq<Ud>, init: seq<nat>, pos: seq<nat>, n: nat)
    requires 0 < n == |init| && |pos| == n + 1 && pos[..n] == init
    requires forall i: nat :: 0 < i < n ==> (GoesOn(pos, i) <==> GoesOn(init, i))
    ensures |Jumps(cs, pos)| == |Jumps(cs, init)| + if !GoesOn(pos, n) && WordStart(cs, pos[n]) then 1 else 0
  {
    hide GoesOn, WordStart;
    assert forall i :: 0 <= i < n ==> pos[i] == init[i];
    assert Jumps(cs, pos) == Jumps(cs, init) + if !GoesOn(pos, n) && WordStart(cs, pos[n]) then {n} else {};
  }

  lemma {:induction false} SpanCovers(pos: seq<nat>)
    requires pos != [] && forall i, j :: 0 <= i < j < |pos| ==> pos[i] < pos[j]
    ensures pos[|pos| - 1] - pos[0] + 1 >= |pos|
  {
    if |pos| > 1 {
      SpanCovers(pos[..|pos| - 1]);
    }
  }

  // fuzzy_match_fuzzy: it succeeds just when the term is a subsequence of the text, and what it marks
  // and scores is the tightest match.
  method MatchFuzzy(tok: seq<Ud>, cs: seq<Ud>, fold: bool, matched: array<bool>) returns (found: bool, score: int, ghost p: seq<nat>)
    requires matched.Length == |cs|
    modifies matched
    ensures found <==> tok != [] && Subsequence(tok, cs, fold)
    ensures found ==> Tightest(tok, cs, fold, p) && score == FuzzyScore(cs, p)
    ensures forall k :: 0 <= k < |cs| ==> matched[k] == (old(matched[k]) || (found && k in p))
  {
    hide CharEqual, FuzzyScore, Earliest;
    p, score := [], 0;
    if tok == [] || cs == [] {
      forall q | Embeds(tok, cs, fold, q)
        ensures |tok| <= |cs|
      {
        MatchFits(tok, cs, fold, q);
      }
      return false, 0, [];
    }
    var pos := new nat[|tok|];
    found := FirstFromStart(tok, cs, fold, pos);
    if !found {
      return;
    }
    CompactBackwards(tok, cs, fold, pos);
    p := pos[..];
    score := ScorePositions(cs, pos);
    MarkAll(pos, matched);
  }

  // A match is no longer than the text, nor is a run of it.
  lemma MatchFits(tok: seq<Ud>, cs: seq<Ud>, fold: bool, pos: seq<nat>)
    requires Embeds(tok, cs, fold, pos)
    ensures |tok| <= |cs|
  {
    hide CharEqual;
    if tok != [] {
      SpanCovers(pos);
    }
  }

  method MarkAll(pos: array<nat>, matched: array<bool>)
    requires forall i :: 0 <= i < pos.Length ==> pos[i] < matched.Length
    modifies matched
    ensures forall k :: 0 <= k < matched.Length ==> matched[k] == (old(matched[k]) || k in pos[..])
  {
    var i := 0;
    while i < pos.Length
      invariant 0 <= i <= pos.Length
      invariant forall k :: 0 <= k < matched.Length ==> matched[k] == (old(matched[k]) || k in pos[..i])
    {
      assert pos[..i + 1] == pos[..i] + [pos[i]];
      matched[pos[i]] := true;
      i := i + 1;
    }
    assert pos[..i] == pos[..];
  }

  // ----- fuzzy_match_exact -----

  ghost predicate OccursAt(tok: seq<Ud>, cs: seq<Ud>, fold: bool, i: nat) {
    i + |tok| <= |cs| && forall j :: 0 <= j < |tok| ==> CharEqual(tok[j], cs[i + j], fold)
  }

  ghost predicate Allowed(term: Term, cs: seq<Ud>, i: nat)
    requires term.Term?
  {
    (term.prefix ==> i == 0) && (term.suffix ==> i + |term.text| == |cs|)
  }

  ghost predicate Candidate(term: Term, cs: seq<Ud>, fold: bool, i: nat)
    requires term.Term?
  {
    OccursAt(term.text, cs, fold, i) && Allowed(term, cs, i)
  }

  // fuzzy_score_exact
  function ExactScore(term: Term, cs: seq<Ud>, start: nat): int
    requires term.Term? && term.text != [] && start + |term.text| <= |cs|
  {
    BONUS_EXACT + |term.text| * BONUS_CONSECUTIVE
    + (if term.prefix then BONUS_PREFIX else 0) + (if term.suffix then BONUS_SUFFIX else 0)
    + (if start == 0 then BONUS_START else if IsBoundary(cs[start - 1]) then BONUS_BOUNDARY else 0)
    - LeadingPenalty(start)
    - if !term.prefix && !term.suffix then |cs| - (start + |term.text|) else 0
  }

  // The score of a term at a place: 1000 and 6 for each character, 200 and 100 more for each anchor, 12 at the
  // start of the text or 8 at the start of a word, less one for each character before it up to ten and, if
  // it is not anchored, one for each after it.
  lemma ExactCounts(term: Term, cs: seq<Ud>, start: nat)
    requires term.Term? && term.text != [] && start + |term.text| <= |cs|
    ensures ExactScore(term, cs, start) ==
      1000 + 6 * |term.text| + (if term.prefix then 200 else 0) + (if term.suffix then 100 else 0)
      + (if start == 0 then 12 else if WordStart(cs, start) then 8 else 0)
      - (if start < 10 then start else 10)
      - (if term.prefix || term.suffix then 0 else |cs| - start - |term.text|)
  {
    assert start > 0 ==> (IsBoundary(cs[start - 1]) <==> WordStart(cs, start));
  }

  // The first of the places with the best score.
  ghost predicate BestPlace(term: Term, cs: seq<Ud>, fold: bool, best: nat)
    requires term.Term? && term.text != []
  {
    && Candidate(term, cs, fold, best)
    && (forall i: nat :: Candidate(term, cs, fold, i) ==>
          ExactScore(term, cs, i) < ExactScore(term, cs, best)
          || (ExactScore(term, cs, i) == ExactScore(term, cs, best) && best <= i))
  }

  method OccursHere(tok: seq<Ud>, cs: seq<Ud>, fold: bool, i: nat) returns (ok: bool)
    requires i + |tok| <= |cs|
    ensures ok <==> OccursAt(tok, cs, fold, i)
  {
    var j := 0;
    while j < |tok|
      invariant 0 <= j <= |tok| && forall k :: 0 <= k < j ==> CharEqual(tok[k], cs[i + k], fold)
    {
      if !CharEqual(tok[j], cs[i + j], fold) {
        return false;
      }
      j := j + 1;
    }
    return true;
  }

  // It succeeds just when the term is somewhere it may be; the first best-scoring place is taken, and
  // marked unless the term is inverse.
  method MatchExact(term: Term, cs: seq<Ud>, fold: bool, matched: array<bool>) returns (found: bool, score: int, best: nat)
    requires term.Term? && matched.Length == |cs|
    modifies matched
    ensures found <==> term.text != [] && exists i: nat :: Candidate(term, cs, fold, i)
    ensures found ==> BestPlace(term, cs, fold, best) && score == ExactScore(term, cs, best)
    ensures forall k :: 0 <= k < |cs| ==>
      matched[k] == (old(matched[k]) || (found && !term.inverse && best <= k < best + |term.text|))
  {
    found, score, best := false, 0, 0;
    var n := |term.text|;
    if n == 0 || n > |cs| {
      return;
    }
    var start: nat, end: nat;
    if term.prefix && term.suffix {
      if n != |cs| {
        return;
      }
      start, end := 0, 1;
    } else if term.prefix {
      start, end := 0, 1;
    } else if term.suffix {
      start := |cs| - n;
      end := start + 1;
    } else {
      start, end := 0, |cs| - n + 1;
    }
    assert forall i: nat :: Candidate(term, cs, fold, i) ==> start <= i < end;
    found, score, best := BestOf(term, cs, fold, start, end);
    if found && !term.inverse {
      var i := 0;
      while i < n
        invariant 0 <= i <= n && best + n <= |cs|
        invariant forall k :: 0 <= k < |cs| ==> matched[k] == (old(matched[k]) || best <= k < best + i)
      {
        matched[best + i] := true;
        i := i + 1;
      }
    }
  }

  // The loop over the places a term may start.
  method BestOf(term: Term, cs: seq<Ud>, fold: bool, start: nat, end: nat) returns (found: bool, score: int, best: nat)
    requires term.Term? && term.text != [] && end + |term.text| <= |cs| + 1
    requires start <= end && forall i: nat :: start <= i < end ==> Allowed(term, cs, i)
    requires forall i: nat :: Candidate(term, cs, fold, i) ==> start <= i < end
    ensures found <==> exists i: nat :: Candidate(term, cs, fold, i)
    ensures found ==> BestPlace(term, cs, fold, best) && score == ExactScore(term, cs, best)
  {
    hide CharEqual, ExactScore, Allowed;
    found, score, best := false, 0, 0;
    var i := start;
    while i < end
      invariant start <= i <= end
      invariant found ==> Candidate(term, cs, fold, best) && best < i && score == ExactScore(term, cs, best)
      invariant forall k: nat :: Candidate(term, cs, fold, k) && k < i ==>
        found && (ExactScore(term, cs, k) < score || (ExactScore(term, cs, k) == score && best <= k))
    {
      var ok := OccursHere(term.text, cs, fold, i);
      if ok {
        var value := ExactScore(term, cs, i);
        if !found || value > score {
          found, best, score := true, i, value;
        }
      }
      i := i + 1;
    }
  }

  // ----- Terms, groups and patterns -----

  ghost predicate Found(term: Term, cs: seq<Ud>, fold: bool)
    requires term.Term?
  {
    term.text != [] && if term.exact then exists i: nat :: Candidate(term, cs, fold, i) else Subsequence(term.text, cs, fold)
  }

  // An inverse term matches when it is not there.
  ghost predicate TermMatches(term: Term, cs: seq<Ud>, fold: bool) {
    term.Term? && term.inverse != Found(term, cs, fold)
  }

  lemma TooLong(term: Term, cs: seq<Ud>, fold: bool)
    requires term.Term? && |term.text| > |cs|
    ensures !Found(term, cs, fold)
  {
    if Found(term, cs, fold) && !term.exact {
      var p :| Embeds(term.text, cs, fold, p);
      MatchFits(term.text, cs, fold, p);
    }
  }

  function Run(start: nat, n: nat): (r: set<nat>)
    ensures forall k :: k in r <==> start <= k < start + n
  {
    if n == 0 then {} else Run(start, n - 1) + {start + n - 1}
  }

  // What a term that matches marks and scores.
  ghost predicate TermGives(term: Term, cs: seq<Ud>, fold: bool, marks: set<nat>, value: int)
    requires term.Term?
  {
    if term.inverse then marks == {} && value == 0
    else if term.exact then
      exists best: nat :: term.text != [] && BestPlace(term, cs, fold, best)
        && marks == Run(best, |term.text|) && value == ExactScore(term, cs, best)
    else
      exists p :: Tightest(term.text, cs, fold, p) && marks == (set k: nat | k in p) && value == FuzzyScore(cs, p)
  }

  lemma TermGivesOne(term: Term, cs: seq<Ud>, fold: bool, marks: set<nat>, value: int, marks2: set<nat>, value2: int)
    requires term.Term? && TermGives(term, cs, fold, marks, value) && TermGives(term, cs, fold, marks2, value2)
    ensures marks == marks2 && value == value2
  {
    hide CharEqual, ExactScore, FuzzyScore;
    if term.inverse {
    } else if term.exact {
      var a: nat :| BestPlace(term, cs, fold, a) && value == ExactScore(term, cs, a)
        && marks == Run(a, |term.text|);
      var b: nat :| BestPlace(term, cs, fold, b) && value2 == ExactScore(term, cs, b)
        && marks2 == Run(b, |term.text|);
      assert Candidate(term, cs, fold, a) && Candidate(term, cs, fold, b);
      assert a == b;
    } else {
      var p :| Tightest(term.text, cs, fold, p) && marks == (set k: nat | k in p) && value == FuzzyScore(cs, p);
      var q :| Tightest(term.text, cs, fold, q) && marks2 == (set k: nat | k in q) && value2 == FuzzyScore(cs, q);
      TightestUnique(term.text, cs, fold, p, q);
    }
  }

  method MatchTerm(term: Term, cs: seq<Ud>, fold: bool, matched: array<bool>) returns (ok: bool, value: int, ghost marks: set<nat>)
    requires term.Term? && (term.inverse ==> term.exact) && matched.Length == |cs|
    modifies matched
    ensures ok <==> TermMatches(term, cs, fold)
    ensures ok ==> TermGives(term, cs, fold, marks, value)
    ensures ok ==> forall k :: 0 <= k < |cs| ==> matched[k] == (old(matched[k]) || k in marks)
  {
    hide CharEqual, ExactScore, FuzzyScore, Candidate, Subsequence, BestPlace, Tightest;
    value, marks := 0, {};
    if |term.text| > |cs| {
      TooLong(term, cs, fold);
      return term.inverse, 0, {};
    }
    if term.exact {
      var found, score, best := MatchExact(term, cs, fold, matched);
      if term.inverse {
        return !found, 0, {};
      }
      marks := if found then Run(best, |term.text|) else {};
      return found, score, marks;
    }
    var found, score, p := MatchFuzzy(term.text, cs, fold, matched);
    marks := set k: nat | k in p;
    return found, score, marks;
  }

  // A group matches when it has a term, every term of it parses and every one matches.
  ghost predicate GroupMatches(group: seq<Term>, cs: seq<Ud>, fold: bool) {
    group != [] && forall i :: 0 <= i < |group| ==> TermMatches(group[i], cs, fold)
  }

  // What each of its terms marks and scores.
  ghost predicate EachGives(group: seq<Term>, cs: seq<Ud>, fold: bool, gives: seq<(set<nat>, int)>) {
    && |gives| == |group|
    && forall i :: 0 <= i < |group| ==> group[i].Term? && TermGives(group[i], cs, fold, gives[i].0, gives[i].1)
  }

  function Marks(gives: seq<(set<nat>, int)>): set<nat> {
    if gives == [] then {} else Marks(gives[..|gives| - 1]) + gives[|gives| - 1].0
  }

  function Sum(gives: seq<(set<nat>, int)>): int {
    if gives == [] then 0 else Sum(gives[..|gives| - 1]) + gives[|gives| - 1].1
  }

  // Its marks are all of theirs and its score the sum.
  ghost predicate GroupGives(group: seq<Term>, cs: seq<Ud>, fold: bool, marks: set<nat>, value: int) {
    exists gives :: EachGives(group, cs, fold, gives) && marks == Marks(gives) && value == Sum(gives)
  }

  lemma GroupGivesOne(group: seq<Term>, cs: seq<Ud>, fold: bool, marks: set<nat>, value: int, marks2: set<nat>, value2: int)
    requires GroupGives(group, cs, fold, marks, value) && GroupGives(group, cs, fold, marks2, value2)
    ensures marks == marks2 && value == value2
  {
    hide TermGives;
    var a: seq<(set<nat>, int)> :| EachGives(group, cs, fold, a) && marks == Marks(a) && value == Sum(a);
    var b: seq<(set<nat>, int)> :| EachGives(group, cs, fold, b) && marks2 == Marks(b) && value2 == Sum(b);
    forall i | 0 <= i < |group|
      ensures a[i] == b[i]
    {
      TermGivesOne(group[i], cs, fold, a[i].0, a[i].1, b[i].0, b[i].1);
    }
    assert a == b;
  }

  method MatchGroup(group: seq<Term>, cs: seq<Ud>, fold: bool, matched: array<bool>) returns (ok: bool, score: int, ghost marks: set<nat>)
    requires matched.Length == |cs|
    requires forall i :: 0 <= i < |group| && group[i].Term? && group[i].inverse ==> group[i].exact
    modifies matched
    ensures ok <==> GroupMatches(group, cs, fold)
    ensures ok ==> GroupGives(group, cs, fold, marks, score)
    ensures ok ==> forall k :: 0 <= k < |cs| ==> matched[k] == (old(matched[k]) || k in marks)
  {
    hide TermGives, TermMatches, GroupGives;
    score, marks := 0, {};
    var i := 0;
    NoTerms(cs, fold);
    while i < |group|
      invariant 0 <= i <= |group|
      invariant forall j :: 0 <= j < i ==> TermMatches(group[j], cs, fold)
      invariant GroupGives(group[..i], cs, fold, marks, score)
      invariant forall k :: 0 <= k < |cs| ==> matched[k] == (old(matched[k]) || k in marks)
    {
      if group[i].Bad? {
        BadTerm(group[i], cs, fold);
        return false, 0, {};
      }
      ghost var was := marks;
      var fits, value, more := MatchTerm(group[i], cs, fold, matched);
      if !fits {
        return false, 0, {};
      }
      assert group[..i + 1][..i] == group[..i];
      GroupMore(group[..i + 1], cs, fold, marks, score, more, value);
      score, marks := score + value, marks + more;
      i := i + 1;
    }
    assert group[..i] == group;
    ok := group != [];
  }

  lemma BadTerm(term: Term, cs: seq<Ud>, fold: bool)
    requires term.Bad?
    ensures !TermMatches(term, cs, fold)
  {
  }

  lemma GroupMore(group: seq<Term>, cs: seq<Ud>, fold: bool, m: set<nat>, v: int, m2: set<nat>, v2: int)
    requires group != [] && group[|group| - 1].Term?
    requires GroupGives(group[..|group| - 1], cs, fold, m, v) && TermGives(group[|group| - 1], cs, fold, m2, v2)
    ensures GroupGives(group, cs, fold, m + m2, v + v2)
  {
    hide TermGives;
    var a: seq<(set<nat>, int)> :| EachGives(group[..|group| - 1], cs, fold, a) && m == Marks(a) && v == Sum(a);
    var b := a + [(m2, v2)];
    assert b[..|b| - 1] == a;
    assert EachGives(group, cs, fold, b);
  }

  lemma NoTerms(cs: seq<Ud>, fold: bool)
    ensures GroupGives([], cs, fold, {}, 0)
  {
    assert EachGives([], cs, fold, []);
  }

  // The group of a pattern that counts: the first of those that match with the best score.
  ghost predicate BestGroup(pattern: seq<seq<Term>>, cs: seq<Ud>, fold: bool, g: nat, marks: set<nat>, score: int) {
    && g < |pattern| && GroupMatches(pattern[g], cs, fold) && GroupGives(pattern[g], cs, fold, marks, score)
    && (forall h, m: set<nat>, v ::
          0 <= h < |pattern| && GroupMatches(pattern[h], cs, fold) && GroupGives(pattern[h], cs, fold, m, v) ==>
            v < score || (v == score && g <= h))
  }

  // A text matches a pattern when some group does.
  method MatchPattern(pattern: seq<seq<Term>>, cs: seq<Ud>, fold: bool, best: array<bool>) returns (found: bool, score: int, ghost marks: set<nat>)
    requires best.Length == |cs|
    requires forall g, i :: 0 <= g < |pattern| && 0 <= i < |pattern[g]| && pattern[g][i].Term? && pattern[g][i].inverse ==>
      pattern[g][i].exact
    modifies best
    ensures found <==> exists g :: 0 <= g < |pattern| && GroupMatches(pattern[g], cs, fold)
    ensures found ==> exists g :: BestGroup(pattern, cs, fold, g, marks, score)
    ensures found ==> forall k :: 0 <= k < |cs| ==> best[k] == (k in marks)
  {
    hide GroupMatches, GroupGives;
    found, score, marks := false, 0, {};
    ghost var at := 0;
    var g := 0;
    while g < |pattern|
      invariant 0 <= g <= |pattern|
      invariant found ==> at < g && GroupMatches(pattern[at], cs, fold) && GroupGives(pattern[at], cs, fold, marks, score)
      invariant found ==> forall k :: 0 <= k < |cs| ==> best[k] == (k in marks)
      invariant forall h, m: set<nat>, v ::
        0 <= h < g && GroupMatches(pattern[h], cs, fold) && GroupGives(pattern[h], cs, fold, m, v) ==>
          found && (v < score || (v == score && at <= h))
      invariant forall h :: 0 <= h < g && GroupMatches(pattern[h], cs, fold) ==> found
    {
      var matched := new bool[|cs|](_ => false);
      var fits, value, more := MatchGroup(pattern[g], cs, fold, matched);
      if fits {
        forall m: set<nat>, v | GroupGives(pattern[g], cs, fold, m, v)
          ensures v == value
        {
          GroupGivesOne(pattern[g], cs, fold, m, v, more, value);
        }
        if !found || value > score {
          found, score, marks, at := true, value, more, g;
          CopyMarks(matched, best);
        }
      }
      g := g + 1;
    }
    if found {
      assert BestGroup(pattern, cs, fold, at, marks, score);
    }
  }

  method CopyMarks(from: array<bool>, to: array<bool>)
    requires from.Length == to.Length && from != to
    modifies to
    ensures to[..] == from[..]
  {
    var i := 0;
    while i < from.Length
      invariant 0 <= i <= from.Length && to[..i] == from[..i]
    {
      to[i] := from[i];
      i := i + 1;
    }
  }
}

// What each operation on a control client does, pane by pane and line by line: what a line, a guard and a
// notification write or queue; when a pane is too old; what turning a pane on or off, pausing, continuing and
// resetting it leave; what a turn of the write callback takes; and that a pane off or paused stays silent.

module ControlEffects {
  import opened GridCell
  import opened Control
  import opened ControlQueues
  import opened ControlInvariants
  import opened ControlLines
  import opened ControlPanes
  import opened ControlWrites
  import opened ControlCallback
  import opened ControlRuns

  // ----- Numbers and limits -----

  function Value(text: string): int {
    if text == [] then 0 else 10 * Value(text[..|text| - 1]) + (text[|text| - 1] as int - '0' as int)
  }

  // A number is written in decimal digits, without leading zeros.
  lemma {:induction false} DecimalValue(n: nat)
    ensures Value(Decimal(n)) == n && Decimal(n) != []
    ensures forall i :: 0 <= i < |Decimal(n)| ==> '0' <= Decimal(n)[i] <= '9'
    ensures n > 0 ==> Decimal(n)[0] != '0'
  {
    hide Value;
    DigitValue(n % 10);
    if n < 10 {
      ValuePush([], DIGITS[n]);
      assert [] + [DIGITS[n]] == [DIGITS[n]];
    } else {
      DecimalValue(n / 10);
      ValuePush(Decimal(n / 10), DIGITS[n % 10]);
    }
  }

  lemma DigitValue(d: nat)
    requires d < 10
    ensures DIGITS[d] as int == '0' as int + d
  {
  }

  lemma ValuePush(text: string, c: char)
    ensures Value([]) == 0 && Value(text + [c]) == 10 * Value(text) + (c as int - '0' as int)
  {
    assert (text + [c])[..|text|] == text;
  }

  // How much of a pane may be written in one turn: the most of which three times as much for every pending
  // pane still fits in the buffer, but at least 32 bytes.
  lemma LimitMost(s: State, n: nat)
    requires s.pendingCount > 0 && s.length < 8192
    ensures Limit(s) >= 32
    ensures n > 32 ==> (n <= Limit(s) <==> s.length + 3 * n * s.pendingCount <= 8192)
  {
    var space, k := 8192 - s.length, s.pendingCount;
    var limit := space / k / 3;
    assert space / k * k <= space < (space / k + 1) * k;
    if n <= limit {
      assert 3 * n <= space / k;
      Product(3 * n, space / k, k);
    } else {
      assert space / k + 1 <= 3 * n;
      Product(space / k + 1, 3 * n, k);
    }
  }

  lemma Product(a: nat, b: nat, k: nat)
    requires a <= b
    ensures a * k <= b * k
  {
  }

  // ----- Lines -----

  lemma TextsKept(s: State, r: State)
    requires Ordering(s) && Ordering(r) && r.out == s.out && r.log == s.log
    ensures Texts(r.all, r.blocks) == Texts(s.all, s.blocks)
  {
    hide Texts, Lines;
    assert Texts(r.all, r.blocks) == r.log[|Lines(r.out)|..];
    assert Texts(s.all, s.blocks) == s.log[|Lines(s.out)|..];
  }

  // Nothing more is written for a client once it has been killed, and it is killed when its replies come
  // to 64 MiB, its output going if it was not exiting already. Otherwise a line goes straight out if nothing
  // is queued and to the end of the queue if anything is.
  lemma WriteLineEffect(s: State, e: Env, msg: Msg)
    requires Firm(s, e)
    ensures var r, size := WriteLine(s, e, msg), |msg.text| + 1;
      && (s.dead ==> r == s)
      && (!s.dead && s.length + s.replyBytes + size >= 67108864 ==>
            && r.dead && r.exit && r.out == s.out && r.log == s.log && Texts(r.all, r.blocks) == Texts(s.all, s.blocks)
            && (s.exit ==> r.panes == s.panes) && (!s.exit ==> forall p :: p in r.panes ==> r.panes[p].blocks == []))
      && (!s.dead && s.length + s.replyBytes + size < 67108864 ==>
            && r.log == s.log + [Entry(s.next, msg)] && r.panes == s.panes && r.dead == s.dead && r.exit == s.exit
            && (s.all == [] ==> r.all == [] && r.out == s.out + [Line(s.next, msg)] && r.length == s.length + size)
            && (s.all != [] ==> (
                  && r.out == s.out && r.length == s.length && r.all == s.all + [s.next]
                  && r.blocks == s.blocks[s.next := Text(msg, e.now)] && r.replyBytes == s.replyBytes + size)))
  {
    hide Firm, Discard, Texts, WriteLine, LineOut, LineQueued;
    WriteLineCases(s, e, msg);
    LineParts(s, e.now, msg);
    if !s.dead && s.length + s.replyBytes + |msg.text| + 1 >= CONTROL_MAXIMUM_REPLY_BUFFER {
      KillEffect(s, e);
    }
  }

  lemma LineParts(s: State, t: nat, msg: Msg)
    ensures var r, size := LineOut(s, msg), |msg.text| + 1;
      && r.log == s.log + [Entry(s.next, msg)] && r.panes == s.panes && r.dead == s.dead && r.exit == s.exit
      && r.all == s.all && r.out == s.out + [Line(s.next, msg)] && r.length == s.length + size
    ensures var r, size := LineQueued(s, t, msg), |msg.text| + 1;
      && r.log == s.log + [Entry(s.next, msg)] && r.panes == s.panes && r.dead == s.dead && r.exit == s.exit
      && r.out == s.out && r.length == s.length && r.all == s.all + [s.next]
      && r.blocks == s.blocks[s.next := Text(msg, t)] && r.replyBytes == s.replyBytes + size
  {
  }

  lemma KillEffect(s: State, e: Env)
    requires Firm(s, e)
    ensures var r := (if s.exit then s else Discard(s.(exit := true))).(dead := true);
      && r.exit && r.out == s.out && r.log == s.log && Texts(r.all, r.blocks) == Texts(s.all, s.blocks)
      && (s.exit ==> r.panes == s.panes) && (!s.exit ==> forall p :: p in r.panes ==> r.panes[p].blocks == [])
  {
    hide Firm, Discard, Texts, Discarded, Ordering;
    var t := s.(exit := true);
    FirmFlags(s, e, true, s.dead, s.ignoring);
    DiscardFirm(t, e);
    DiscardedLog(t, Discard(t));
    DiscardTexts(t, Discard(t), e);
  }

  lemma DiscardedLog(s: State, r: State)
    requires Discarded(s, r)
    ensures r.out == s.out && r.log == s.log && r.notices == s.notices && r.exit == s.exit && r.raised == s.raised
    ensures r.panes.Keys == s.panes.Keys && r.pending == s.pending && r.ignoring == s.ignoring && r.dead == s.dead
    ensures forall p :: p in s.panes ==> r.panes[p] == s.panes[p].(blocks := r.panes[p].blocks)
  {
    hide Sizes;
  }

  lemma FirmOrdering(s: State, e: Env)
    requires Firm(s, e)
    ensures Ordering(s)
  {
  }

  // Lines deferred while a guard was open are written in order.
  lemma {:induction false} FlushDeferredEffect(s: State, e: Env)
    requires Firm(s, e)
    ensures var r := FlushDeferred(s, e);
      && Firm(r, e) && Milder(s, r) && r.deferred == []
      && (!r.dead ==> (
           && |r.log| == |s.log| + |s.deferred| && r.log[..|s.log|] == s.log
           && forall i :: 0 <= i < |s.deferred| ==> r.log[|s.log| + i].msg == s.deferred[i]))
    decreases |s.deferred|
  {
    hide Firm, WriteLine, Milder;
    if s.deferred == [] {
      MilderSame(s);
    } else {
      var s1 := s.(deferred := s.deferred[1..]);
      var s2 := WriteLine(s1, e, s.deferred[0]);
      FirmDeferred(s, e, s.deferred[1..], s.notices, s.depth);
      WriteLineKeeps(s1, e, s.deferred[0]);
      FlushDeferredEffect(s2, e);
      var r := FlushDeferred(s2, e);
      MilderDead(s, s2, r);
      if !r.dead {
        assert r.log[|s.log|] == r.log[..|s2.log|][|s.log|] == s2.log[|s.log|];
        assert r.log[..|s.log|] == r.log[..|s2.log|][..|s.log|] == s2.log[..|s.log|] == s.log;
        forall i | 0 <= i < |s.deferred|
          ensures r.log[|s.log| + i].msg == s.deferred[i]
        {
          if i > 0 {
            assert s.deferred[i] == s2.deferred[i - 1];
          }
        }
      }
    }
  }

  // A guard is written whatever is open. The one that closes the outermost lets out all that was deferred,
  // in order, behind it; the others let out nothing.
  lemma WriteGuardEffect(s: State, e: Env, msg: Msg)
    requires Inv(s, e) && (msg.kind == Begin || msg.kind == End)
    ensures var r := WriteGuard(s, e, msg);
      && r.depth == (if msg.kind == Begin then s.depth + 1 else if s.depth > 0 then s.depth - 1 else 0)
      && r.deferred == (if msg.kind == End && s.depth == 1 then [] else s.deferred)
      && (!r.dead ==>
            && |r.log| == |s.log| + 1 + |s.deferred| - |r.deferred|
            && r.log[..|s.log| + 1] == s.log + [Entry(s.next, msg)]
            && (r.deferred != s.deferred ==> forall i :: 0 <= i < |s.deferred| ==> r.log[|s.log| + 1 + i].msg == s.deferred[i]))
  {
    hide Firm, WriteLine, Guards, FlushDeferred, Sizes, Quiet;
    var s1 := if msg.kind == Begin then s.(depth := s.depth + 1) else s;
    FirmDeferred(s, e, s.deferred, s.notices, s1.depth);
    WriteLineKeeps(s1, e, msg);
    var s2 := WriteLine(s1, e, msg);
    if msg.kind == End && s2.depth == 1 {
      var s3 := s2.(depth := 0);
      FirmDeferred(s2, e, s2.deferred, s2.notices, 0);
      FlushDeferredEffect(s3, e);
    }
  }

  // A notification is written at once if no guard is open and is deferred if one is.
  lemma NotifyEffect(s: State, e: Env, msg: Msg)
    requires Firm(s, e)
    ensures var r := NotifyWrite(s, e, msg);
      && r.notices == s.notices + [msg] && r.depth == s.depth && (s.exit ==> r.exit) && r.ignoring == s.ignoring
      && (s.depth > 0 ==> r == s.(notices := s.notices + [msg], deferred := s.deferred + [msg]))
      && (s.depth == 0 && !r.dead ==> r.log == s.log + [Entry(s.next, msg)] && r.deferred == s.deferred)
      && (r.dead == s.dead ==> r.panes == s.panes && r.exit == s.exit)
      && (r.dead && !s.dead ==> r.exit && (!s.exit ==> forall p :: p in r.panes ==> r.panes[p].blocks == []))
  {
    hide Firm, WriteLine, Milder, Texts;
    var s1 := s.(notices := s.notices + [msg]);
    FirmDeferred(s, e, s.deferred, s1.notices, s.depth);
    WriteLineKeeps(s1, e, msg);
    WriteLineEffect(s1, e, msg);
    MilderNotices(s1, WriteLine(s1, e, msg));
  }

  lemma MilderNotices(s: State, r: State)
    requires Milder(s, r)
    ensures r.notices == s.notices && r.depth == s.depth && r.ignoring == s.ignoring
  {
    hide Sizes;
  }

  // ----- Age -----

  // A pane is too old when its first block was queued before now, by the client's pause-after age if it has
  // one and by five minutes if not. It is then paused and its output goes, with a notification; or the client
  // is told to exit and all output goes. Otherwise nothing happens.
  lemma CheckAgeEffect(s: State, e: Env, p: nat)
    requires Firm(s, e) && p in s.panes
    ensures var stop, r, q := CheckAge(s, e, p).0, CheckAge(s, e, p).1, s.panes[p].blocks;
      && (stop <==> q != [] && q[0] in s.blocks && s.blocks[q[0]].t < e.now
                    && e.now - s.blocks[q[0]].t >= if e.pauseAfter then e.pauseAge else 300000)
      && (!stop ==> r == s)
      && (stop && e.pauseAfter ==>
            && p in r.panes && r.panes[p] == s.panes[p].(paused := true, blocks := [])
            && r.notices == s.notices + [Msg(Notice, "%pause %" + Decimal(p))]
            && (r.dead == s.dead ==> r.panes == s.panes[p := r.panes[p]] && r.exit == s.exit))
      && (stop && !e.pauseAfter ==>
            && r.exit && r.notices == s.notices && r.out == s.out && r.panes.Keys == s.panes.Keys
            && (forall d :: d in s.panes ==> r.panes[d] == s.panes[d].(blocks := [])))
  {
    hide Firm, NotifyWrite, DiscardPane, Discard, Discarded, Decimal, Guards, Quiet;
    var t := s.(panes := s.panes[p := s.panes[p].(paused := true)]);
    FirmBlocks(s, e, p);
    PauseEffect(s, e, p);
    FirmFlags(s, e, true, s.dead, s.ignoring);
    DiscardFirm(s.(exit := true), e);
    DiscardedLog(s.(exit := true), Discard(s.(exit := true)));
  }

  lemma FirmBlocks(s: State, e: Env, p: nat)
    requires Firm(s, e) && p in s.panes
    ensures s.panes[p].blocks != [] ==> s.panes[p].blocks[0] in s.blocks
  {
    hide Pendings, Offsets, Ordering, Follows, Replies;
    if s.panes[p].blocks != [] {
      HeadSize(s, p);
    }
  }

  lemma PauseEffect(s: State, e: Env, p: nat)
    requires Firm(s, e) && p in s.panes
    ensures var t := s.(panes := s.panes[p := s.panes[p].(paused := true)]);
      var r := NotifyWrite(DiscardPane(t, p), e, PauseMsg(p));
      && p in r.panes && r.panes[p] == s.panes[p].(paused := true, blocks := [])
      && r.notices == s.notices + [Msg(Notice, "%pause %" + Decimal(p))] && r.ignoring == s.ignoring
      && (r.dead == s.dead ==> r.panes == s.panes[p := r.panes[p]] && r.exit == s.exit)
  {
    hide Firm, NotifyWrite, DiscardPane, Discarded, Decimal, Guards, Quiet;
    var t := s.(panes := s.panes[p := s.panes[p].(paused := true)]);
    PauseFirm(s, e, p);
    PausedOnly(s, e, p);
    var u := DiscardPane(t, p);
    DiscardedLog(t, u);
    NotifyEffect(u, e, PauseMsg(p));
    NotifyPane(u, e, PauseMsg(p), p);
  }

  // The panes of a client that is paused for one of them.
  lemma PausedOnly(s: State, e: Env, p: nat)
    requires Firm(s, e) && p in s.panes
    ensures var t := s.(panes := s.panes[p := s.panes[p].(paused := true)]);
      DiscardPane(t, p).panes == s.panes[p := s.panes[p].(paused := true, blocks := [])]
  {
    hide Firm, DiscardPane, Discarded;
    FlagsFirm(s, e, p, s.panes[p].off, true);
    DiscardPaneFirm(SetFlags(s, p, s.panes[p].off, true), e, p);
  }

  lemma NotifyPane(s: State, e: Env, msg: Msg, p: nat)
    requires Firm(s, e) && p in s.panes && s.panes[p].blocks == []
    ensures var r := NotifyWrite(s, e, msg);
      p in r.panes && r.panes[p] == s.panes[p]
  {
    hide Firm, WriteLine, Sizes;
    var s1 := s.(notices := s.notices + [msg]);
    FirmDeferred(s, e, s.deferred, s1.notices, s.depth);
    WriteLineKeeps(s1, e, msg);
  }

  // ----- Panes -----

  // A pane as it is, or as it is made.
  function PaneOf(s: State, e: Env, p: nat): Pane
    requires p in e.parsed
  {
    if p in s.panes then s.panes[p] else Pane(e.parsed[p], e.parsed[p], false, false, false, [])
  }

  lemma AddPaneEffect(s: State, e: Env, p: nat)
    requires p in e.parsed
    ensures var r := AddPane(s, e, p);
      && r.panes == s.panes[p := PaneOf(s, e, p)] && (p in s.panes ==> r == s)
      && r == s.(panes := r.panes, tree := r.tree, exact := r.exact, mark := r.mark, base := r.base)
  {
    assert p in s.panes ==> s.panes[p := s.panes[p]] == s.panes;
    hide InsertSorted;
    var r := AddPane(s, e, p);
    assert r == s.(panes := r.panes, tree := r.tree, exact := r.exact, mark := r.mark, base := r.base);
  }

  // A pane turned off has nothing queued and starts from where it has got to itself; every other pane and
  // every line is as it was.
  lemma SetPaneOffEffect(s: State, e: Env, p: nat)
    requires Inv(s, e) && p in e.data
    ensures EnvOk(e) && p in e.parsed
    ensures var r, cp, at := SetPaneOff(s, e, p), PaneOf(s, e, p), e.parsed[p];
      && r.panes == s.panes[p := Pane(at, at, true, cp.paused, cp.pending, [])]
      && r.out == s.out && r.log == s.log && r.notices == s.notices && r.exit == s.exit && r.dead == s.dead
      && r.pending == s.pending && Texts(r.all, r.blocks) == Texts(s.all, s.blocks)
      && r.ignoring == s.ignoring && r.raised == s.raised
  {
    hide Firm, Guards, Quiet, AddPane, DiscardPane, Discarded, Texts, Near;
    AddPaneInv(s, e, p);
    AddPaneEffect(s, e, p);
    var s1 := AddPane(s, e, p);
    DiscardPaneFirm(s1, e, p);
    DiscardedLog(s1, DiscardPane(s1, p));
    DiscardTexts(s1, DiscardPane(s1, p), e);
  }

  lemma DiscardTexts(s: State, r: State, e: Env)
    requires Firm(s, e) && Firm(r, e) && Discarded(s, r)
    ensures Texts(r.all, r.blocks) == Texts(s.all, s.blocks)
  {
    hide Firm, Texts, Ordering, Discarded;
    DiscardedLog(s, r);
    FirmOrdering(s, e);
    FirmOrdering(r, e);
    TextsKept(s, r);
  }

  // A pane turned on again starts from where it has got to itself.
  lemma SetPaneOnEffect(s: State, e: Env, p: nat)
    requires p in e.parsed
    ensures var r, at := SetPaneOn(s, e, p), e.parsed[p];
      && (p in s.panes && s.panes[p].off ==>
            && r.panes == s.panes[p := s.panes[p].(offset := at, queued := at, off := false)]
            && r == s.(panes := r.panes, exact := r.exact, mark := r.mark, base := r.base))
      && (p !in s.panes || !s.panes[p].off ==> r == s)
  {
    if p in s.panes && s.panes[p].off {
      var r := SetPaneOn(s, e, p);
      assert r == s.(panes := r.panes, exact := r.exact, mark := r.mark, base := r.base);
    }
  }

  // A pane paused has nothing queued, and the client is told; one already paused is left alone. Its
  // offsets are as they were.
  lemma PausePaneEffect(s: State, e: Env, p: nat)
    requires Inv(s, e) && p in e.data
    ensures EnvOk(e) && p in e.parsed
    ensures var r, cp := PausePane(s, e, p), PaneOf(s, e, p);
      && (cp.paused ==> r == s)
      && (!cp.paused ==>
            && p in r.panes && r.panes[p] == cp.(paused := true, blocks := []) && r.ignoring == s.ignoring
            && r.notices == s.notices + [Msg(Notice, "%pause %" + Decimal(p))]
            && (r.dead == s.dead ==> r.panes == s.panes[p := r.panes[p]] && r.exit == s.exit))
  {
    hide Firm, Guards, Quiet, NotifyWrite, AddPane, DiscardPane, Discarded, Decimal;
    AddPaneInv(s, e, p);
    AddPaneEffect(s, e, p);
    var s1 := AddPane(s, e, p);
    if !s1.panes[p].paused {
      PauseEffect(s1, e, p);
    }
  }

  // A paused pane continued starts from where it has got to itself, and the client is told.
  lemma ContinuePaneEffect(s: State, e: Env, p: nat)
    requires Inv(s, e) && p in e.data
    ensures EnvOk(e) && p in e.parsed
    ensures var r, at := ContinuePane(s, e, p), e.parsed[p];
      && (p in s.panes && s.panes[p].paused ==>
            && p in r.panes && r.panes[p] == s.panes[p].(offset := at, queued := at, paused := false)
            && r.ignoring == s.ignoring && r.notices == s.notices + [Msg(Notice, "%continue %" + Decimal(p))]
            && (r.dead == s.dead ==> r.panes == s.panes[p := r.panes[p]] && r.exit == s.exit))
      && (p !in s.panes || !s.panes[p].paused ==> r == s)
  {
    hide Firm, Guards, NotifyWrite, AddPane, Decimal;
    AddPaneInv(s, e, p);
    if p in s.panes && s.panes[p].paused {
      RestartKeeps(s, e, p, s.panes[p].off, false);
      var t := Sync(SetFlags(s, p, s.panes[p].off, false), p, e.parsed[p]);
      NotifyEffect(t, e, ContinueMsg(p));
      NotifyPane(t, e, ContinueMsg(p), p);
    }
  }

  // A pane whose data is replaced has nothing queued and starts from where the new data has been parsed to,
  // on or off and paused or not as it was.
  lemma ResetPaneEffect(s: State, e: Env, p: nat)
    requires Firm(s, e) && p in e.parsed
    ensures var r, at := ResetPane(s, e, p), e.parsed[p];
      && (p in s.panes ==>
            && r.panes == s.panes[p := s.panes[p].(offset := at, queued := at, blocks := [])]
            && r.out == s.out && r.log == s.log && r.notices == s.notices && r.pending == s.pending)
      && (p !in s.panes ==> r == s)
  {
    hide Firm, DiscardPane, Sizes;
    if p in s.panes {
      DiscardPaneFirm(s, e, p);
    }
  }

  // Every pane is forgotten with its output; the lines stay queued.
  lemma ResetOffsetsEffect(s: State, e: Env)
    requires Inv(s, e)
    ensures var r := ResetOffsets(s);
      && r.panes == map[] && r.tree == [] && r.pending == [] && r.pendingCount == 0
      && r.out == s.out && r.log == s.log && r.notices == s.notices && r.exit == s.exit
      && Texts(r.all, r.blocks) == Texts(s.all, s.blocks) && (forall b :: b in r.all ==> b in r.blocks && r.blocks[b].Text?)
  {
    hide Firm, Guards, Quiet, Discard, Discarded, Texts, Ordering;
    var d, r := Discard(s), ResetOffsets(s);
    DiscardFirm(s, e);
    DiscardedLog(s, d);
    ResetOffsetsKeeps(s, e, s.ignoring);
    assert r.(ignoring := s.ignoring) == r;
    DiscardTexts(s, d, e);
    OnlyLines(r, e);
  }

  lemma OnlyLines(s: State, e: Env)
    requires Firm(s, e) && s.panes == map[]
    ensures forall b :: b in s.all ==> b in s.blocks && s.blocks[b].Text?
  {
    hide Pendings, Ordering, Follows, Replies, PaneBlocks, Offsets;
    assert forall b :: b in s.all ==> BlockOk(s, b);
  }

  // Exiting discards the output of every pane and no line.
  lemma ExitEffect(s: State, e: Env)
    requires Inv(s, e)
    ensures var r := Exit(s);
      && r.exit && r.raised.suspended == s.raised.suspended && Texts(r.all, r.blocks) == Texts(s.all, s.blocks)
      && r.panes.Keys == s.panes.Keys && forall p :: p in s.panes ==> r.panes[p] == s.panes[p].(blocks := [])
  {
    hide Firm, Guards, Quiet, Discard, Discarded, Texts, Ordering;
    var t := s.(exit := true);
    FirmFlags(s, e, true, s.dead, s.ignoring);
    DiscardFirm(t, e);
    DiscardedLog(t, Discard(t));
    DiscardTexts(t, Discard(t), e);
  }

  // An exit that leaves its output, and a client suspended, unless it is told to exit, or woken, changes
  // nothing but that.
  lemma FlagEffects(s: State)
    ensures Detach(s) == s.(exit := true, raised := Detach(s).raised) && Detach(s).raised.suspended == s.raised.suspended
    ensures Suspend(s) == s.(raised := Suspend(s).raised) && (Suspend(s).raised.suspended <==> s.raised.suspended || !s.exit)
    ensures Wake(s) == s.(raised := Wake(s).raised) && !Wake(s).raised.suspended
  {
    assert s.raised.suspended || s.exit ==> s.(raised := s.raised) == s;
  }

  // ----- Output -----

  // What control_write_output does: nothing for a pane the client does not see; both offsets to the end of
  // the data for one ignored, off or paused; and for any other one block of everything not queued yet, if
  // there is anything, unless the pane is found too old.
  lemma WriteOutputEffect(s: State, e: Env, p: nat)
    requires Inv(s, e) && p in e.data
    ensures EnvOk(e) && p in e.parsed
    ensures var r, cp, end := WriteOutput(s, e, p), PaneOf(s, e, p), |e.data[p]|;
      var ignored := s.ignoring || s.raised.suspended || s.exit;
      var silent := ignored || cp.off || cp.paused;
      && (p !in e.visible || (ignored && p !in s.panes) ==> r == s)
      && (p in e.visible && p in s.panes && silent ==>
            && r == s.(panes := r.panes, exact := r.exact, mark := r.mark, base := r.base)
            && r.panes == s.panes[p := cp.(offset := end, queued := end)])
      && (p in e.visible && !silent && cp.blocks == [] && cp.queued < end ==>
            && Pushed(s, r, e, p, cp) && r.panes[p].blocks == [s.next] && r.panes[p].offset == cp.offset)
      && (p in e.visible && !silent && !CheckAge(AddPane(s, e, p), e, p).0 && cp.queued < end ==> Pushed(s, r, e, p, cp))
      && (p in e.visible && !silent && !CheckAge(AddPane(s, e, p), e, p).0 && cp.queued == end ==>
            r.panes == s.panes[p := cp] && r.blocks == s.blocks && r.all == s.all)
      && (p in e.visible && !silent && CheckAge(AddPane(s, e, p), e, p).0 ==> r == CheckAge(s, e, p).1)
  {
    hide Firm, Guards, Quiet, AddPane, CheckAge, PushOutput, Ignore, Near;
    AddPaneInv(s, e, p);
    AddPaneEffect(s, e, p);
    var s1 := AddPane(s, e, p);
    FirmPane(s1, e, p);
    IgnoreEffect(s1, e, p);
    CheckAgeEffect(s1, e, p);
    if p in e.visible && !OutputIgnored(s) && !s1.panes[p].off && !s1.panes[p].paused && s1.panes[p].queued < |e.data[p]| {
      PushEffect(s1, e, p);
    }
  }

  // r is s with a block for pane p of all it has that is not queued, behind everything else; the pane is
  // pending, behind the others if it was not before.
  ghost predicate Pushed(s: State, r: State, e: Env, p: nat, cp: Pane)
    requires p in e.data
  {
    && p in r.panes && cp.queued <= |e.data[p]|
    && r.blocks == s.blocks[s.next := Output(|e.data[p]| - cp.queued, e.now)] && r.all == s.all + [s.next]
    && r.panes == s.panes[p := cp.(queued := |e.data[p]|, pending := true, blocks := cp.blocks + [s.next])]
    && r.pending == (if cp.pending then s.pending else s.pending + [p])
    && r.pendingCount == (if cp.pending then s.pendingCount else s.pendingCount + 1)
    && r.owner == s.owner[s.next := p] && r.next == s.next + 1
    && r.out == s.out && r.log == s.log && r.notices == s.notices && r.length == s.length
  }

  lemma PushEffect(s: State, e: Env, p: nat)
    requires p in s.panes && p in e.data && s.panes[p].queued <= |e.data[p]|
    ensures Pushed(s, PushOutput(s, e, p), e, p, s.panes[p])
  {
  }

  lemma IgnoreEffect(s: State, e: Env, p: nat)
    requires p in s.panes && p in e.data
    ensures var r, end := Ignore(s, e, p), |e.data[p]|;
      && r == s.(panes := r.panes, exact := r.exact, mark := r.mark, base := r.base)
      && r.panes == s.panes[p := s.panes[p].(offset := end, queued := end)]
  {
    var r := Ignore(s, e, p);
    assert r == s.(panes := r.panes, exact := r.exact, mark := r.mark, base := r.base);
  }

  // ----- Turns -----

  // One turn at a pane that is not too old takes as much of its first block as the limit leaves, from where
  // the pane has been written to. The message starts with the header of the first piece; each piece adds its
  // escaped data; and if the block is finished and a line is waiting behind it, the message goes out with a
  // newline before the line does.
  lemma TurnEffect(r: Run, e: Env, p: nat, limit: nat)
    requires RunOk(r, e, p) && !r.stopped && p in e.data && r.s.panes[p].blocks != [] && r.used < limit
    requires !CheckAge(r.s, Tick(e, r.s), p).0
    ensures var cp, b := r.s.panes[p], r.s.panes[p].blocks[0];
      && b in r.s.blocks && r.s.blocks[b].Output? && var cb := r.s.blocks[b];
      var size := if cb.size < limit - r.used then cb.size else limit - r.used;
      var age := if cb.t < e.now then e.now - cb.t else 0;
      var header := if e.pauseAfter then "%extended-output %" + Decimal(p) + " " + Decimal(age) + " : "
                    else "%output %" + Decimal(p) + " ";
      var r1 := PendingStep(r, e, p, limit);
      && cp.offset + size <= |e.data[p]| && r1.used == r.used + size && !r1.stopped
      && var message := r.message + [Data(p, b, cp.offset, size)];
      var bytes := (if r.message == [] then |header| else r.bytes) + |Escape(e.data[p][cp.offset..cp.offset + size])|;
      && (r1.message != [] ==>
            r1.message == message && r1.bytes == bytes && r1.s.out == r.s.out && r1.s.length == r.s.length)
      && (r1.message == [] ==>
            && size == cb.size && r.s.out + message <= r1.s.out && r.s.length + bytes + 1 <= r1.s.length
            && forall i :: |r.s.out + message| <= i < |r1.s.out| ==> r1.s.out[i].Line?)
  {
    hide Firm, CheckAge, Guards, Sizes, Take, Quiet, Marked, MessageOf, Escape, Decimal, FlushAll, PendingStep, Push;
    EnoughData(Whole(r.s, r.message), e, p);
    CheckAgeMid(r.s, r.message, Tick(e, r.s), p) by { FirmTick(Whole(r.s, r.message), e, Tick(e, r.s).now); }
    var b := r.s.panes[p].blocks[0];
    var size := TurnSize(r, b, limit);
    TakeMid(r.s, r.message, e, p, size);
    var s1 := Take(r.s, p, size);
    TakenParts(r.s, s1, p, size);
    var message := r.message + [Data(p, b, r.s.panes[p].offset, size)];
    var bytes := TurnBytes(r, e, p, b, r.s.panes[p].offset, size);
    StepIsTurn(r, e, p, limit);
    PushedFirm(s1, e, message, bytes);
    var w := Push(s1, message, bytes);
    FlushAllKeeps(w, e);
    FlushedParts(w, FlushAll(w));
  }

  lemma StepIsTurn(r: Run, e: Env, p: nat, limit: nat)
    requires p in e.data && p in r.s.panes && r.s.panes[p].blocks != [] && r.used < limit
    requires CheckAge(r.s, Tick(e, r.s), p) == (false, r.s)
    requires var b := r.s.panes[p].blocks[0];
      b in r.s.blocks && r.s.blocks[b].Output? && r.s.panes[p].offset + TurnSize(r, b, limit) <= |e.data[p]|
    ensures var b, offset := r.s.panes[p].blocks[0], r.s.panes[p].offset;
      var size := TurnSize(r, b, limit);
      PendingStep(r, e, p, limit) ==
        TurnEnd(Take(r.s, p, size), r.message + [Data(p, b, offset, size)], TurnBytes(r, e, p, b, offset, size),
                r.used + size, size == r.s.blocks[b].size)
  {
    hide CheckAge, Take, Escape, Decimal, FlushAll, Push, Sizes;
  }

  lemma TakenParts(s: State, r: State, p: nat, size: nat)
    requires Taken(s, r, p, size)
    ensures r.length == s.length
  {
    hide Sizes;
  }

  lemma PushedFirm(s: State, e: Env, message: seq<Item>, bytes: nat)
    requires Firm(Whole(s, message), e) && message != []
    ensures var w := Push(s, message, bytes);
      Firm(w, e) && w.out == s.out + message && w.length == s.length + bytes + 1
  {
    hide Firm;
    FirmLength(Whole(s, message), e, s.length + bytes + 1);
  }

  lemma FlushedParts(s: State, r: State)
    requires Flushed(s, r)
    ensures r.panes == s.panes
    ensures s.out <= r.out && s.length <= r.length && forall i :: |s.out| <= i < |r.out| ==> r.out[i].Line?
  {
    hide Lines, Texts, Sizes;
  }

  // A pane whose turn it is is no longer pending exactly if it has nothing left, and if it has anything
  // left it has used all of its limit.
  lemma RoundTurn(s: State, e: Env, limit: nat, p: nat)
    requires Inv(s, e) && limit > 0 && p in s.pending && s.length < 8192
    ensures var r := Round(s, e, limit, [p]);
      && Inv(r, e) && p in r.panes
      && (forall x :: x in r.pending <==> x in s.pending && (x != p || r.panes[p].blocks != []))
      && (r.panes[p].blocks != [] ==> Sizes(r.all, r.blocks) + limit <= Sizes(s.all, s.blocks))
  {
    hide Firm, Quiet, Guards, WritePending, RemovePending, Sizes, Pendings;
    PendingData(s, e);
    WritePendingKeeps(s, e, p, limit);
    var (more, s1) := WritePending(s, e, p, limit);
    assert [p][1..] == [];
    if !more {
      UnpendKeeps(s1, e, p);
      UnpendPane(s1, p);
    }
  }

  lemma UnpendPane(s: State, p: nat)
    requires p in s.panes
    ensures p in RemovePending(s, p).panes && RemovePending(s, p).panes[p].blocks == s.panes[p].blocks
  {
    hide Without;
  }

  lemma NotifyOut(s: State, e: Env, msg: Msg)
    ensures var r := NotifyWrite(s, e, msg);
      s.out <= r.out && forall i :: |s.out| <= i < |r.out| ==> r.out[i].Line?
  {
    hide WriteLine;
    WriteLineOut(s.(notices := s.notices + [msg]), e, msg);
  }

  lemma WriteLineOut(s: State, e: Env, msg: Msg)
    ensures WriteLine(s, e, msg).out == s.out || WriteLine(s, e, msg).out == s.out + [Line(s.next, msg)]
  {
    hide WriteLine, LineOut, LineQueued, Discard;
    WriteLineCases(s, e, msg);
    LineParts(s, e.now, msg);
    KillOut(s);
  }

  lemma KillOut(s: State)
    ensures (if s.exit then s else Discard(s.(exit := true))).(dead := true).out == s.out
  {
    hide Discard;
    DiscardOut(s.(exit := true));
  }

  // A turn that finds its pane too old writes nothing of it: the message in hand is dropped with the output.
  lemma TurnStopped(r: Run, e: Env, p: nat, limit: nat)
    requires RunOk(r, e, p) && !r.stopped && p in e.data && r.s.panes[p].blocks != [] && r.used < limit
    requires CheckAge(r.s, Tick(e, r.s), p).0
    ensures var r1 := PendingStep(r, e, p, limit);
      && r1.stopped && r1.message == [] && r1.used == r.used
      && r.s.out <= r1.s.out && forall i :: |r.s.out| <= i < |r1.s.out| ==> r1.s.out[i].Line?
  {
    hide Firm, NotifyWrite, DiscardPane, Discard, Take, Escape, Decimal, FlushAll, Push, Sizes, Guards, Quiet, Marked, MessageOf;
    var t := r.s.(panes := r.s.panes[p := r.s.panes[p].(paused := true)]);
    DiscardOut(t);
    NotifyOut(DiscardPane(t, p), Tick(e, r.s), PauseMsg(p));
    DiscardOut(r.s.(exit := true));
  }

  // A pane that is gone has nothing left queued and none of it is written; the lines behind it are.
  lemma GoneEffect(s: State, e: Env, p: nat, limit: nat)
    requires Inv(s, e) && p in s.panes && p in e.data && p !in e.visible
    ensures var more, r := WritePending(s, e, p, limit).0, WritePending(s, e, p, limit).1;
      && !more && r.panes == s.panes[p := s.panes[p].(blocks := [])] && !HeadIsText(r)
      && s.out <= r.out && forall i :: |s.out| <= i < |r.out| ==> r.out[i].Line?
  {
    hide Firm, DiscardPane, FlushAll, Discarded, Guards, Quiet, Flushed;
    var d := DiscardPane(s, p);
    DiscardPaneFirm(s, e, p);
    DiscardedLog(s, d);
    FlushAllKeeps(d, e);
    FlushedParts(d, FlushAll(d));
  }

  // Nothing is written but lines while the buffer is as full as it may be. While it is not, passes are made
  // over the panes then pending, each pane having the most it may write as the pass starts.
  lemma CallbackPasses(s: State, e: Env)
    requires Inv(s, e)
    ensures WriteCallback(s, e) == Rounds(FlushAll(s), e)
    ensures s.length >= 8192 ==> Rounds(s, e) == s && WriteCallback(s, e) == FlushAll(s)
    ensures forall limit, list :: s.length >= 8192 ==> Round(s, e, limit, list) == s
    ensures s.length < 8192 && s.pending != [] ==> Rounds(s, e) == Rounds(Round(s, e, Limit(s), s.pending), e)
    ensures s.length < 8192 && s.pending == [] ==> Rounds(s, e) == s
  {
    hide Firm, Guards, Quiet, FlushAll, Round, Work, Limit, Flushed, Rounds;
    FlushAllKeeps(s, e);
    FlushedParts(s, FlushAll(s));
    PendingData(s, e);
    RoundsFull(s, e);
    RoundsFull(FlushAll(s), e);
    if s.length < 8192 && s.pending != [] {
      LimitPositive(s);
      RoundKeeps(s, e, Limit(s), s.pending);
      RoundsOnce(s, e);
    }
    forall limit, list | s.length >= 8192
      ensures Round(s, e, limit, list) == s
    {
      RoundFull(s, e, limit, list);
    }
  }

  lemma RoundsFull(s: State, e: Env)
    ensures s.length >= 8192 || s.pendingCount == 0 ==> Rounds(s, e) == s
  {
  }

  lemma RoundFull(s: State, e: Env, limit: nat, list: seq<nat>)
    requires s.length >= 8192
    ensures Round(s, e, limit, list) == s
  {
  }

  lemma RoundsOnce(s: State, e: Env)
    requires s.length < 8192 && s.pendingCount != 0 && !s.fatal
    requires Work(Round(s, e, Limit(s), s.pending)) < Work(s)
    ensures Rounds(s, e) == Rounds(Round(s, e, Limit(s), s.pending), e)
  {
    hide Round, Work, Limit;
  }

  // The panes of a pass have their turns one after another, in order.
  lemma {:induction false} RoundInOrder(s: State, e: Env, limit: nat, a: seq<nat>, b: seq<nat>)
    requires Inv(s, e) && limit > 0 && Distinct(a + b) && forall p :: p in a + b ==> p in s.pending
    ensures Round(s, e, limit, a + b) == Round(Round(s, e, limit, a), e, limit, b)
    decreases |a|
  {
    hide Firm, Quiet, Guards, WritePending, RemovePending, Sizes;
    PendingData(s, e);
    if a == [] {
      assert a + b == b;
    } else {
      assert (a + b)[0] == a[0] && (a + b)[1..] == a[1..] + b;
      assert a[0] in a + b;
      if s.length >= CONTROL_BUFFER_HIGH {
        assert Round(s, e, limit, b) == s;
      } else {
        var p := a[0];
        WritePendingKeeps(s, e, p, limit);
        var (more, s1) := WritePending(s, e, p, limit);
        assert forall q :: q in a[1..] + b ==> q in a + b && q != p by {
          assert forall i :: 0 <= i < |a[1..] + b| ==> (a[1..] + b)[i] == (a + b)[i + 1];
        }
        if more {
          RoundInOrder(s1, e, limit, a[1..], b);
        } else {
          UnpendKeeps(s1, e, p);
          RoundInOrder(RemovePending(s1, p), e, limit, a[1..], b);
        }
      }
    }
  }

  // ----- Panes that are off or paused -----

  // Whether anything has been queued for a pane: a block is made for it.
  ghost predicate NothingMade(s: State, r: State, p: nat) {
    forall b :: b in r.owner && r.owner[b] == p ==> b in s.owner && s.owner[b] == p
  }

  ghost predicate Silent(s: State, p: nat) {
    p in s.panes && (s.panes[p].off || s.panes[p].paused)
  }

  lemma KeptSilent(s: State, r: State, p: nat)
    requires Kept(s, r) && p in s.panes
    ensures p in r.panes && r.panes[p].off == s.panes[p].off && (s.panes[p].paused ==> r.panes[p].paused)
    ensures NothingMade(s, r, p)
  {
  }

  // Only turning it on again, continuing it or forgetting all panes ends a pane's silence, and until then
  // nothing is made for it.
  lemma StepSilent(s: State, e: Env, x: Event, p: nat)
    requires Inv(s, e) && Possible(e, x) && Silent(s, p) && !x.op.Ignored?
    ensures x.op.PaneWrote? || x.op.TurnedOn? || x.op.TurnedOff? || x.op.Continued? || x.op.Paused? || x.op.Replaced? ==>
      x.op.p in x.env.data && x.op.p in x.env.parsed
    ensures var r := Step(s, x);
      && p in r.panes && NothingMade(s, r, p)
      && (s.panes[p].off && x.op != TurnedOn(p) ==> r.panes[p].off)
      && (s.panes[p].paused && x.op != Continued(p) ==> r.panes[p].paused)
  {
    hide Inv, Step, Grows, WriteOutput;
    StepKeeps(s, e, x);
    if x.op.PaneWrote? {
      EnvGrowsInv(s, e, x.env);
      OutputSilent(s, x.env, x.op.p, p);
      StepWrote(s, x);
    } else if x.op.Replaced? {
      ReplacedSilent(s, e, x, p);
    } else if x.op.TurnedOn? || x.op.TurnedOff? || x.op.Continued? || x.op.Paused? {
      EnvGrowsInv(s, e, x.env);
      FlagSilent(s, x, p);
    } else {
      RestSilent(s, x, p);
    }
  }

  lemma OutputSilent(s: State, e: Env, d: nat, p: nat)
    requires Inv(s, e) && d in e.data && Silent(s, p)
    ensures d in e.parsed
    ensures var r := WriteOutput(s, e, d);
      && p in r.panes && NothingMade(s, r, p)
      && r.panes[p].off == s.panes[p].off && (s.panes[p].paused ==> r.panes[p].paused)
  {
    hide Inv, CheckAge, AddPane, PushOutput, Ignore, Kept, OutputIgnored;
    AddPaneInv(s, e, d);
    AddPaneEffect(s, e, d);
    var s1 := AddPane(s, e, d);
    CheckAgeHeld(s1, e, d);
    CheckAgeKeeps(s1, e, d);
    KeptSilent(s1, CheckAge(s1, e, d).1, p);
    if d in s.panes {
      IgnoreEffect(s, e, d);
    }
    IgnoreEffect(s1, e, d);
    if !s1.panes[d].off && !s1.panes[d].paused && !CheckAge(s1, e, d).0 && s1.panes[d].queued < |e.data[d]| {
      PushEffect(s1, e, d);
    }
  }

  lemma ReplacedSilent(s: State, e: Env, x: Event, p: nat)
    requires Inv(s, e) && Possible(e, x) && x.op.Replaced? && Silent(s, p)
    ensures x.op.p in x.env.data && x.op.p in x.env.parsed
    ensures var r := Step(s, x);
      && p in r.panes && NothingMade(s, r, p)
      && r.panes[p].off == s.panes[p].off && (s.panes[p].paused ==> r.panes[p].paused)
  {
    hide Firm, Guards, Quiet, ResetPane, Kept;
    var d, f := x.op.p, x.env;
    if d in s.panes {
      DiscardPaneFirm(s, e, d);
      DiscardPaneHeld(s, d);
      ResetOwner(s, f, d);
      KeptSilent(s, DiscardPane(s, d), p);
    } else {
      ResetOwner(s, f, d);
    }
  }

  lemma ResetOwner(s: State, e: Env, d: nat)
    requires d in e.parsed
    ensures var r := ResetPane(s, e, d);
      && (d !in s.panes ==> r == s)
      && (d in s.panes ==> var t := DiscardPane(s, d);
            && r.owner == t.owner && r.panes.Keys == t.panes.Keys
            && forall p :: p in t.panes ==> r.panes[p].off == t.panes[p].off && r.panes[p].paused == t.panes[p].paused)
  {
    hide DiscardPane;
  }

  lemma FlagSilent(s: State, x: Event, p: nat)
    requires x.op.TurnedOn? || x.op.TurnedOff? || x.op.Continued? || x.op.Paused?
    requires Inv(s, x.env) && x.op.p in x.env.data && Silent(s, p)
    ensures x.op.p in x.env.parsed
    ensures var r := Step(s, x);
      && p in r.panes && NothingMade(s, r, p)
      && (s.panes[p].off && x.op != TurnedOn(p) ==> r.panes[p].off)
      && (s.panes[p].paused && x.op != Continued(p) ==> r.panes[p].paused)
  {
    hide Inv, SetPaneOn, SetPaneOff, ContinuePane, PausePane, Texts, Decimal, Silent;
    var e, d := x.env, x.op.p;
    assert p in s.panes by { SilentThere(s, p); }
    ParsedThere(s, e, d);
    match x.op
    case TurnedOn(_) => OnOwner(s, e, d, p);
    case TurnedOff(_) => OffOwner(s, e, d, p);
    case Continued(_) => ContinueOwner(s, e, d, p);
    case Paused(_) => PauseOwner(s, e, d, p);
  }

  lemma SilentThere(s: State, p: nat)
    requires Silent(s, p)
    ensures p in s.panes
  {
  }

  lemma ParsedThere(s: State, e: Env, p: nat)
    requires Inv(s, e) && p in e.data
    ensures EnvOk(e) && p in e.parsed
  {
    hide Firm, Guards, Quiet;
    AddPaneInv(s, e, p);
  }

  lemma OnOwner(s: State, e: Env, d: nat, p: nat)
    requires d in e.parsed && p in s.panes
    ensures var r := SetPaneOn(s, e, d);
      && r.owner == s.owner && p in r.panes && r.panes[p].paused == s.panes[p].paused
      && (p != d ==> r.panes[p].off == s.panes[p].off)
  {
    hide SetPaneOn;
    SetPaneOnEffect(s, e, d);
  }

  lemma OffOwner(s: State, e: Env, d: nat, p: nat)
    requires d in e.parsed && p in s.panes
    ensures var r := SetPaneOff(s, e, d);
      && r.owner == s.owner && p in r.panes && (s.panes[p].off ==> r.panes[p].off)
      && (s.panes[p].paused ==> r.panes[p].paused)
  {
    hide DiscardPane, AddPane;
    AddPaneEffect(s, e, d);
    DiscardPaneHeld(AddPane(s, e, d), d);
  }

  lemma ContinueOwner(s: State, e: Env, d: nat, p: nat)
    requires d in e.parsed && p in s.panes
    ensures var r := ContinuePane(s, e, d);
      && r.owner == s.owner && p in r.panes && r.panes[p].off == s.panes[p].off
      && (p != d && s.panes[p].paused ==> r.panes[p].paused)
  {
    hide NotifyWrite;
    if d in s.panes && s.panes[d].paused {
      NotifyHeld(Sync(s.(panes := s.panes[d := s.panes[d].(paused := false)]), d, e.parsed[d]), e, ContinueMsg(d));
    }
  }

  lemma PauseOwner(s: State, e: Env, d: nat, p: nat)
    requires d in e.parsed && p in s.panes
    ensures var r := PausePane(s, e, d);
      && r.owner == s.owner && p in r.panes
      && r.panes[p].off == s.panes[p].off && (s.panes[p].paused ==> r.panes[p].paused)
  {
    hide DiscardPane, AddPane, NotifyWrite;
    AddPaneEffect(s, e, d);
    var s1 := AddPane(s, e, d);
    var t := s1.(panes := s1.panes[d := s1.panes[d].(paused := true)]);
    DiscardPaneHeld(t, d);
    NotifyHeld(DiscardPane(t, d), e, PauseMsg(d));
  }

  lemma RestSilent(s: State, x: Event, p: nat)
    requires p in s.panes
    requires x.op.Opened? || x.op.Closed? || x.op.Replied? || x.op.Notified? || x.op.Exited? || x.op.Detached?
      || x.op.Suspended? || x.op.Woken? || x.op.Drained? || x.op.Writable?
    ensures var r := Step(s, x);
      && p in r.panes && NothingMade(s, r, p)
      && r.panes[p].off == s.panes[p].off && (s.panes[p].paused ==> r.panes[p].paused)
  {
    hide WriteGuard, WriteLine, NotifyWrite, Discard, DiscardPanes, WriteCallback;
    match x.op
    case Opened(text) => WriteGuardHeld(s, x.env, Msg(Begin, text));
    case Closed(text) => WriteGuardHeld(s, x.env, Msg(End, text));
    case Replied(text) => WriteLineHeld(s, x.env, Msg(Reply, text));
    case Notified(text) => NotifyHeld(s, x.env, Msg(Notice, text));
    case Exited =>
      DiscardPanesHeld(s.(exit := true), s.tree);
      DiscardTreeOf(s.(exit := true));
    case Writable => CallbackHeld(s, x.env);
    case _ =>
  }

  lemma DiscardTreeOf(s: State)
    ensures Discard(s) == DiscardPanes(s, s.tree)
  {
  }

  // Until it is turned on, a pane that is off stays off and nothing is queued for it, whatever any pane
  // writes and whatever else happens. Only setting or clearing the no-output flag, which forgets every pane,
  // is excepted.
  lemma {:induction false} OffRun(s: State, e: Env, run: seq<Event>, p: nat)
    requires Inv(s, e) && PossibleRun(e, run) && Heeded(s, e, run) && p in s.panes && s.panes[p].off
    requires forall i :: 0 <= i < |run| ==> !run[i].op.Ignored? && run[i].op != TurnedOn(p)
    ensures var r := Final(s, e, run);
      p in r.panes && r.panes[p].off && r.panes[p].blocks == [] && NothingMade(s, r, p)
    decreases run
  {
    hide Inv, Possible, Step, Breaks;
    if run == [] {
      SilentEmpty(s, e, p);
    } else {
      var x := run[0];
      assert !x.op.Ignored? && x.op != TurnedOn(p);
      StepSilent(s, e, x, p);
      StepKeeps(s, e, x);
      OffRun(Step(s, x), x.env, run[1..], p);
    }
  }

  // And so for a pane that is paused, until it is continued, even if it is turned off and on.
  lemma {:induction false} PausedRun(s: State, e: Env, run: seq<Event>, p: nat)
    requires Inv(s, e) && PossibleRun(e, run) && Heeded(s, e, run) && p in s.panes && s.panes[p].paused
    requires forall i :: 0 <= i < |run| ==> !run[i].op.Ignored? && run[i].op != Continued(p)
    ensures var r := Final(s, e, run);
      p in r.panes && r.panes[p].paused && r.panes[p].blocks == [] && NothingMade(s, r, p)
    decreases run
  {
    hide Inv, Possible, Step, Breaks;
    if run == [] {
      SilentEmpty(s, e, p);
    } else {
      var x := run[0];
      assert !x.op.Ignored? && x.op != Continued(p);
      StepSilent(s, e, x, p);
      StepKeeps(s, e, x);
      PausedRun(Step(s, x), x.env, run[1..], p);
    }
  }

  lemma SilentEmpty(s: State, e: Env, p: nat)
    requires Inv(s, e) && Silent(s, p)
    ensures s.panes[p].blocks == []
  {
    hide Firm, Guards;
  }

  // Output after a pane has been turned off is ignored, and output after it has been turned on again is queued
  // from where the pane had got to when it was.
  lemma OffThenOn(s: State, e: Env, f: Env, p: nat)
    requires Inv(s, e) && p in e.data && Grows(e, f) && p in f.visible
    requires p !in s.panes || !s.panes[p].paused
    requires !s.ignoring && !s.raised.suspended && !s.exit
    ensures EnvOk(e) && p in e.parsed && p in f.data && p in f.parsed
    ensures var off := SetPaneOff(s, e, p);
      && WriteOutput(off, f, p).blocks == off.blocks && WriteOutput(off, f, p).all == off.all
      && var on := SetPaneOn(off, e, p);
         var r := WriteOutput(on, f, p);
         e.parsed[p] < |f.data[p]| ==>
           && p in r.panes && r.panes[p].blocks == [on.next] && r.panes[p].offset == e.parsed[p]
           && on.next in r.blocks && r.blocks[on.next] == Output(|f.data[p]| - e.parsed[p], f.now)
  {
    hide Inv, WriteOutput, SetPaneOff, SetPaneOn, CheckAge, AddPane, Texts;
    SetPaneOffKeeps(s, e, p);
    SetPaneOffEffect(s, e, p);
    var off := SetPaneOff(s, e, p);
    EnvGrowsInv(off, e, f);
    WriteOutputEffect(off, f, p);
    SetPaneOnKeeps(off, e, p);
    SetPaneOnEffect(off, e, p);
    var on := SetPaneOn(off, e, p);
    EnvGrowsInv(on, e, f);
    WriteOutputEffect(on, f, p);
  }

  // And so for a pane paused and continued, unless what is written for either kills the client.
  lemma PauseThenContinue(s: State, e: Env, f: Env, p: nat)
    requires Inv(s, e) && p in e.data && Grows(e, f) && p in f.visible
    requires p !in s.panes || (!s.panes[p].off && !s.panes[p].paused)
    requires !s.ignoring && !s.raised.suspended
    ensures EnvOk(e) && p in e.parsed && p in f.data && p in f.parsed
    ensures var paused := PausePane(s, e, p);
      && WriteOutput(paused, f, p).blocks == paused.blocks && WriteOutput(paused, f, p).all == paused.all
      && var on := ContinuePane(paused, e, p);
         var r := WriteOutput(on, f, p);
         !on.exit && e.parsed[p] < |f.data[p]| ==>
           && p in r.panes && r.panes[p].blocks == [on.next] && r.panes[p].offset == e.parsed[p]
           && on.next in r.blocks && r.blocks[on.next] == Output(|f.data[p]| - e.parsed[p], f.now)
  {
    hide Inv, WriteOutput, PausePane, ContinuePane, CheckAge, AddPane, Decimal;
    PausePaneKeeps(s, e, p);
    PausePaneEffect(s, e, p);
    PauseHeld(s, e, p);
    var paused := PausePane(s, e, p);
    EnvGrowsInv(paused, e, f);
    WriteOutputEffect(paused, f, p);
    ContinuePaneKeeps(paused, e, p);
    ContinuePaneEffect(paused, e, p);
    ContinueHeld(paused, e, p);
    var on := ContinuePane(paused, e, p);
    EnvGrowsInv(on, e, f);
    WriteOutputEffect(on, f, p);
  }

}

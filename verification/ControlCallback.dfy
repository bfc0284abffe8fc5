// The write callback. A pane's turn builds a message that is written late, or dropped if the pane's output
// is discarded meanwhile; either way the invariant of ControlInvariants holds, and the turn uses some of
// its limit or leaves the pane with nothing queued. So the callback's loops end.

module ControlCallback {
  import opened GridCell
  import opened Control
  import opened ControlQueues
  import opened ControlInvariants
  import opened ControlLines
  import opened ControlPanes
  import opened ControlWrites

  // ----- A message not yet written -----

  function Whole(s: State, message: seq<Item>): State {
    s.(out := s.out + message)
  }

  ghost predicate MessageOf(message: seq<Item>, p: nat) {
    forall i :: 0 <= i < |message| ==> message[i].Data? && message[i].pane == p
  }

  ghost predicate Marked(s: State) {
    forall q :: q in s.exact ==> q in s.mark && s.mark[q] <= |s.out|
  }

  lemma {:induction false} FollowMessage(out: seq<Item>, message: seq<Item>, p: nat, q: nat, mark: nat, at: int)
    requires mark <= |out| && MessageOf(message, p) && q != p
    ensures Follow((out + message)[mark..], q, at) == Follow(out[mark..], q, at)
    decreases |message|
  {
    hide Follow;
    if message == [] {
      assert out + message == out;
    } else {
      var init, last := message[..|message| - 1], message[|message| - 1];
      assert out + message == out + init + [last];
      FollowMessage(out, init, p, q, mark, at);
      FollowLine(out + init, last, q, mark, at);
    }
  }

  lemma {:induction false} NoLines(message: seq<Item>, p: nat)
    requires MessageOf(message, p)
    ensures Lines(message) == []
  {
    if message != [] {
      NoLines(message[..|message| - 1], p);
    }
  }

  lemma DropOrdering(s: State, p: nat, message: seq<Item>)
    requires Ordering(Whole(s, message)) && MessageOf(message, p)
    ensures Ordering(s)
  {
    hide Lines, Texts;
    var w := Whole(s, message);
    LinesConcat(s.out, message);
    NoLines(message, p);
    assert Lines(s.out) + [] == Lines(s.out);
    assert forall i :: 0 <= i < |s.out| ==> w.out[i] == s.out[i];
    assert InOrder(s.out);
  }

  // A message about a pane whose output has been discarded may be dropped.
  lemma DropMessage(s: State, e: Env, p: nat, message: seq<Item>)
    requires Firm(Whole(s, message), e) && MessageOf(message, p) && p !in s.exact && Marked(s)
    ensures Firm(s, e)
  {
    hide Ordering, Follow, PaneBlocks, Sizes, ReplySum, Sorted;
    var w := Whole(s, message);
    QueuesFrame(w, s);
    DropOrdering(s, p, message);
    forall q | q in s.exact
      ensures Follow(s.out[s.mark[q]..], q, s.base[q]) == s.panes[q].offset
    {
      FollowMessage(s.out, message, p, q, s.mark[q], s.base[q]);
    }
    forall q | q in s.panes
      ensures PaneOk(s.panes[q], s.blocks, q in s.exact, |e.data[q]|)
    {
      assert PaneOk(w.panes[q], w.blocks, q in w.exact, |e.data[q]|);
    }
  }

  // Discarding does not look at what has been written.
  lemma FreeBlockOut(s: State, b: nat, out: seq<Item>)
    ensures FreeBlock(s.(out := out), b) == FreeBlock(s, b).(out := out)
  {
    hide Without;
    if b in s.blocks {
      var t := FreeBlock(s, b);
      assert t == s.(blocks := t.blocks, all := t.all, replyBytes := t.replyBytes);
      var w := FreeBlock(s.(out := out), b);
      assert w == s.(blocks := t.blocks, all := t.all, replyBytes := t.replyBytes, out := out);
    }
  }

  lemma FreeBlockPanes(s: State, b: nat)
    ensures FreeBlock(s, b).panes == s.panes
  {
    hide Without;
  }

  lemma PopPaneOut(s: State, p: nat, out: seq<Item>)
    requires p in s.panes && s.panes[p].blocks != []
    ensures PopPane(s.(out := out), p) == PopPane(s, p).(out := out)
  {
    hide FreeBlock;
    var cp := s.panes[p];
    FreeBlockOut(s.(panes := s.panes[p := cp.(blocks := cp.blocks[1..])]), cp.blocks[0], out);
  }

  lemma PopPanePanes(s: State, p: nat)
    requires p in s.panes && s.panes[p].blocks != []
    ensures PopPane(s, p).panes == s.panes[p := s.panes[p].(blocks := s.panes[p].blocks[1..])]
  {
    hide FreeBlock;
    var cp := s.panes[p];
    FreeBlockPanes(s.(panes := s.panes[p := cp.(blocks := cp.blocks[1..])]), cp.blocks[0]);
  }

  lemma {:induction false} PopAllOut(s: State, p: nat, out: seq<Item>)
    requires p in s.panes
    ensures PopAll(s.(out := out), p) == PopAll(s, p).(out := out)
    decreases |s.panes[p].blocks|
  {
    hide PopPane;
    if s.panes[p].blocks != [] {
      PopPaneOut(s, p, out);
      PopPanePanes(s, p);
      PopAllOut(PopPane(s, p), p, out);
    }
  }

  lemma DiscardPaneOut(s: State, p: nat, out: seq<Item>)
    requires p in s.panes
    ensures DiscardPane(s.(out := out), p) == DiscardPane(s, p).(out := out)
  {
    hide PopAll;
    PopAllOut(s.(exact := s.exact - {p}), p, out);
  }

  lemma {:induction false} DiscardPanesOut(s: State, ids: seq<nat>, out: seq<Item>)
    ensures DiscardPanes(s.(out := out), ids) == DiscardPanes(s, ids).(out := out)
    decreases ids
  {
    hide DiscardPane;
    if ids != [] {
      if ids[0] in s.panes {
        var t := DiscardPane(s, ids[0]);
        DiscardPaneOut(s, ids[0], out);
        DiscardPanesOut(t, ids[1..], out);
        assert DiscardPanes(s.(out := out), ids) == DiscardPanes(t.(out := out), ids[1..]);
      } else {
        DiscardPanesOut(s, ids[1..], out);
      }
    }
  }

  lemma DiscardOut(s: State)
    ensures Discard(s).out == s.out && forall p :: p in s.panes ==> DiscardPane(s, p).out == s.out
  {
    hide DiscardPane, DiscardPanes;
    assert s.(out := s.out) == s;
    DiscardPanesOut(s, s.tree, s.out);
    forall p | p in s.panes
      ensures DiscardPane(s, p).out == s.out
    {
      DiscardPaneOut(s, p, s.out);
    }
  }

  // What a turn leaves alone, and that it only takes away.
  ghost predicate Onward(s: State, r: State) {
    && r.panes.Keys == s.panes.Keys && r.pending == s.pending && r.pendingCount == s.pendingCount
    && Sizes(r.all, r.blocks) <= Sizes(s.all, s.blocks)
  }

  lemma OnwardTwice(s: State, r: State, t: State)
    requires Onward(s, r) && Onward(r, t)
    ensures Onward(s, t)
  {
    hide Sizes;
  }

  lemma DiscardedOnward(s: State, r: State)
    requires Discarded(s, r) && Marked(s)
    ensures Onward(s, r) && Marked(r) && r.out == s.out && r.mark == s.mark && r.exit == s.exit
  {
    hide Sizes;
  }

  // A pane found too old with a message in hand: its output has gone, and the message with it.
  lemma PauseMid(s: State, message: seq<Item>, e: Env, p: nat)
    requires Firm(Whole(s, message), e) && Quiet(s) && Guards(s) && Marked(s) && MessageOf(message, p) && p in s.panes
    ensures var t := DiscardPane(s.(panes := s.panes[p := s.panes[p].(paused := true)]), p);
      && Inv(t, e) && p in t.panes && t.panes[p].blocks == [] && Onward(s, t)
  {
    hide Firm, DiscardPane, Guards, Discarded, Sizes;
    var w, t := Whole(s, message), s.(panes := s.panes[p := s.panes[p].(paused := true)]);
    var x := w.(panes := t.panes);
    assert t.(out := w.out) == x;
    var r := DiscardPane(t, p);
    GuardsFrame(s, w);
    PauseFirm(w, e, p);
    DiscardPaneOut(t, p, w.out);
    DiscardOut(t);
    DiscardedOnward(x, DiscardPane(x, p));
    assert DiscardPane(x, p) == Whole(r, message);
    DropMessage(r, e, p, message);
    GuardsFrame(Whole(r, message), r);
  }

  lemma ExitMid(s: State, message: seq<Item>, e: Env, p: nat)
    requires Firm(Whole(s, message), e) && Quiet(s) && Guards(s) && Marked(s) && MessageOf(message, p) && p in s.panes
    ensures var t := Discard(s.(exit := true));
      && Inv(t, e) && p in t.panes && t.panes[p].blocks == [] && Onward(s, t)
  {
    hide Firm, Discard, Guards, Discarded, Onward, Quiet;
    var w := Whole(s, message);
    var x := w.(exit := true);
    assert s.(exit := true).(out := w.out) == x;
    var r := Discard(s.(exit := true));
    FirmFlags(w, e, true, w.dead, w.ignoring);
    DiscardFirm(x, e);
    DiscardPanesOut(s.(exit := true), s.tree, w.out);
    DiscardOut(s.(exit := true));
    DiscardedOnward(x, Discard(x));
    assert Discard(x) == Whole(r, message) by { DiscardTree(x, s.(exit := true), w.out); }
    ExitGuards(s, x, Whole(r, message), r);
    DropMessage(r, e, p, message);
    ExitQuiet(r);
    ExitOnward(s, x, Whole(r, message), r, p);
  }

  lemma DiscardTree(x: State, s: State, out: seq<Item>)
    requires x == s.(out := out)
    requires DiscardPanes(x, s.tree) == DiscardPanes(s, s.tree).(out := out)
    ensures Discard(x) == Discard(s).(out := out)
  {
    hide DiscardPanes;
  }

  lemma ExitQuiet(s: State)
    requires s.exit && forall p :: p in s.panes ==> s.panes[p].blocks == []
    ensures Quiet(s)
  {
  }

  lemma ExitOnward(s: State, x: State, w: State, r: State, p: nat)
    requires Onward(x, w) && x.panes == s.panes && x.pending == s.pending && x.pendingCount == s.pendingCount
    requires x.all == s.all && x.blocks == s.blocks && r == w.(out := r.out) && p in s.panes
    ensures Onward(s, r) && p in r.panes
  {
    hide Sizes;
  }

  lemma ExitGuards(s: State, x: State, w: State, r: State)
    requires Guards(s) && x.log == s.log && x.notices == s.notices && x.deferred == s.deferred && x.depth == s.depth
    requires x.dead == s.dead && Discarded(x, w) && r == w.(out := r.out)
    ensures Guards(r)
  {
    hide Sizes, Guards;
    GuardsFrame(s, r);
  }

  lemma CheckAgeMid(s: State, message: seq<Item>, e: Env, p: nat)
    requires Firm(Whole(s, message), e) && Quiet(s) && Guards(s) && Marked(s) && MessageOf(message, p) && p in s.panes
    ensures var (stop, t) := CheckAge(s, e, p);
      && (!stop ==> t == s)
      && (stop ==> Inv(t, e) && p in t.panes && t.panes[p].blocks == [] && Onward(s, t))
  {
    hide Firm, DiscardPane, Discard, NotifyWrite, Guards, Sizes;
    PauseMid(s, message, e, p);
    ExitMid(s, message, e, p);
    NotifyKeeps(DiscardPane(s.(panes := s.panes[p := s.panes[p].(paused := true)]), p), e, PauseMsg(p));
  }

  // ----- One turn of control_write_pending's loop -----

  ghost predicate RunOk(r: Run, e: Env, p: nat) {
    && Firm(Whole(r.s, r.message), e) && Quiet(r.s) && Guards(r.s) && Marked(r.s)
    && MessageOf(r.message, p) && p in r.s.panes
    && (r.stopped ==> r.message == [] && r.s.panes[p].blocks == [])
  }

  // Every turn either stops, with nothing of the pane left, or uses some of the limit.
  ghost predicate Turned(r: Run, r1: Run, limit: nat) {
    && Onward(r.s, r1.s)
    && Sizes(r1.s.all, r1.s.blocks) + r1.used <= Sizes(r.s.all, r.s.blocks) + r.used
    && (!r1.stopped ==> r.used < r1.used)
    && r.used <= r1.used && (r.used <= limit ==> r1.used <= limit)
  }

  lemma FirmLength(s: State, e: Env, length: nat)
    requires Firm(s, e)
    ensures Firm(s.(length := length), e)
  {
    hide Ordering, Follow, Sizes, ReplySum, Queues;
    var r := s.(length := length);
    QueuesFrame(s, r);
    OrderingFrame(s, r);
    forall q | q in r.panes
      ensures PaneOk(r.panes[q], r.blocks, q in r.exact, |e.data[q]|)
    {
      assert PaneOk(s.panes[q], s.blocks, q in s.exact, |e.data[q]|);
    }
  }

  // The bytes wanted are always there: fatalx is not reached.
  lemma EnoughData(s: State, e: Env, p: nat)
    requires Firm(s, e) && p in s.panes && s.panes[p].blocks != []
    ensures var b := s.panes[p].blocks[0];
      && b in s.blocks && s.blocks[b].Output? && s.blocks[b].size > 0
      && p in e.data && s.panes[p].offset + s.blocks[b].size <= |e.data[p]|
  {
    hide Queues, Sizes, Ordering, Follows, Pendings, Replies;
    HeadSize(s, p);
    SumsHead(s.panes[p].blocks, s.blocks);
    assert PaneOk(s.panes[p], s.blocks, p in s.exact, |e.data[p]|);
  }

  // A piece taken with a message in hand is a piece written, the message being longer by it.
  lemma TakeMid(s: State, message: seq<Item>, e: Env, p: nat, size: nat)
    requires Firm(Whole(s, message), e) && p in s.panes && s.panes[p].blocks != []
    requires var b := s.panes[p].blocks[0]; b in s.blocks && s.blocks[b].Output? && size <= s.blocks[b].size
    ensures var s1 := Take(s, p, size);
      var longer := message + [Data(p, s.panes[p].blocks[0], s.panes[p].offset, size)];
      && Firm(Whole(s1, longer), e) && s1.out == s.out
      && Taken(s, s1, p, size)
  {
    hide Firm, Take, Sizes;
    var w := Whole(s, message);
    TakeFirm(w, e, p, size);
    var item := Data(p, s.panes[p].blocks[0], s.panes[p].offset, size);
    assert s.out + message + [item] == s.out + (message + [item]);
    TakeFrame(s, p, size, w.out + [item]);
    TakeFrame(s, p, size, s.out);
    assert s.(out := s.out) == s;
  }

  function Advanced(s: State, p: nat, size: nat): State
    requires p in s.panes
  {
    s.(panes := s.panes[p := s.panes[p].(offset := s.panes[p].offset + size)])
  }

  lemma TakeAllFrame(s: State, p: nat, size: nat)
    requires p in s.panes && s.panes[p].blocks != []
    requires var b := s.panes[p].blocks[0]; !(b in s.blocks && s.blocks[b].Output? && s.blocks[b].size > size)
    ensures var t := Advanced(s, p, size);
      p in t.panes && t.panes[p].blocks == s.panes[p].blocks && Take(s, p, size) == PopPane(t, p)
  {
    hide PopPane;
  }

  lemma TakeFrame(s: State, p: nat, size: nat, out: seq<Item>)
    requires p in s.panes && s.panes[p].blocks != []
    ensures Take(s.(out := out), p, size) == Take(s, p, size).(out := out)
  {
    hide PopPane, Take, Advanced;
    var b := s.panes[p].blocks[0];
    if b in s.blocks && s.blocks[b].Output? && s.blocks[b].size > size {
      TakePartFrame(s, p, size, out);
    } else {
      TakeAllFrame(s, p, size);
      TakeAllFrame(s.(out := out), p, size);
      PopPaneOut(Advanced(s, p, size), p, out);
      AdvancedOut(s, p, size, out);
    }
  }

  lemma AdvancedOut(s: State, p: nat, size: nat, out: seq<Item>)
    requires p in s.panes
    ensures Advanced(s.(out := out), p, size) == Advanced(s, p, size).(out := out)
  {
    var t := Advanced(s, p, size);
    assert t == s.(panes := t.panes);
  }

  lemma TakePartFrame(s: State, p: nat, size: nat, out: seq<Item>)
    requires p in s.panes && s.panes[p].blocks != []
    requires var b := s.panes[p].blocks[0]; b in s.blocks && s.blocks[b].Output? && s.blocks[b].size > size
    ensures Take(s.(out := out), p, size) == Take(s, p, size).(out := out)
  {
    hide PopPane;
    var cp, b, w := s.panes[p], s.panes[p].blocks[0], s.(out := out);
    var panes := s.panes[p := cp.(offset := cp.offset + size)];
    var blocks := s.blocks[b := Output(s.blocks[b].size - size, s.blocks[b].t)];
    assert Take(s, p, size) == s.(panes := panes, blocks := blocks);
    assert Take(w, p, size) == s.(panes := panes, blocks := blocks, out := out);
  }

  lemma TakenQuiet(s: State, r: State, p: nat, size: nat)
    requires Taken(s, r, p, size) && Quiet(s) && Guards(s)
    ensures Quiet(r) && Guards(r) && Onward(s, r)
  {
    hide Sizes, Guards;
    GuardsFrame(s, r);
    assert s.panes[p].blocks != [];
  }

  // Written out: the message, and then the lines that were waiting for it.
  lemma PushFlush(s: State, e: Env, p: nat, message: seq<Item>, bytes: nat)
    requires Firm(Whole(s, message), e) && Quiet(s) && Guards(s) && p in s.panes && message != []
    ensures var t := FlushAll(Push(s, message, bytes));
      && Inv(t, e) && Marked(t) && p in t.panes && Onward(s, t) && Whole(t, []) == t
  {
    hide Firm, FlushAll, Guards, Texts, Sizes, Lines;
    var w := Push(s, message, bytes);
    FirmLength(Whole(s, message), e, w.length);
    GuardsFrame(s, w);
    FlushAllKeeps(w, e);
    FlushedSound(w, FlushAll(w));
    FirmMarked(FlushAll(w), e);
  }

  lemma FirmMarked(s: State, e: Env)
    requires Firm(s, e)
    ensures Marked(s)
  {
    hide Follow;
  }

  lemma FirmNotFatal(s: State, e: Env)
    requires Firm(s, e)
    ensures !s.fatal
  {
  }

  // A turn that age does not stop: how much it takes, what it comes to, and what follows.
  function TurnSize(r: Run, b: nat, limit: nat): nat
    requires b in r.s.blocks && r.s.blocks[b].Output? && r.used < limit
  {
    if r.s.blocks[b].size > limit - r.used then limit - r.used else r.s.blocks[b].size
  }

  function TurnBytes(r: Run, e: Env, p: nat, b: nat, offset: nat, size: nat): nat
    requires p in e.data && offset + size <= |e.data[p]| && b in r.s.blocks
  {
    var t := r.s.blocks[b].t;
    (if r.message == [] then |Header(e, p, if t < e.now then e.now - t else 0)| else r.bytes)
    + |Escape(e.data[p][offset..offset + size])|
  }

  function TurnEnd(s: State, message: seq<Item>, bytes: nat, used: nat, flush: bool): Run {
    if flush && HeadIsText(s) then Run(FlushAll(Push(s, message, bytes)), used, [], 0, false)
    else Run(s, used, message, bytes, false)
  }

  lemma TurnKeeps(r: Run, e: Env, p: nat, limit: nat, bytes: nat)
    requires RunOk(r, e, p) && !r.stopped && r.s.panes[p].blocks != [] && r.used < limit
    requires var b := r.s.panes[p].blocks[0]; b in r.s.blocks && r.s.blocks[b].Output? && r.s.blocks[b].size > 0
    ensures var b := r.s.panes[p].blocks[0];
      var size := TurnSize(r, b, limit);
      var r1 := TurnEnd(Take(r.s, p, size), r.message + [Data(p, b, r.s.panes[p].offset, size)], bytes,
                        r.used + size, size == r.s.blocks[b].size);
      RunOk(r1, e, p) && Turned(r, r1, limit) && !r1.s.fatal
  {
    hide Firm, FlushAll, Guards, Sizes, Take, Quiet, Push, Marked;
    var s, b := r.s, r.s.panes[p].blocks[0];
    var size := TurnSize(r, b, limit);
    var s1 := Take(s, p, size);
    var message := r.message + [Data(p, b, s.panes[p].offset, size)];
    TakeMid(s, r.message, e, p, size);
    TakenQuiet(s, s1, p, size);
    TakenMarked(s, s1, p, size);
    FirmNotFatal(Whole(s1, message), e);
    if size == s.blocks[b].size && HeadIsText(s1) {
      PushFlush(s1, e, p, message, bytes);
      var t := FlushAll(Push(s1, message, bytes));
      FirmNotFatal(t, e);
      OnwardTwice(s, s1, t);
    }
  }

  lemma TakenMarked(s: State, r: State, p: nat, size: nat)
    requires Taken(s, r, p, size) && Marked(s) && r.out == s.out
    ensures Marked(r)
  {
    hide Sizes;
  }

  // The invariant does not depend on the time.
  lemma FirmTick(s: State, e: Env, now: nat)
    requires Firm(s, e)
    ensures Firm(s, e.(now := now))
  {
    hide Queues, Ordering, Follows, Pendings, Replies;
    forall p | p in s.panes
      ensures PaneOk(s.panes[p], s.blocks, p in s.exact, |e.data[p]|)
    {
    }
  }

  lemma PendingStepKeeps(r: Run, e: Env, p: nat, limit: nat)
    requires RunOk(r, e, p) && !r.stopped && p in e.data && r.s.panes[p].blocks != [] && r.used < limit
    ensures var r1 := PendingStep(r, e, p, limit);
      RunOk(r1, e, p) && Turned(r, r1, limit) && !r1.s.fatal
  {
    hide Firm, CheckAge, Guards, Sizes, Take, Quiet, Marked, MessageOf, Escape, Header, FlushAll, Push;
    var f := Tick(e, r.s);
    FirmTick(Whole(r.s, r.message), e, f.now);
    CheckAgeMid(r.s, r.message, f, p);
    var (stop, s) := CheckAge(r.s, f, p);
    if stop {
      FirmTick(s, f, e.now);
      assert f.(now := e.now) == e;
      FirmNotFatal(s, e);
      FirmMarked(s, e);
      assert Whole(s, []) == s;
      NoMessage(p);
    } else {
      EnoughData(Whole(r.s, r.message), e, p);
      var b := s.panes[p].blocks[0];
      TurnKeeps(r, e, p, limit, TurnBytes(r, e, p, b, s.panes[p].offset, TurnSize(r, b, limit)));
    }
  }

  lemma NoMessage(p: nat)
    ensures MessageOf([], p)
  {
  }

  // ----- control_write_pending -----

  lemma {:induction false} PendingLoopKeeps(r: Run, e: Env, p: nat, limit: nat)
    requires RunOk(r, e, p) && p in e.data && r.used <= limit && !r.s.fatal
    ensures var r1 := PendingLoop(r, e, p, limit);
      && RunOk(r1, e, p) && !r1.s.fatal && Onward(r.s, r1.s)
      && Sizes(r1.s.all, r1.s.blocks) + r1.used <= Sizes(r.s.all, r.s.blocks) + r.used
      && (r1.used == limit || r1.s.panes[p].blocks == [])
    decreases limit - r.used
  {
    hide Firm, Quiet, Guards, Marked, MessageOf, PendingStep, Sizes;
    if !(r.stopped || r.used >= limit || r.s.panes[p].blocks == []) {
      var r1 := PendingStep(r, e, p, limit);
      PendingStepKeeps(r, e, p, limit);
      if r1.used > r.used {
        PendingLoopKeeps(r1, e, p, limit);
        OnwardTwice(r.s, r1.s, PendingLoop(r1, e, p, limit).s);
      }
    }
  }

  // The message in hand at the end goes out.
  lemma PushKeeps(s: State, e: Env, message: seq<Item>, bytes: nat)
    requires Firm(Whole(s, message), e) && Quiet(s) && Guards(s)
    ensures var t := Push(s, message, bytes);
      Inv(t, e) && t.panes == s.panes && Onward(s, t) && t.all == s.all && t.blocks == s.blocks
  {
    hide Firm, Guards, Sizes;
    if message == [] {
      assert Whole(s, message) == s;
    } else {
      FirmLength(Whole(s, message), e, s.length + bytes + 1);
      GuardsFrame(s, Push(s, message, bytes));
    }
  }

  lemma GoneKeeps(s: State, e: Env, p: nat)
    requires Inv(s, e) && p in s.panes
    ensures var t := FlushAll(DiscardPane(s, p));
      Inv(t, e) && p in t.panes && t.panes[p].blocks == [] && Onward(s, t)
  {
    hide Firm, DiscardPane, FlushAll, Guards, Sizes, Texts, Lines;
    var r := DiscardPane(s, p);
    DiscardPaneFirm(s, e, p);
    DiscardedGuards(s, r);
    FlushAllKeeps(r, e);
    FlushedSound(r, FlushAll(r));
  }

  // A pane's turn keeps the invariant; if it says there is more, it has written some.
  lemma WritePendingKeeps(s: State, e: Env, p: nat, limit: nat)
    requires Inv(s, e) && p in s.panes && p in e.data && limit > 0
    ensures var (more, r) := WritePending(s, e, p, limit);
      && Inv(r, e) && p in r.panes && (more <==> r.panes[p].blocks != []) && Onward(s, r)
      && (more ==> Sizes(r.all, r.blocks) + limit <= Sizes(s.all, s.blocks))
  {
    hide Firm, Guards, Marked, MessageOf, Sizes, PendingLoop, FlushAll, DiscardPane, Push, Quiet;
    if p !in e.visible {
      GoneKeeps(s, e, p);
    } else {
      var r := Run(s, 0, [], 0, false);
      assert Whole(s, []) == s;
      FirmMarked(s, e);
      FirmNotFatal(s, e);
      NoMessage(p);
      var f := Enter(e, s);
      FirmTick(s, e, f.now);
      PendingLoopKeeps(r, f, p, limit);
      var r1 := PendingLoop(r, f, p, limit);
      FirmTick(Whole(r1.s, r1.message), f, e.now);
      assert f.(now := e.now) == e;
      PushKeeps(r1.s, e, r1.message, r1.bytes);
      OnwardTwice(s, r1.s, Push(r1.s, r1.message, r1.bytes));
    }
  }

  // ----- control_write_callback -----

  lemma {:induction false} WithoutDistinct(q: seq<nat>, p: nat)
    requires Distinct(q)
    ensures Distinct(Without(q, p)) && forall x :: x in Without(q, p) <==> x in q && x != p
    ensures |Without(q, p)| == |q| - if p in q then 1 else 0
  {
    if q != [] {
      var init, last := q[..|q| - 1], q[|q| - 1];
      assert q == init + [last];
      assert last !in init;
      WithoutDistinct(init, p);
      assert Distinct(Without(init, p) + [last]) by {
        assert last !in Without(init, p);
        assert forall i :: 0 <= i < |Without(init, p)| ==> Without(init, p)[i] in Without(init, p);
      }
    }
  }

  lemma UnpendPendings(s: State, p: nat)
    requires Pendings(s) && p in s.panes && s.panes[p].blocks == [] && p in s.pending
    ensures var r := RemovePending(s, p);
      Pendings(r) && |r.pending| == |s.pending| - 1 && forall x :: x in r.pending <==> x in s.pending && x != p
  {
    hide Without, Distinct;
    WithoutDistinct(s.pending, p);
  }

  lemma UnpendKeeps(s: State, e: Env, p: nat)
    requires Inv(s, e) && p in s.panes && s.panes[p].blocks == [] && p in s.pending
    ensures var r := RemovePending(s, p);
      && Inv(r, e) && |r.pending| == |s.pending| - 1 && (forall x :: x in r.pending <==> x in s.pending && x != p)
      && r.all == s.all && r.blocks == s.blocks
  {
    hide Pendings, Ordering, Follow, Queues, Guards, Offsets, Without, ReplySum;
    var r := RemovePending(s, p);
    UnpendPendings(s, p);
    QueuesFrame(s, r);
    OrderingFrame(s, r);
    GuardsFrame(s, r);
    UnpendOffsets(s, e, p);
  }

  lemma UnpendOffsets(s: State, e: Env, p: nat)
    requires Offsets(s, e) && p in s.panes
    ensures Offsets(RemovePending(s, p), e)
  {
    hide Sizes, Without;
    var r := RemovePending(s, p);
    forall q | q in r.panes
      ensures PaneOk(r.panes[q], r.blocks, q in r.exact, |e.data[q]|)
    {
      assert PaneOk(s.panes[q], s.blocks, q in s.exact, |e.data[q]|);
    }
  }

  lemma PendingData(s: State, e: Env)
    requires Firm(s, e)
    ensures !s.fatal && s.pendingCount == |s.pending| && Distinct(s.pending)
    ensures forall p :: p in s.pending ==> p in s.panes && p in e.data
  {
  }

  // A pass over the pending panes: what is left to do never grows, and shrinks if the first pane has
  // its turn.
  lemma {:induction false} RoundKeeps(s: State, e: Env, limit: nat, list: seq<nat>)
    requires Inv(s, e) && limit > 0 && Distinct(list) && forall p :: p in list ==> p in s.pending
    ensures var r := Round(s, e, limit, list);
      && Inv(r, e) && Work(r) <= Work(s)
      && (list != [] && s.length < CONTROL_BUFFER_HIGH ==> Work(r) < Work(s))
    decreases list
  {
    hide Firm, Quiet, Guards, WritePending, RemovePending, Sizes;
    PendingData(s, e);
    if list != [] && s.length < CONTROL_BUFFER_HIGH {
      var p, rest := list[0], list[1..];
      assert p in list && forall q :: q in rest ==> q in list && q != p;
      WritePendingKeeps(s, e, p, limit);
      var (more, s1) := WritePending(s, e, p, limit);
      if more {
        RoundKeeps(s1, e, limit, rest);
      } else {
        UnpendKeeps(s1, e, p);
        RoundKeeps(RemovePending(s1, p), e, limit, rest);
      }
    }
  }

  lemma {:induction false} RoundsKeeps(s: State, e: Env)
    requires Inv(s, e)
    ensures var r := Rounds(s, e);
      Inv(r, e) && (r.length >= CONTROL_BUFFER_HIGH || (r.pendingCount == 0 && r.pending == []))
    decreases Work(s)
  {
    hide Firm, Quiet, Guards, Round, Work, Limit;
    PendingData(s, e);
    if s.length < CONTROL_BUFFER_HIGH && s.pendingCount != 0 {
      LimitPositive(s);
      RoundKeeps(s, e, Limit(s), s.pending);
      RoundsKeeps(Round(s, e, Limit(s), s.pending), e);
    }
  }

  lemma LimitPositive(s: State)
    ensures Limit(s) >= CONTROL_WRITE_MINIMUM
  {
  }

  lemma NonePending(s: State, e: Env)
    requires Firm(s, e) && s.pending == []
    ensures forall p :: p in s.panes ==>
      s.panes[p].blocks == [] && (p in s.exact ==> s.panes[p].offset == s.panes[p].queued)
  {
    hide Queues, Ordering, Follows, Replies;
    forall p | p in s.panes
      ensures PaneOk(s.panes[p], s.blocks, p in s.exact, |e.data[p]|)
    {
    }
  }

  // The callback ends, with the buffer full enough or everything queued written.
  lemma WriteCallbackKeeps(s: State, e: Env)
    requires Inv(s, e)
    ensures var r := WriteCallback(s, e);
      && Inv(r, e)
      && (r.length >= CONTROL_BUFFER_HIGH
          || (r.pending == []
              && forall p :: p in r.panes ==>
                   r.panes[p].blocks == [] && (p in r.exact ==> r.panes[p].offset == r.panes[p].queued)))
  {
    hide Firm, Quiet, Guards, Rounds, FlushAll, Flushed;
    FlushAllKeeps(s, e);
    FlushedSound(s, FlushAll(s));
    RoundsKeeps(FlushAll(s), e);
    var r := Rounds(FlushAll(s), e);
    if r.length < CONTROL_BUFFER_HIGH {
      NonePending(r, e);
    }
  }

  // ----- What an ignored pane with output queued comes to -----

  // Whether control_write_pending's first check of a pane's age stops it.
  predicate FirstCheck(s: State, e: Env, p: nat)
    requires p in s.panes
  {
    CheckAge(s, Tick(Enter(e, s), s), p).0
  }

  // Ignoring a pane whose output has not been discarded, as happens when a client is suspended or is told
  // to exit without it, makes its next turn ask for data that is not there.
  lemma IgnoredFatal(s: State, e: Env, p: nat, limit: nat)
    requires Firm(s, e) && p in s.panes && s.panes[p].blocks != [] && p in e.visible && limit > 0
    ensures p in e.data
    ensures var t := Ignore(s, e, p);
      !FirstCheck(t, e, p) ==> WritePending(t, e, p, limit).1.fatal
  {
    hide Ordering, Follows, Pendings, Sizes, NotifyWrite, Discard, DiscardPane, Take, Escape, Header, FlushAll, PaneBlocks;
    HeadSize(s, p);
    var t := Ignore(s, e, p);
    if !FirstCheck(t, e, p) {
      var r := Run(t, 0, [], 0, false);
      var f := Enter(e, t);
      var r1 := PendingStep(r, f, p, limit);
      assert r1.s.fatal && r1.used == 0;
      assert PendingLoop(r, f, p, limit) == r1;
    }
  }
}

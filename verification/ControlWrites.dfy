// What is queued for a control client is written: the lines ahead of the first block flushed, and pane
// output taken a piece of a block at a time. Both keep the invariant of ControlInvariants, and say what
// they leave of the queues.

module ControlWrites {
  import opened GridCell
  import opened Control
  import opened ControlQueues
  import opened ControlInvariants
  import opened ControlLines
  import opened ControlPanes

  // ----- Lines at the head of the queue -----

  lemma PopLineQueues(s: State)
    requires Queues(s) && HeadIsText(s)
    ensures Queues(PopLine(s)) && PopLine(s).all == s.all[1..]
  {
    hide PaneBlocks, Sorted, Without;
    var b, r := s.all[0], PopLine(s);
    WithoutHead(s.all);
    SortedTail(s.all);
    forall c | c in r.all
      ensures BlockOk(r, c)
    {
      assert BlockOk(s, c);
    }
    assert BlockOk(s, b);
    forall p | p in s.panes
      ensures s.panes[p].blocks == PaneBlocks(r.all, r.owner, p)
    {
      PaneBlocksMembers(s.all, s.owner, p);
      PaneBlocksWithout(s.all, s.owner, p, b);
      WithoutAbsent(s.panes[p].blocks, b);
    }
  }

  lemma PopLineSums(s: State)
    requires Queues(s) && HeadIsText(s)
    ensures var r, b := PopLine(s), s.all[0];
      && Sizes(r.all, r.blocks) == Sizes(s.all, s.blocks)
      && ReplySum(s.all, s.blocks) == ReplySum(r.all, r.blocks) + |s.blocks[b].msg.text| + 1
      && Texts(s.all, s.blocks) == [Entry(b, s.blocks[b].msg)] + Texts(r.all, r.blocks)
  {
    hide PaneBlocks, Sizes, ReplySum, Texts, BlockOk, Without;
    var b := s.all[0];
    PopLineQueues(s);
    WithoutHead(s.all);
    SortedTail(s.all);
    SumsWithout(s.all, s.blocks, b);
    SumsHead(s.all, s.blocks);
    SumsSame(s.all[1..], s.blocks, s.blocks - {b});
  }

  lemma LinesPush(out: seq<Item>, item: Item)
    ensures Lines(out + [item]) == Lines(out) + if item.Line? then [Entry(item.id, item.msg)] else []
  {
    assert (out + [item])[..|out|] == out;
  }

  lemma InOrderPush(out: seq<Item>, item: Item)
    requires InOrder(out)
    requires forall i :: 0 <= i < |out| && out[i].Line? ==> out[i].id < if item.Line? then item.id else item.block
    ensures InOrder(out + [item])
  {
  }

  // A line with everything ahead of it gone is written.
  lemma OrderingPop(s: State, r: State, id: nat, msg: Msg)
    requires Ordering(s) && r.out == s.out + [Line(id, msg)] && r.log == s.log && r.next == s.next
    requires id in s.all && id < s.next && forall c :: c in r.all ==> id < c && c in s.all
    requires Texts(s.all, s.blocks) == [Entry(id, msg)] + Texts(r.all, r.blocks)
    ensures Ordering(r)
  {
    hide Lines, Texts, InOrder;
    LinesPush(s.out, Line(id, msg));
    InOrderPush(s.out, Line(id, msg));
    assert Lines(s.out) + ([Entry(id, msg)] + Texts(r.all, r.blocks))
           == Lines(s.out) + [Entry(id, msg)] + Texts(r.all, r.blocks);
  }

  lemma PopLineOrdering(s: State)
    requires Queues(s) && Ordering(s) && HeadIsText(s)
    ensures Ordering(PopLine(s))
  {
    hide PaneBlocks, Texts, PopLine, Ordering, BlockOk;
    PopLineEffect(s);
    PopLineQueues(s);
    PopLineSums(s);
    HeadMade(s);
    OrderingPop(s, PopLine(s), s.all[0], s.blocks[s.all[0]].msg);
  }

  lemma HeadMade(s: State)
    requires Queues(s) && s.all != []
    ensures s.all[0] < s.next
  {
    assert BlockOk(s, s.all[0]);
  }

  // What writing a line changes.
  lemma PopLineEffect(s: State)
    requires HeadIsText(s)
    ensures var r, msg := PopLine(s), s.blocks[s.all[0]].msg;
      && r == s.(blocks := r.blocks, all := r.all, replyBytes := r.replyBytes, out := r.out, length := r.length)
      && r.out == s.out + [Line(s.all[0], msg)] && r.length == s.length + |msg.text| + 1
      && r.blocks == s.blocks - {s.all[0]}
      && (s.replyBytes >= |msg.text| + 1 ==> r.replyBytes == s.replyBytes - |msg.text| - 1)
  {
  }

  // The count always covers the line that goes, so the clamp at zero never decides it.
  lemma ReplyCountExact(s: State)
    requires Queues(s) && Replies(s) && HeadIsText(s)
    ensures var size := |s.blocks[s.all[0]].msg.text| + 1;
      size <= s.replyBytes && PopLine(s).replyBytes == s.replyBytes - size && Replies(PopLine(s))
  {
    hide Queues, PopLine, ReplySum;
    PopLineSums(s);
    PopLineEffect(s);
  }

  lemma PopLineFollows(s: State)
    requires Follows(s) && HeadIsText(s)
    ensures Follows(PopLine(s))
  {
    hide Follow, PopLine;
    PopLineEffect(s);
    var item := Line(s.all[0], s.blocks[s.all[0]].msg);
    forall p | p in s.exact
      ensures Follow((s.out + [item])[s.mark[p]..], p, s.base[p]) == s.panes[p].offset
    {
      FollowLine(s.out, item, p, s.mark[p], s.base[p]);
    }
  }

  lemma PopLineOffsets(s: State, e: Env)
    requires Queues(s) && Offsets(s, e) && HeadIsText(s)
    ensures Offsets(PopLine(s), e)
  {
    hide PaneBlocks, Sizes, PopLine, Sorted;
    PopLineEffect(s);
    var r := PopLine(s);
    forall p | p in s.panes
      ensures PaneOk(r.panes[p], r.blocks, p in r.exact, |e.data[p]|)
    {
      assert PaneOk(s.panes[p], s.blocks, p in s.exact, |e.data[p]|);
      PaneBlocksMembers(s.all, s.owner, p);
      assert BlockOk(s, s.all[0]);
      SumsSame(s.panes[p].blocks, s.blocks, r.blocks);
    }
  }

  lemma PopLineFirm(s: State, e: Env)
    requires Firm(s, e) && HeadIsText(s)
    ensures Firm(PopLine(s), e)
  {
    hide Queues, Offsets, Ordering, Follows, PopLine, Texts, ReplySum;
    PopLineEffect(s);
    PopLineQueues(s);
    PopLineSums(s);
    PopLineOrdering(s);
    PopLineFollows(s);
    PopLineOffsets(s, e);
  }

  // r is s with some of the lines at the head of the queue written.
  ghost predicate Flushed(s: State, r: State) {
    && r == s.(blocks := r.blocks, all := r.all, replyBytes := r.replyBytes, out := r.out, length := r.length)
    && s.out <= r.out && Lines(r.out[|s.out|..]) + Texts(r.all, r.blocks) == Texts(s.all, s.blocks)
    && (forall i :: |s.out| <= i < |r.out| ==> r.out[i].Line?)
    && Sizes(r.all, r.blocks) == Sizes(s.all, s.blocks) && s.length <= r.length
  }

  lemma FlushedOnce(s: State, e: Env)
    requires Firm(s, e) && HeadIsText(s)
    ensures Flushed(s, PopLine(s))
  {
    hide Firm, PopLine, Texts, Sizes;
    FirmQueues(s, e);
    PopLineEffect(s);
    PopLineSums(s);
    var r := PopLine(s);
    var item := Line(s.all[0], s.blocks[s.all[0]].msg);
    assert r.out[|s.out|..] == [item] == [] + [item];
    LinesPush([], item);
    assert [] + [Entry(item.id, item.msg)] == [Entry(item.id, item.msg)];
  }

  lemma {:induction false} LinesConcat(a: seq<Item>, b: seq<Item>)
    ensures Lines(a + b) == Lines(a) + Lines(b)
    decreases |b|
  {
    if b == [] {
      assert a + b == a;
    } else {
      var init := b[..|b| - 1];
      assert (a + b)[..|a + b| - 1] == a + init;
      LinesConcat(a, init);
    }
  }

  lemma FlushedTwice(s: State, r: State, t: State)
    requires Flushed(s, r) && Flushed(r, t)
    ensures Flushed(s, t)
  {
    hide Texts, Sizes, Lines;
    assert t.out[|s.out|..] == r.out[|s.out|..] + t.out[|r.out|..];
    LinesConcat(r.out[|s.out|..], t.out[|r.out|..]);
    assert Lines(r.out[|s.out|..]) + (Lines(t.out[|r.out|..]) + Texts(t.all, t.blocks))
           == Lines(t.out[|s.out|..]) + Texts(t.all, t.blocks);
  }

  // control_flush_all_blocks writes the lines ahead of the first %output block and nothing else.
  lemma {:induction false} FlushAllKeeps(s: State, e: Env)
    requires Firm(s, e)
    ensures var r := FlushAll(s);
      Firm(r, e) && Flushed(s, r) && !HeadIsText(r)
    decreases |s.blocks|
  {
    hide Firm, PopLine, Flushed;
    if HeadIsText(s) {
      PopLineEffect(s);
      PopLineFirm(s, e);
      FlushedOnce(s, e);
      FlushAllKeeps(PopLine(s), e);
      FlushedTwice(s, PopLine(s), FlushAll(PopLine(s)));
    } else {
      FlushedNone(s);
    }
  }

  lemma FlushedNone(s: State)
    ensures Flushed(s, s)
  {
    hide Texts, Sizes;
    assert s.out[|s.out|..] == [];
    assert [] + Texts(s.all, s.blocks) == Texts(s.all, s.blocks);
  }

  lemma FlushedSound(s: State, r: State)
    requires Flushed(s, r)
    ensures (Quiet(s) ==> Quiet(r)) && (Guards(s) ==> Guards(r))
  {
    hide Texts, Sizes, Lines, Notices, Depth, NoticesOutside;
  }

  // ----- A piece of a block taken -----

  // A piece of p's first block written, as far as the client queue and the pane are concerned.
  function TakeOut(s: State, p: nat, size: nat): State
    requires p in s.panes && s.panes[p].blocks != []
  {
    Take(s.(out := s.out + [Data(p, s.panes[p].blocks[0], s.panes[p].offset, size)]), p, size)
  }

  lemma DataOrdering(s: State, p: nat, b: nat, from: nat, size: nat)
    requires Ordering(s) && b in s.all && b < s.next
    ensures Ordering(s.(out := s.out + [Data(p, b, from, size)]))
  {
    hide Texts;
    LinesPush(s.out, Data(p, b, from, size));
    assert Lines(s.out) + [] == Lines(s.out);
  }

  lemma DataFollows(s: State, p: nat, b: nat, size: nat)
    requires Follows(s) && p in s.panes
    ensures var cp := s.panes[p];
      Follows(s.(out := s.out + [Data(p, b, cp.offset, size)], panes := s.panes[p := cp.(offset := cp.offset + size)]))
  {
    var cp := s.panes[p];
    var item := Data(p, b, cp.offset, size);
    var r := s.(out := s.out + [item], panes := s.panes[p := cp.(offset := cp.offset + size)]);
    forall q | q in s.exact
      ensures Follow(r.out[s.mark[q]..], q, s.base[q]) == r.panes[q].offset
    {
      var tail := s.out[s.mark[q]..];
      assert r.out[s.mark[q]..] == tail + [item];
      assert (tail + [item])[..|tail|] == tail;
    }
  }

  // The state part way through a piece: offset moved on, block not yet shorter.
  function Moved(s: State, p: nat, size: nat): State
    requires p in s.panes && s.panes[p].blocks != []
  {
    var cp := s.panes[p];
    s.(out := s.out + [Data(p, cp.blocks[0], cp.offset, size)], panes := s.panes[p := cp.(offset := cp.offset + size)])
  }

  lemma MovedQueues(s: State, e: Env, p: nat, size: nat)
    requires Firm(s, e) && p in s.panes && s.panes[p].blocks != []
    ensures var t := Moved(s, p, size);
      Queues(t) && Pendings(t) && Replies(t) && Ordering(t) && Follows(t)
  {
    hide Queues, Ordering, Follows, Offsets, ReplySum;
    var b := s.panes[p].blocks[0];
    PopPaneHead(s, p);
    QueuesFrame(s, Moved(s, p, size));
    DataOrdering(s, p, b, s.panes[p].offset, size);
    DataFollows(s, p, b, size);
    OrderingFrame(s.(out := Moved(s, p, size).out), Moved(s, p, size));
  }

  // What one piece leaves of the other panes and of the state.
  ghost predicate Taken(s: State, r: State, p: nat, size: nat) {
    && p in s.panes && s.panes[p].blocks != []
    && r == s.(blocks := r.blocks, all := r.all, panes := r.panes, out := r.out)
    && r.panes.Keys == s.panes.Keys
    && (forall q :: q in s.panes && q != p ==> r.panes[q] == s.panes[q])
    && r.panes[p] == s.panes[p].(offset := s.panes[p].offset + size, blocks := r.panes[p].blocks)
    && Sizes(r.all, r.blocks) + size == Sizes(s.all, s.blocks)
  }

  // A whole block.
  lemma TakeAllFirm(s: State, e: Env, p: nat)
    requires Firm(s, e) && p in s.panes && s.panes[p].blocks != []
    ensures var b := s.panes[p].blocks[0];
      && b in s.blocks && s.blocks[b].Output? && s.blocks[b].size > 0
      && Firm(PopPane(Moved(s, p, s.blocks[b].size), p), e)
      && Taken(s, PopPane(Moved(s, p, s.blocks[b].size), p), p, s.blocks[b].size)
  {
    hide Pendings, Queues, Ordering, Follows, Sizes, ReplySum, Texts, PopPane, PaneOk;
    FirmQueues(s, e);
    PopPaneHead(s, p);
    var b := s.panes[p].blocks[0];
    HeadSize(s, p);
    var t := Moved(s, p, s.blocks[b].size);
    MovedQueues(s, e, p, s.blocks[b].size);
    PopPaneQueues(t, p);
    PopPaneSums(t, p);
    PopPanePendings(t, p);
    PopPaneOrdering(t, p);
    PopPaneFollows(t, p);
    TakeAllOffsets(s, e, p);
  }

  lemma HeadSize(s: State, p: nat)
    requires Queues(s) && p in s.panes && s.panes[p].blocks != []
    ensures var b := s.panes[p].blocks[0];
      b in s.blocks && s.blocks[b].Output? && s.blocks[b].size > 0 && b < s.next
  {
    hide PaneBlocks, Sorted;
    PopPaneHead(s, p);
    assert BlockOk(s, s.panes[p].blocks[0]);
  }

  lemma PopPaneOrdering(s: State, p: nat)
    requires Queues(s) && Ordering(s) && p in s.panes && s.panes[p].blocks != []
    ensures Ordering(PopPane(s, p))
  {
    hide Queues, PopPane, InOrder, Lines, Texts;
    PopPaneSums(s, p);
  }

  lemma PopPaneFollows(s: State, p: nat)
    requires Queues(s) && Follows(s) && p in s.panes && s.panes[p].blocks != []
    ensures Follows(PopPane(s, p))
  {
    hide Queues, PopPane, Follow;
    PopPaneSums(s, p);
  }

  lemma TakeAllOffsets(s: State, e: Env, p: nat)
    requires Queues(s) && Offsets(s, e) && p in s.panes && s.panes[p].blocks != []
    requires s.panes[p].blocks[0] in s.blocks && s.blocks[s.panes[p].blocks[0]].Output?
    ensures Offsets(PopPane(Moved(s, p, s.blocks[s.panes[p].blocks[0]].size), p), e)
  {
    hide PaneBlocks, Sizes, Sorted, BlockOk, Queues, PopPane;
    var b := s.panes[p].blocks[0];
    var t := Moved(s, p, s.blocks[b].size);
    QueuesFrame(s, t);
    PopPaneQueues(t, p);
    PopPaneSums(t, p);
    var r := PopPane(t, p);
    assert r.blocks == s.blocks - {b} by { PopPaneBlocks(t, p); }
    SumsHead(s.panes[p].blocks, s.blocks);
    forall q | q in s.panes
      ensures PaneOk(r.panes[q], r.blocks, q in r.exact, |e.data[q]|)
    {
      assert PaneOk(s.panes[q], s.blocks, q in s.exact, |e.data[q]|);
      SumsSame(r.panes[q].blocks, s.blocks, r.blocks);
    }
  }

  lemma PopPaneBlocks(s: State, p: nat)
    requires p in s.panes && s.panes[p].blocks != [] && s.panes[p].blocks[0] in s.blocks
    ensures PopPane(s, p).blocks == s.blocks - {s.panes[p].blocks[0]}
  {
  }

  // Part of a block: it becomes shorter by what is written.
  function Shorten(s: State, b: nat, size: nat): State
    requires b in s.blocks && s.blocks[b].Output? && size <= s.blocks[b].size
  {
    s.(blocks := s.blocks[b := Output(s.blocks[b].size - size, s.blocks[b].t)])
  }

  lemma ShortenQueues(s: State, b: nat, size: nat)
    requires Queues(s) && b in s.blocks && s.blocks[b].Output? && size < s.blocks[b].size
    ensures Queues(Shorten(s, b, size))
  {
    hide PaneBlocks, Sorted;
    forall c | c in s.all
      ensures BlockOk(Shorten(s, b, size), c)
    {
      assert BlockOk(s, c);
    }
  }

  lemma ShortenSums(s: State, b: nat, size: nat)
    requires Queues(s) && b in s.blocks && s.blocks[b].Output? && size <= s.blocks[b].size
    ensures var r := Shorten(s, b, size);
      && Sizes(r.all, r.blocks) + size == Sizes(s.all, s.blocks)
      && ReplySum(r.all, r.blocks) == ReplySum(s.all, s.blocks)
      && Texts(r.all, r.blocks) == Texts(s.all, s.blocks)
  {
    hide PaneBlocks, Sizes, ReplySum, Texts;
    SizesResized(s.all, s.blocks, b, s.blocks[b].size - size, s.blocks[b].t);
  }

  lemma TakePartOffsets(s: State, e: Env, p: nat, size: nat)
    requires Queues(s) && Offsets(s, e) && p in s.panes && s.panes[p].blocks != []
    requires var b := s.panes[p].blocks[0]; b in s.blocks && s.blocks[b].Output? && size < s.blocks[b].size
    ensures Offsets(Shorten(Moved(s, p, size), s.panes[p].blocks[0], size), e)
  {
    hide PaneBlocks, Sizes, BlockOk;
    var b := s.panes[p].blocks[0];
    var r := Shorten(Moved(s, p, size), b, size);
    forall q | q in s.panes
      ensures PaneOk(r.panes[q], r.blocks, q in r.exact, |e.data[q]|)
    {
      assert PaneOk(s.panes[q], s.blocks, q in s.exact, |e.data[q]|);
      PaneBlocksMembers(s.all, s.owner, q);
      if q == p {
        SizesResized(s.panes[p].blocks, s.blocks, b, s.blocks[b].size - size, s.blocks[b].t);
      } else {
        PopPaneQueue(s, p, q);
        SumsSame(s.panes[q].blocks, s.blocks, r.blocks);
      }
    }
  }

  lemma TakePartFirm(s: State, e: Env, p: nat, size: nat)
    requires Firm(s, e) && p in s.panes && s.panes[p].blocks != []
    requires var b := s.panes[p].blocks[0]; b in s.blocks && s.blocks[b].Output? && size < s.blocks[b].size
    ensures Firm(Shorten(Moved(s, p, size), s.panes[p].blocks[0], size), e)
    ensures Taken(s, Shorten(Moved(s, p, size), s.panes[p].blocks[0], size), p, size)
  {
    hide Queues, Offsets, InOrder, Follow, Sizes, ReplySum, Texts, Lines;
    var b := s.panes[p].blocks[0];
    var t := Moved(s, p, size);
    MovedQueues(s, e, p, size);
    ShortenQueues(t, b, size);
    ShortenSums(t, b, size);
    TakePartOffsets(s, e, p, size);
  }

  // Writing size bytes of a pane's first block, size no more than it has, keeps everything.
  lemma TakeFirm(s: State, e: Env, p: nat, size: nat)
    requires Firm(s, e) && p in s.panes && s.panes[p].blocks != []
    requires var b := s.panes[p].blocks[0]; b in s.blocks && s.blocks[b].Output? && size <= s.blocks[b].size
    ensures Firm(TakeOut(s, p, size), e) && Taken(s, TakeOut(s, p, size), p, size)
  {
    hide Firm, Taken, PopPane;
    if size == s.blocks[s.panes[p].blocks[0]].size {
      TakeAllFirm(s, e, p);
    } else {
      TakePartFirm(s, e, p, size);
    }
  }
}

// Lines written to a control client: a line keeps the invariant of ControlInvariants whether it is written,
// queued or dropped by a client being killed, and guards keep notifications outside them.

module ControlLines {
  import opened Control
  import opened ControlQueues
  import opened ControlInvariants

  // ----- Writing a line -----

  // A line goes straight out when nothing is queued.
  function LineOut(s: State, msg: Msg): State {
    s.(out := s.out + [Line(s.next, msg)], length := s.length + |msg.text| + 1,
       next := s.next + 1, log := s.log + [Entry(s.next, msg)])
  }

  // Otherwise it is queued behind what is there.
  function LineQueued(s: State, t: nat, msg: Msg): State {
    s.(blocks := s.blocks[s.next := Text(msg, t)], all := s.all + [s.next],
       replyBytes := s.replyBytes + |msg.text| + 1,
       next := s.next + 1, log := s.log + [Entry(s.next, msg)])
  }

  lemma LineOutOrdering(s: State, msg: Msg)
    requires Ordering(s) && s.all == []
    ensures Ordering(LineOut(s, msg))
  {
    var r := LineOut(s, msg);
    assert r.out[..|r.out| - 1] == s.out;
    assert Lines(r.out) == Lines(s.out) + [Entry(s.next, msg)];
    assert Texts(s.all, s.blocks) == [];
    assert Lines(s.out) + [] == Lines(s.out);
    assert Lines(r.out) + [] == Lines(r.out);
  }

  lemma FollowLine(out: seq<Item>, item: Item, p: nat, mark: nat, at: int)
    requires mark <= |out| && (item.Line? || item.pane != p)
    ensures Follow((out + [item])[mark..], p, at) == Follow(out[mark..], p, at)
  {
    assert (out + [item])[mark..] == out[mark..] + [item];
    assert (out[mark..] + [item])[..|out| - mark] == out[mark..];
  }

  lemma LineOutFollows(s: State, msg: Msg)
    requires Follows(s)
    ensures Follows(LineOut(s, msg))
  {
    hide Follow;
    forall p | p in s.exact
      ensures Follow((s.out + [Line(s.next, msg)])[s.mark[p]..], p, s.base[p]) == s.panes[p].offset
    {
      FollowLine(s.out, Line(s.next, msg), p, s.mark[p], s.base[p]);
    }
  }

  lemma LineOutFirm(s: State, e: Env, msg: Msg)
    requires Firm(s, e) && s.all == []
    ensures Firm(LineOut(s, msg), e)
  {
    hide Ordering, Follows, PaneOk;
    LineOutOrdering(s, msg);
    LineOutFollows(s, msg);
  }

  lemma LineQueuedQueues(s: State, t: nat, msg: Msg)
    requires Queues(s)
    ensures Queues(LineQueued(s, t, msg))
  {
    hide PaneBlocks, Sorted;
    var r := LineQueued(s, t, msg);
    assert forall b :: b in s.all ==> BlockOk(s, b);
    SortedPush(s.all, s.next);
    forall p | p in r.panes
      ensures r.panes[p].blocks == PaneBlocks(r.all, r.owner, p)
    {
      PaneBlocksPush(s.all, s.owner, p, s.next);
      assert PaneBlocks(s.all, s.owner, p) + [] == PaneBlocks(s.all, s.owner, p);
    }
  }

  lemma LineQueuedSums(s: State, t: nat, msg: Msg)
    requires Queues(s)
    ensures var r := LineQueued(s, t, msg);
      && Sizes(r.all, r.blocks) == Sizes(s.all, s.blocks)
      && ReplySum(r.all, r.blocks) == ReplySum(s.all, s.blocks) + |msg.text| + 1
      && Texts(r.all, r.blocks) == Texts(s.all, s.blocks) + [Entry(s.next, msg)]
  {
    hide Sizes, ReplySum, Texts, Sorted;
    var r := LineQueued(s, t, msg);
    assert forall b :: b in s.all ==> BlockOk(s, b);
    SumsSame(s.all, s.blocks, r.blocks);
    SumsPush(s.all, r.blocks, s.next);
  }

  lemma LineQueuedOrdering(s: State, t: nat, msg: Msg)
    requires Queues(s) && Ordering(s)
    ensures Ordering(LineQueued(s, t, msg))
  {
    hide Queues, InOrder, Texts, Lines;
    LineQueuedSums(s, t, msg);
    assert Lines(s.out) + (Texts(s.all, s.blocks) + [Entry(s.next, msg)])
           == Lines(s.out) + Texts(s.all, s.blocks) + [Entry(s.next, msg)];
  }

  lemma LineQueuedOffsets(s: State, e: Env, t: nat, msg: Msg)
    requires Queues(s) && Offsets(s, e)
    ensures Offsets(LineQueued(s, t, msg), e)
  {
    hide Sizes, PaneBlocks;
    var r := LineQueued(s, t, msg);
    forall p | p in s.panes
      ensures PaneOk(r.panes[p], r.blocks, p in r.exact, |e.data[p]|)
    {
      assert PaneOk(s.panes[p], s.blocks, p in s.exact, |e.data[p]|);
      PaneBlocksMembers(s.all, s.owner, p);
      assert forall b :: b in s.panes[p].blocks ==> BlockOk(s, b);
      SumsSame(s.panes[p].blocks, s.blocks, r.blocks);
    }
  }

  lemma LineQueuedFirm(s: State, e: Env, t: nat, msg: Msg)
    requires Firm(s, e)
    ensures Firm(LineQueued(s, t, msg), e)
  {
    hide Queues, Ordering, Offsets, ReplySum, Follow;
    LineQueuedQueues(s, t, msg);
    LineQueuedSums(s, t, msg);
    LineQueuedOrdering(s, t, msg);
    LineQueuedOffsets(s, e, t, msg);
  }

  // What writing lines can do: it may discard output, when it kills the client, but leaves the rest.
  ghost predicate Milder(s: State, r: State) {
    && r.panes.Keys == s.panes.Keys && r.exact <= s.exact
    && (forall p :: p in s.panes ==>
          && r.panes[p] == s.panes[p].(blocks := r.panes[p].blocks)
          && (r.panes[p].blocks == s.panes[p].blocks || r.panes[p].blocks == []))
    && r.tree == s.tree && r.pending == s.pending && r.pendingCount == s.pendingCount
    && Sizes(r.all, r.blocks) <= Sizes(s.all, s.blocks)
    && r.depth == s.depth && r.notices == s.notices && r.ignoring == s.ignoring
    && (s.dead ==> r.dead) && s.length <= r.length
  }

  lemma MilderSame(s: State)
    ensures Milder(s, s)
  {
  }

  lemma MilderTwice(s: State, r: State, t: State)
    requires Milder(s, r) && Milder(r, t)
    ensures Milder(s, t)
  {
    hide Sizes;
  }

  // The reply buffer is full: the client is to exit, its output is gone, and nothing more is kept.
  lemma KillFirm(s: State, e: Env)
    requires Firm(s, e)
    ensures var r := (if s.exit then s else Discard(s.(exit := true))).(dead := true);
      && Firm(r, e) && Milder(s, r) && (Quiet(s) ==> Quiet(r)) && r.log == s.log && r.deferred == s.deferred && r.dead
  {
    hide Queues, Pendings, Offsets, Replies, Ordering, Follows, Discard, Sizes;
    FirmFlags(s, e, true, s.dead, s.ignoring);
    DiscardFirm(s.(exit := true), e);
    var t := if s.exit then s else Discard(s.(exit := true));
    FirmFlags(t, e, t.exit, true, t.ignoring);
  }

  lemma FirmFlags(s: State, e: Env, exit: bool, dead: bool, ignoring: bool)
    requires Firm(s, e)
    ensures Firm(s.(exit := exit, dead := dead, ignoring := ignoring), e)
  {
    hide PaneOk, PaneBlocks, Follow, Texts, Lines, Sorted, ReplySum;
    var r := s.(exit := exit, dead := dead, ignoring := ignoring);
    assert forall b :: BlockOk(s, b) <==> BlockOk(r, b);
  }

  // Where a line goes: nowhere, straight out, or onto the queue.
  lemma WriteLineCases(s: State, e: Env, msg: Msg)
    ensures WriteLine(s, e, msg) ==
      if s.dead then s
      else if s.length + s.replyBytes + |msg.text| + 1 >= CONTROL_MAXIMUM_REPLY_BUFFER then
        (if s.exit then s else Discard(s.(exit := true))).(dead := true)
      else if s.all == [] then LineOut(s, msg) else LineQueued(s, e.now, msg)
  {
    hide Discard;
  }

  lemma LineOutKeeps(s: State, e: Env, msg: Msg)
    requires Firm(s, e) && s.all == []
    ensures var r := LineOut(s, msg);
      && Firm(r, e) && Milder(s, r) && (Quiet(s) ==> Quiet(r)) && r.deferred == s.deferred
      && r.dead == s.dead && r.log == s.log + [Entry(s.next, msg)]
  {
    hide Firm, Sizes;
    LineOutFirm(s, e, msg);
  }

  lemma LineQueuedKeeps(s: State, e: Env, t: nat, msg: Msg)
    requires Firm(s, e)
    ensures var r := LineQueued(s, t, msg);
      && Firm(r, e) && Milder(s, r) && (Quiet(s) ==> Quiet(r)) && r.deferred == s.deferred
      && r.dead == s.dead && r.log == s.log + [Entry(s.next, msg)]
  {
    hide Firm, Sizes;
    FirmQueues(s, e);
    LineQueuedFirm(s, e, t, msg);
    LineQueuedSums(s, t, msg);
  }

  lemma WriteLineKeeps(s: State, e: Env, msg: Msg)
    requires Firm(s, e)
    ensures var r := WriteLine(s, e, msg);
      && Firm(r, e) && Milder(s, r) && (Quiet(s) ==> Quiet(r)) && r.deferred == s.deferred
      && r.log == (if r.dead then s.log else s.log + [Entry(s.next, msg)])
  {
    hide Firm, Discard, WriteLine, LineOut, LineQueued, Milder, Quiet;
    WriteLineCases(s, e, msg);
    if s.dead {
      MilderSame(s);
    } else if s.length + s.replyBytes + |msg.text| + 1 >= CONTROL_MAXIMUM_REPLY_BUFFER {
      KillFirm(s, e);
    } else if s.all == [] {
      LineOutKeeps(s, e, msg);
    } else {
      LineQueuedKeeps(s, e, e.now, msg);
    }
  }

  // ----- Guards -----

  lemma DepthPush(log: seq<Entry>, x: Entry)
    ensures Depth(log + [x]) ==
      match x.msg.kind
      case Begin => Depth(log) + 1
      case End => if Depth(log) > 0 then Depth(log) - 1 else 0
      case _ => Depth(log)
    ensures Notices(log + [x]) == Notices(log) + if x.msg.kind == Notice then [x.msg] else []
    ensures NoticesOutside(log) && (x.msg.kind == Notice ==> Depth(log) == 0) ==> NoticesOutside(log + [x])
  {
    assert (log + [x])[..|log|] == log;
    if NoticesOutside(log) && (x.msg.kind == Notice ==> Depth(log) == 0) {
      forall i | 0 <= i < |log| + 1 && (log + [x])[i].msg.kind == Notice
        ensures Depth((log + [x])[..i]) == 0
      {
        if i < |log| {
          assert (log + [x])[..i] == log[..i];
        }
      }
    }
  }

  // The guards hold with m still to be written: deferred is what follows it.
  ghost predicate Closing(s: State) {
    && NoticesOutside(s.log) && Notices(s.log) <= s.notices
    && (forall m :: m in s.deferred ==> m.kind == Notice)
    && (!s.dead ==> Depth(s.log) == 0 && Notices(s.log) + s.deferred == s.notices)
  }

  lemma WriteNotice(s: State, e: Env, msg: Msg)
    requires Firm(s, e) && msg.kind == Notice
    requires Closing(s.(deferred := [msg] + s.deferred))
    ensures Closing(WriteLine(s, e, msg))
  {
    hide Firm, WriteLine, Notices, Depth, NoticesOutside;
    WriteLineKeeps(s, e, msg);
    DepthPush(s.log, Entry(s.next, msg));
    assert forall m :: m in s.deferred ==> m in [msg] + s.deferred;
    var r := WriteLine(s, e, msg);
    if !r.dead {
      assert Notices(s.log) + ([msg] + s.deferred) == Notices(r.log) + r.deferred;
    }
  }

  lemma FirmDeferred(s: State, e: Env, deferred: seq<Msg>, notices: seq<Msg>, depth: nat)
    requires Firm(s, e)
    ensures Firm(s.(deferred := deferred, notices := notices, depth := depth), e)
  {
    hide PaneOk, PaneBlocks, Follow, Texts, Lines, Sorted, ReplySum;
    var r := s.(deferred := deferred, notices := notices, depth := depth);
    assert forall b :: BlockOk(s, b) <==> BlockOk(r, b);
  }

  lemma MilderDead(s: State, s2: State, r: State)
    requires Milder(s.(deferred := s2.deferred), s2) && Milder(s2, r)
    ensures Milder(s, r) && (s2.dead ==> r.dead)
  {
    hide Sizes;
  }

  lemma {:induction false} FlushDeferredKeeps(s: State, e: Env)
    requires Firm(s, e) && Closing(s)
    ensures var r := FlushDeferred(s, e);
      Firm(r, e) && Milder(s, r) && (Quiet(s) ==> Quiet(r)) && Closing(r) && r.deferred == []
    decreases |s.deferred|
  {
    hide Firm, WriteLine, Milder, Notices, Depth, NoticesOutside;
    if s.deferred == [] {
      MilderSame(s);
    } else {
      var s1 := s.(deferred := s.deferred[1..]);
      var s2 := WriteLine(s1, e, s.deferred[0]);
      FirmDeferred(s, e, s.deferred[1..], s.notices, s.depth);
      assert [s.deferred[0]] + s.deferred[1..] == s.deferred;
      WriteLineKeeps(s1, e, s.deferred[0]);
      WriteNotice(s1, e, s.deferred[0]);
      FlushDeferredKeeps(s2, e);
      MilderDead(s, s2, FlushDeferred(s2, e));
    }
  }

  // A guard line keeps the invariant: an opening one only deepens, and the one that closes the
  // outermost lets out everything deferred after it.
  lemma WriteGuardKeeps(s: State, e: Env, msg: Msg)
    requires Inv(s, e) && msg.kind != Notice
    requires msg.kind == Begin || msg.kind == End
    ensures Inv(WriteGuard(s, e, msg), e)
  {
    hide Firm, WriteLine, Notices, Depth, NoticesOutside, FlushDeferred, Sizes;
    var s1 := if msg.kind == Begin then s.(depth := s.depth + 1) else s;
    FirmDeferred(s, e, s.deferred, s.notices, s1.depth);
    WriteLineKeeps(s1, e, msg);
    var s2 := WriteLine(s1, e, msg);
    DepthPush(s.log, Entry(s.next, msg));
    assert Notices(s.log) + [] == Notices(s.log);
    if msg.kind != Begin && s2.depth > 0 {
      var s3 := s2.(depth := s2.depth - 1);
      FirmDeferred(s2, e, s2.deferred, s2.notices, s3.depth);
      if s3.depth == 0 {
        FlushDeferredKeeps(s3, e);
      }
    }
  }

  // Part of a command's reply keeps the invariant, whatever guards are open.
  lemma WriteReplyKeeps(s: State, e: Env, msg: Msg)
    requires Inv(s, e) && msg.kind == Reply
    ensures Inv(WriteLine(s, e, msg), e)
  {
    hide Firm, WriteLine, Notices, Depth, NoticesOutside, Sizes;
    WriteLineKeeps(s, e, msg);
    DepthPush(s.log, Entry(s.next, msg));
    assert Notices(s.log) + [] == Notices(s.log);
  }

  lemma NotifyKeeps(s: State, e: Env, msg: Msg)
    requires Firm(s, e) && Guards(s) && msg.kind == Notice
    ensures var r := NotifyWrite(s, e, msg);
      && Firm(r, e) && Guards(r) && Milder(s.(notices := s.notices + [msg]), r) && (Quiet(s) ==> Quiet(r))
  {
    hide Firm, WriteLine, Notices, Depth, NoticesOutside, Sizes;
    var notices := s.notices + [msg];
    var s1 := s.(notices := notices);
    if s.depth == 0 {
      FirmDeferred(s, e, s.deferred, notices, s.depth);
      assert [msg] + [] == [msg];
      if !s.dead {
        assert Notices(s.log) + [] == Notices(s.log);
      }
      WriteLineKeeps(s1, e, msg);
      WriteNotice(s1, e, msg);
      var r := WriteLine(s1, e, msg);
      assert r.deferred == [];
      assert Notices(r.log) + [] == Notices(r.log);
    } else {
      FirmDeferred(s, e, s.deferred + [msg], notices, s.depth);
      assert Notices(s.log) + s.deferred + [msg] == Notices(s.log) + (s.deferred + [msg]);
    }
  }
}

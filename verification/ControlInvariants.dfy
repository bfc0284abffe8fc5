// What holds of a control client in every state it can reach, one concern at a time: how the two kinds of
// queue agree, which panes are pending, what offsets mean, when there is no output, what is counted, the
// order of what is written, and where notifications may be. Then that discarding output keeps it.

module ControlInvariants {
  import opened Control
  import opened ControlQueues

  // ----- The invariant, one concern at a time -----

  ghost predicate BlockOk(s: State, b: nat) {
    && b in s.blocks && b < s.next
    && (s.blocks[b].Output? <==> b in s.owner)
    && (s.blocks[b].Output? ==> s.blocks[b].size > 0 && s.owner[b] in s.panes)
  }

  // The client queue is in the order the blocks were made and holds every block there is; each pane's
  // queue is exactly the part of it that belongs to the pane.
  ghost predicate Queues(s: State) {
    && Sorted(s.all)
    && (forall b :: b in s.all ==> BlockOk(s, b))
    && (forall b :: b in s.blocks ==> b in s.all)
    && (forall b :: b in s.owner ==> b < s.next)
    && (forall p :: p in s.panes ==> s.panes[p].blocks == PaneBlocks(s.all, s.owner, p))
    && (forall p :: p in s.tree <==> p in s.panes)
  }

  ghost predicate Distinct(q: seq<nat>) {
    forall i, j :: 0 <= i < j < |q| ==> q[i] != q[j]
  }

  // pending_flag, pending_list and pending_count agree, and a pane with blocks is pending.
  ghost predicate Pendings(s: State) {
    && Distinct(s.pending) && s.pendingCount == |s.pending|
    && (forall p :: p in s.pending ==> p in s.panes)
    && (forall p :: p in s.panes ==>
          (s.panes[p].pending <==> p in s.pending) && (s.panes[p].blocks != [] ==> s.panes[p].pending))
  }

  ghost predicate EnvOk(e: Env) {
    forall p :: p in e.data ==> p in e.parsed && e.parsed[p] <= |e.data[p]|
  }

  ghost predicate PaneOk(cp: Pane, blocks: map<nat, Block>, exact: bool, end: nat) {
    && cp.offset + Sizes(cp.blocks, blocks) <= cp.queued <= end
    && (exact ==> cp.offset + Sizes(cp.blocks, blocks) == cp.queued)
  }

  // What is written and what is still in blocks never passes what has been queued, nor that the pane's
  // data; nothing is missing in between unless something has been discarded.
  ghost predicate Offsets(s: State, e: Env) {
    && EnvOk(e)
    && (forall p :: p in s.exact ==> p in s.panes)
    && (forall p :: p in s.panes ==> p in e.data && PaneOk(s.panes[p], s.blocks, p in s.exact, |e.data[p]|))
  }

  // A client that is being ignored has no output queued, nor has a pane that is off or paused, nor a client
  // that is to exit, unless it was told to without discarding. A suspended client may have.
  ghost predicate Quiet(s: State) {
    && (forall p :: p in s.panes && ((s.exit && !s.raised.held) || s.ignoring || s.panes[p].off || s.panes[p].paused) ==>
          s.panes[p].blocks == [])
    && (s.dead ==> s.exit)
  }

  ghost predicate Replies(s: State) {
    s.replyBytes == ReplySum(s.all, s.blocks)
  }

  function Lines(out: seq<Item>): seq<Entry> {
    if out == [] then []
    else
      var i := out[|out| - 1];
      Lines(out[..|out| - 1]) + if i.Line? then [Entry(i.id, i.msg)] else []
  }

  // Nothing made earlier is written after a line.
  ghost predicate InOrder(out: seq<Item>) {
    forall i, j :: 0 <= i < j < |out| && out[i].Line? ==>
      out[i].id < if out[j].Line? then out[j].id else out[j].block
  }

  // Lines leave in the order they were accepted, after everything queued ahead of them.
  ghost predicate Ordering(s: State) {
    && InOrder(s.out)
    && (forall i :: 0 <= i < |s.out| ==> (if s.out[i].Line? then s.out[i].id else s.out[i].block) < s.next)
    && (forall i, b :: 0 <= i < |s.out| && s.out[i].Line? && b in s.all ==> s.out[i].id < b)
    && Lines(s.out) + Texts(s.all, s.blocks) == s.log
  }

  // How far out takes pane p, whose data it had reached at: -1 if a piece does not start where the
  // last one ended.
  function Follow(out: seq<Item>, p: nat, at: int): int {
    if out == [] then at
    else
      var r, i := Follow(out[..|out| - 1], p, at), out[|out| - 1];
      if i.Line? || i.pane != p then r
      else if i.from == r then i.from + i.size
      else -1
  }

  // The data written for a pane since its offsets were last set runs without gap or repeat from there
  // to its offset.
  ghost predicate Follows(s: State) {
    forall p :: p in s.exact ==>
      && p in s.panes && p in s.mark && p in s.base && s.mark[p] <= |s.out|
      && Follow(s.out[s.mark[p]..], p, s.base[p]) == s.panes[p].offset
  }

  // How many guards are open after the lines of log.
  function Depth(log: seq<Entry>): nat {
    if log == [] then 0
    else
      var d, kind := Depth(log[..|log| - 1]), log[|log| - 1].msg.kind;
      match kind
      case Begin => d + 1
      case End => if d > 0 then d - 1 else 0
      case _ => d
  }

  ghost predicate NoticesOutside(log: seq<Entry>) {
    forall i :: 0 <= i < |log| && log[i].msg.kind == Notice ==> Depth(log[..i]) == 0
  }

  function Notices(log: seq<Entry>): seq<Msg> {
    if log == [] then []
    else
      var m := log[|log| - 1].msg;
      Notices(log[..|log| - 1]) + if m.kind == Notice then [m] else []
  }

  // No notification is inside a guard; none is lost or reordered, short of the reply-buffer kill.
  ghost predicate Guards(s: State) {
    && NoticesOutside(s.log)
    && Notices(s.log) <= s.notices
    && (forall m :: m in s.deferred ==> m.kind == Notice)
    && (!s.dead ==> Depth(s.log) == s.depth && Notices(s.log) + s.deferred == s.notices)
    && (s.depth == 0 ==> s.deferred == [])
  }

  // Everything but the guards, which hold between operations only, and the quiet of a client that is
  // about to be made quiet.
  ghost predicate Firm(s: State, e: Env) {
    && Queues(s) && Pendings(s) && Offsets(s, e) && Replies(s) && Ordering(s) && Follows(s) && !s.fatal
  }

  ghost predicate Sound(s: State, e: Env) {
    Firm(s, e) && Quiet(s)
  }

  ghost predicate Inv(s: State, e: Env) {
    Sound(s, e) && Guards(s)
  }

  // ----- Taking a block off -----

  lemma PopPaneHead(s: State, p: nat)
    requires Queues(s) && p in s.panes && s.panes[p].blocks != []
    ensures var b := s.panes[p].blocks[0];
      && b in s.all && b in s.blocks && s.blocks[b].Output? && s.owner[b] == p && b < s.next
      && b !in s.panes[p].blocks[1..]
      && Sorted(Without(s.all, b))
      && (forall x :: x in Without(s.all, b) <==> x in s.all && x != b)
  {
    hide Without, PaneBlocks;
    var b := s.panes[p].blocks[0];
    PaneBlocksMembers(s.all, s.owner, p);
    assert b in s.panes[p].blocks;
    assert BlockOk(s, b);
    SortedTail(s.panes[p].blocks);
    WithoutSorted(s.all, b);
  }

  // What is left of each pane's queue.
  lemma PopPaneQueue(s: State, p: nat, q: nat)
    requires Queues(s) && p in s.panes && s.panes[p].blocks != [] && q in s.panes
    ensures var b := s.panes[p].blocks[0];
      && PaneBlocks(Without(s.all, b), s.owner, q) ==
         (if q == p then s.panes[p].blocks[1..] else s.panes[q].blocks)
      && (q != p ==> b !in s.panes[q].blocks)
  {
    hide Without, PaneBlocks, BlockOk;
    PopPaneHead(s, p);
    var b := s.panes[p].blocks[0];
    PaneBlocksWithout(s.all, s.owner, q, b);
    PaneBlocksMembers(s.all, s.owner, q);
    if q == p {
      WithoutHead(s.panes[p].blocks);
    } else {
      WithoutAbsent(s.panes[q].blocks, b);
    }
  }

  lemma PopPaneQueues(s: State, p: nat)
    requires Queues(s) && p in s.panes && s.panes[p].blocks != []
    ensures var b := s.panes[p].blocks[0];
      && b in s.all && b in s.blocks && s.blocks[b].Output? && s.owner[b] == p
      && (forall q :: q in s.panes && q != p ==> b !in s.panes[q].blocks)
      && b !in s.panes[p].blocks[1..]
      && Queues(PopPane(s, p))
  {
    hide Without, PaneBlocks, Sorted;
    var b, r := s.panes[p].blocks[0], PopPane(s, p);
    PopPaneHead(s, p);
    forall q | q in s.panes
      ensures r.panes[q].blocks == PaneBlocks(r.all, r.owner, q) && (q != p ==> b !in s.panes[q].blocks)
    {
      PopPaneQueue(s, p, q);
    }
    forall c | c in r.all
      ensures BlockOk(r, c)
    {
      assert BlockOk(s, c);
    }
  }

  lemma PopPanePendings(s: State, p: nat)
    requires Pendings(s) && p in s.panes && s.panes[p].blocks != []
    ensures Pendings(PopPane(s, p))
  {
  }

  lemma PopPaneSums(s: State, p: nat)
    requires Queues(s) && p in s.panes && s.panes[p].blocks != []
    ensures var r := PopPane(s, p);
      && Sizes(s.all, s.blocks) == Sizes(r.all, r.blocks) + SizeOf(s.blocks, s.panes[p].blocks[0])
      && ReplySum(r.all, r.blocks) == ReplySum(s.all, s.blocks)
      && Texts(r.all, r.blocks) == Texts(s.all, s.blocks)
      && (forall b :: b in r.all ==> b in s.all) && s.all != []
      && r == s.(blocks := r.blocks, all := r.all, panes := r.panes)
      && r.panes == s.panes[p := s.panes[p].(blocks := s.panes[p].blocks[1..])]
  {
    hide BlockOk, PaneBlocks, Sizes, ReplySum, Texts;
    PopPaneQueues(s, p);
    var b := s.panes[p].blocks[0];
    SumsWithout(s.all, s.blocks, b);
    WithoutSorted(s.all, b);
    SumsSame(Without(s.all, b), s.blocks, s.blocks - {b});
  }

  lemma PopPaneOffsets(s: State, e: Env, p: nat)
    requires Queues(s) && Offsets(s, e) && p in s.panes && s.panes[p].blocks != [] && p !in s.exact
    ensures Offsets(PopPane(s, p), e)
  {
    hide PaneBlocks, Sizes, Without, BlockOk;
    PopPaneQueues(s, p);
    var r := PopPane(s, p);
    SumsHead(s.panes[p].blocks, s.blocks);
    forall q | q in s.panes
      ensures PaneOk(r.panes[q], r.blocks, q in r.exact, |e.data[q]|)
    {
      assert PaneOk(s.panes[q], s.blocks, q in s.exact, |e.data[q]|);
      SumsSame(r.panes[q].blocks, s.blocks, r.blocks);
    }
  }

  lemma PopPaneFirm(s: State, e: Env, p: nat)
    requires Firm(s, e) && p in s.panes && s.panes[p].blocks != [] && p !in s.exact
    ensures Firm(PopPane(s, p), e)
  {
    hide Queues, Pendings, Offsets, InOrder, Texts, Follow;
    PopPaneQueues(s, p);
    PopPaneSums(s, p);
    PopPanePendings(s, p);
    PopPaneOffsets(s, e, p);
  }

  // ----- Discarding -----

  // r is s with some blocks of some panes discarded.
  ghost predicate Discarded(s: State, r: State) {
    && r == s.(blocks := r.blocks, all := r.all, panes := r.panes, exact := r.exact)
    && r.panes.Keys == s.panes.Keys && r.exact <= s.exact
    && (forall p :: p in s.panes ==>
          && r.panes[p] == s.panes[p].(blocks := r.panes[p].blocks)
          && (r.panes[p].blocks == s.panes[p].blocks || r.panes[p].blocks == []))
    && Sizes(r.all, r.blocks) <= Sizes(s.all, s.blocks)
    && (s.all == [] ==> r.all == [])
  }

  lemma DiscardedTwice(s: State, r: State, t: State)
    requires Discarded(s, r) && Discarded(r, t)
    ensures Discarded(s, t)
  {
    hide Sizes;
  }

  lemma {:induction false} PopAllFirm(s: State, e: Env, p: nat)
    requires Firm(s, e) && p in s.panes && p !in s.exact
    ensures var r := PopAll(s, p);
      && Firm(r, e)
      && r == s.(blocks := r.blocks, all := r.all, panes := r.panes)
      && r.panes == s.panes[p := s.panes[p].(blocks := [])]
      && Sizes(r.all, r.blocks) <= Sizes(s.all, s.blocks)
      && (s.all == [] ==> r.all == [])
    decreases |s.panes[p].blocks|
  {
    hide Firm, Queues, PopPane, Sizes;
    if s.panes[p].blocks != [] {
      assert Queues(s) by { FirmQueues(s, e); }
      PopPaneFirm(s, e, p);
      PopPaneSums(s, p);
      PopAllFirm(PopPane(s, p), e, p);
    }
  }

  lemma FirmQueues(s: State, e: Env)
    requires Firm(s, e)
    ensures Queues(s) && forall p :: p in s.exact ==> p in s.panes
  {
  }

  lemma Inexact(s: State, e: Env, p: nat)
    requires Firm(s, e)
    ensures Firm(s.(exact := s.exact - {p}), e)
  {
    hide Ordering, Sizes;
    var r := s.(exact := s.exact - {p});
    assert forall b :: BlockOk(s, b) <==> BlockOk(r, b);
    forall q | q in r.panes
      ensures PaneOk(r.panes[q], r.blocks, q in r.exact, |e.data[q]|)
    {
      assert PaneOk(s.panes[q], s.blocks, q in s.exact, |e.data[q]|);
    }
    assert Ordering(r) by { OrderingFrame(s, r); }
  }

  // Nothing about the queues is different.
  lemma QueuesFrame(s: State, r: State)
    requires Queues(s) && r.all == s.all && r.blocks == s.blocks && r.owner == s.owner && r.next == s.next
    requires r.tree == s.tree && r.panes.Keys == s.panes.Keys
    requires forall p :: p in s.panes ==> r.panes[p].blocks == s.panes[p].blocks
    ensures Queues(r)
  {
    hide PaneBlocks, Sorted;
    forall b | b in r.all
      ensures BlockOk(r, b)
    {
      assert BlockOk(s, b);
    }
  }

  lemma OrderingFrame(s: State, r: State)
    requires Ordering(s) && r.out == s.out && r.all == s.all && r.blocks == s.blocks && r.log == s.log && r.next == s.next
    ensures Ordering(r)
  {
  }

  lemma DiscardPaneFirm(s: State, e: Env, p: nat)
    requires Firm(s, e) && p in s.panes
    ensures var r := DiscardPane(s, p);
      && Firm(r, e) && Discarded(s, r)
      && r.panes == s.panes[p := s.panes[p].(blocks := [])] && r.exact == s.exact - {p}
  {
    hide Firm, PopAll;
    Inexact(s, e, p);
    PopAllFirm(s.(exact := s.exact - {p}), e, p);
  }

  lemma {:induction false} DiscardPanesFirm(s: State, e: Env, ids: seq<nat>)
    requires Firm(s, e)
    ensures var r := DiscardPanes(s, ids);
      && Firm(r, e) && Discarded(s, r)
      && (forall p :: p in ids && p in s.panes ==> r.panes[p].blocks == [] && p !in r.exact)
    decreases ids
  {
    hide Firm, DiscardPane;
    if ids != [] {
      var p, rest := ids[0], ids[1..];
      assert forall x :: x in ids <==> x == p || x in rest;
      if p in s.panes {
        var t := DiscardPane(s, p);
        DiscardPaneFirm(s, e, p);
        DiscardPanesFirm(t, e, rest);
        DiscardedTwice(s, t, DiscardPanes(t, rest));
      } else {
        DiscardPanesFirm(s, e, rest);
      }
    }
  }

  // control_discard leaves no output queued, so it makes the client quiet.
  lemma DiscardFirm(s: State, e: Env)
    requires Firm(s, e)
    ensures var r := Discard(s);
      && Firm(r, e) && Discarded(s, r)
      && (forall p :: p in r.panes ==> r.panes[p].blocks == []) && r.exact == {}
  {
    hide BlockOk, Pendings, Offsets, Ordering, Follows, DiscardPanes;
    DiscardPanesFirm(s, e, s.tree);
    FirmQueues(Discard(s), e);
  }
}

// Pane output queued for a control client, and panes turned on, off, paused and reset. Each of these keeps
// the invariant of ControlInvariants; ignoring a pane keeps it exactly when the pane has nothing queued.

module ControlPanes {
  import opened GridCell
  import opened Control
  import opened ControlQueues
  import opened ControlInvariants
  import opened ControlLines

  // ----- The world moves on: pane data only grows -----

  ghost predicate Grows(e: Env, f: Env) {
    EnvOk(f) && forall p :: p in e.data ==> p in f.data && e.data[p] <= f.data[p]
  }

  lemma EnvGrows(s: State, e: Env, f: Env)
    requires Firm(s, e) && Grows(e, f)
    ensures Firm(s, f)
  {
    hide Queues, Pendings, Ordering, Follows, Sizes;
    forall p | p in s.panes
      ensures PaneOk(s.panes[p], s.blocks, p in s.exact, |f.data[p]|)
    {
      assert PaneOk(s.panes[p], s.blocks, p in s.exact, |e.data[p]|);
    }
  }

  // ----- Setting offsets -----

  lemma SyncFollows(s: State, p: nat, at: nat)
    requires Follows(s) && p in s.panes
    ensures Follows(Sync(s, p, at))
  {
    var r := Sync(s, p, at);
    assert r.out[r.mark[p]..] == [];
    forall q | q in r.exact
      ensures q in r.panes && q in r.mark && q in r.base && r.mark[q] <= |r.out|
              && Follow(r.out[r.mark[q]..], q, r.base[q]) == r.panes[q].offset
    {
      if q != p {
        assert q in s.exact;
      }
    }
  }

  lemma SyncQueues(s: State, p: nat, at: nat)
    requires Queues(s) && p in s.panes
    ensures Queues(Sync(s, p, at))
  {
    hide Queues;
    QueuesFrame(s, Sync(s, p, at));
  }

  lemma SyncOffsets(s: State, e: Env, p: nat, at: nat, data: seq<byte>, parsed: nat)
    requires Offsets(s, e) && p in s.panes && s.panes[p].blocks == [] && at <= |data| && parsed <= |data|
    ensures Offsets(Sync(s, p, at), e.(data := e.data[p := data], parsed := e.parsed[p := parsed]))
  {
    var r, f := Sync(s, p, at), e.(data := e.data[p := data], parsed := e.parsed[p := parsed]);
    forall q | q in r.panes
      ensures q in f.data && PaneOk(r.panes[q], r.blocks, q in r.exact, |f.data[q]|)
    {
      assert PaneOk(s.panes[q], s.blocks, q in s.exact, |e.data[q]|);
    }
  }

  // Both offsets may be set to the same place when nothing of the pane is queued; the pane's data may
  // just have been replaced.
  lemma SyncFirm(s: State, e: Env, p: nat, at: nat, data: seq<byte>, parsed: nat)
    requires Firm(s, e) && p in s.panes && s.panes[p].blocks == [] && at <= |data| && parsed <= |data|
    ensures Firm(Sync(s, p, at), e.(data := e.data[p := data], parsed := e.parsed[p := parsed]))
  {
    hide Queues, Offsets, Ordering, Follows, ReplySum;
    SyncQueues(s, p, at);
    SyncOffsets(s, e, p, at, data, parsed);
    SyncFollows(s, p, at);
    OrderingFrame(s, Sync(s, p, at));
  }

  lemma SyncKeeps(s: State, e: Env, p: nat, at: nat)
    requires Firm(s, e) && p in s.panes && s.panes[p].blocks == [] && at <= |e.data[p]|
    ensures Firm(Sync(s, p, at), e)
  {
    hide Queues, Pendings, Ordering, Follows, Sync;
    SyncFirm(s, e, p, at, e.data[p], e.parsed[p]);
    assert e.data[p := e.data[p]] == e.data && e.parsed[p := e.parsed[p]] == e.parsed;
  }

  // control_write_output's way of ignoring a pane jumps to the end of the pane's data whether or not
  // the pane has blocks. The accounting survives exactly when it has none.
  lemma IgnoreKeepsExactly(s: State, e: Env, p: nat)
    requires Firm(s, e) && p in s.panes
    ensures Firm(Ignore(s, e, p), e) <==> s.panes[p].blocks == []
  {
    if s.panes[p].blocks == [] {
      SyncKeeps(s, e, p, |e.data[p]|);
    } else {
      QueuedSize(s, e, p);
      var r := Ignore(s, e, p);
      assert !PaneOk(r.panes[p], r.blocks, p in r.exact, |e.data[p]|);
    }
  }

  lemma QueuedSize(s: State, e: Env, p: nat)
    requires Firm(s, e) && p in s.panes && s.panes[p].blocks != []
    ensures Sizes(s.panes[p].blocks, s.blocks) > 0
  {
    hide Pendings, Ordering, Follows, PaneBlocks, Sizes;
    PopPaneHead(s, p);
    SumsHead(s.panes[p].blocks, s.blocks);
    assert BlockOk(s, s.panes[p].blocks[0]);
  }

  // ----- Flags -----

  function SetFlags(s: State, p: nat, off: bool, paused: bool): State
    requires p in s.panes
  {
    s.(panes := s.panes[p := s.panes[p].(off := off, paused := paused)])
  }

  lemma FlagsFirm(s: State, e: Env, p: nat, off: bool, paused: bool)
    requires Firm(s, e) && p in s.panes
    ensures Firm(SetFlags(s, p, off, paused), e)
  {
    hide Queues, Ordering, Follow, Sizes, ReplySum;
    var r := SetFlags(s, p, off, paused);
    QueuesFrame(s, r);
    forall q | q in r.panes
      ensures PaneOk(r.panes[q], r.blocks, q in r.exact, |e.data[q]|)
    {
      assert PaneOk(s.panes[q], s.blocks, q in s.exact, |e.data[q]|);
    }
    OrderingFrame(s, r);
  }

  lemma DiscardedGuards(s: State, r: State)
    requires Guards(s) && Discarded(s, r)
    ensures Guards(r)
  {
    hide Sizes, Notices, Depth, NoticesOutside;
  }

  // A pane paused and its output discarded.
  lemma PauseFirm(s: State, e: Env, p: nat)
    requires Firm(s, e) && p in s.panes
    ensures var t := s.(panes := s.panes[p := s.panes[p].(paused := true)]);
      var r := DiscardPane(t, p);
      && Firm(r, e) && Discarded(t, r) && (Quiet(s) ==> Quiet(r)) && (Guards(s) ==> Guards(r))
      && p in r.panes && r.panes[p].blocks == [] && r.exact == s.exact - {p}
  {
    hide Firm, DiscardPane, Discarded, Guards, Quiet;
    var t := SetFlags(s, p, s.panes[p].off, true);
    FlagsFirm(s, e, p, s.panes[p].off, true);
    DiscardPaneFirm(t, e, p);
    if Quiet(s) {
      PausedQuiet(s, t, DiscardPane(t, p), p);
    }
    if Guards(s) {
      GuardsFrame(s, t);
      DiscardedGuards(t, DiscardPane(t, p));
    }
  }

  lemma PausedQuiet(s: State, t: State, r: State, p: nat)
    requires Quiet(s) && p in s.panes && t == SetFlags(s, p, s.panes[p].off, true)
    requires Discarded(t, r) && r.panes == t.panes[p := t.panes[p].(blocks := [])]
    ensures Quiet(r)
  {
    hide Sizes;
  }

  // ----- Panes appearing -----

  lemma InsertedMembers(q: seq<nat>, p: nat)
    ensures forall x :: x in InsertSorted(q, p) <==> x in q || x == p
  {
    if q != [] {
      assert q == q[..|q| - 1] + [q[|q| - 1]];
    }
  }

  function NewPane(s: State, p: nat): State {
    s.(panes := s.panes[p := Pane(0, 0, false, false, false, [])], tree := InsertSorted(s.tree, p))
  }

  lemma NewPaneQueues(s: State, p: nat)
    requires Queues(s) && p !in s.panes
    ensures Queues(NewPane(s, p))
  {
    hide PaneBlocks, Sorted, InsertSorted;
    var r := NewPane(s, p);
    InsertedMembers(s.tree, p);
    assert forall b :: BlockOk(s, b) ==> BlockOk(r, b);
    assert forall b :: b in s.all ==> BlockOk(s, b);
    PaneBlocksNone(s.all, s.owner, p);
  }

  lemma NewPaneFirm(s: State, e: Env, p: nat)
    requires Firm(s, e) && p !in s.panes && p in e.data
    ensures Firm(NewPane(s, p), e)
  {
    hide Ordering, Follow, InsertSorted, Queues, ReplySum;
    var r := NewPane(s, p);
    NewPaneQueues(s, p);
    forall q | q in r.panes
      ensures q in e.data && PaneOk(r.panes[q], r.blocks, q in r.exact, |e.data[q]|)
    {
      if q != p {
        assert PaneOk(s.panes[q], s.blocks, q in s.exact, |e.data[q]|);
      }
    }
    OrderingFrame(s, r);
  }

  lemma GuardsFrame(s: State, r: State)
    requires Guards(s)
    requires r.log == s.log && r.notices == s.notices && r.deferred == s.deferred && r.depth == s.depth
    requires s.dead ==> r.dead
    ensures Guards(r)
  {
  }

  // What is the same for the panes other than p and for everything else but offsets.
  ghost predicate Near(s: State, r: State) {
    && r.log == s.log && r.notices == s.notices && r.deferred == s.deferred && r.depth == s.depth
    && r.dead == s.dead && r.exit == s.exit && r.ignoring == s.ignoring && r.raised == s.raised && r.all == s.all && r.blocks == s.blocks
  }

  lemma AddPaneKeeps(s: State, e: Env, p: nat)
    requires Sound(s, e) && p in e.data
    ensures EnvOk(e) && p in e.parsed
    ensures var r := AddPane(s, e, p);
      Sound(r, e) && Near(s, r) && p in r.panes
  {
    hide Queues, Pendings, Ordering, Follows, Replies, InsertSorted;
    if p !in s.panes {
      NewPaneFirm(s, e, p);
      SyncKeeps(NewPane(s, p), e, p, e.parsed[p]);
    }
  }

  // ----- Age -----

  // When control_check_age stops a pane, its output is gone.
  lemma CheckAgeKeeps(s: State, e: Env, p: nat)
    requires Inv(s, e) && p in s.panes
    ensures var (stop, r) := CheckAge(s, e, p);
      && Inv(r, e) && (!stop ==> r == s) && p in r.panes
      && (stop ==> r.panes[p].blocks == [] && (r.panes[p].paused || r.exit))
  {
    hide Firm, NotifyWrite, DiscardPane, Discard, Sizes, Notices, Depth, NoticesOutside;
    PauseFirm(s, e, p);
    var t := s.(panes := s.panes[p := s.panes[p].(paused := true)]);
    NotifyKeeps(DiscardPane(t, p), e, PauseMsg(p));
    FirmFlags(s, e, true, s.dead, s.ignoring);
    DiscardFirm(s.(exit := true), e);
  }

  // ----- Output -----

  lemma PushQueues(s: State, e: Env, p: nat)
    requires Queues(s) && p in s.panes && p in e.data && s.panes[p].queued < |e.data[p]|
    ensures Queues(PushOutput(s, e, p))
  {
    hide PaneBlocks, Sorted;
    var r := PushOutput(s, e, p);
    SortedPush(s.all, s.next);
    assert forall b :: b in s.all ==> BlockOk(s, b);
    assert BlockOk(r, s.next);
    forall q | q in r.panes
      ensures r.panes[q].blocks == PaneBlocks(r.all, r.owner, q)
    {
      PaneBlocksPush(s.all, r.owner, q, s.next);
      PaneBlocksSame(s.all, s.owner, r.owner, q);
      assert PaneBlocks(s.all, s.owner, q) + [] == PaneBlocks(s.all, s.owner, q);
    }
  }

  lemma PushSums(s: State, e: Env, p: nat)
    requires Queues(s) && p in s.panes && p in e.data && s.panes[p].queued < |e.data[p]|
    ensures var r := PushOutput(s, e, p);
      && ReplySum(r.all, r.blocks) == ReplySum(s.all, s.blocks) && Texts(r.all, r.blocks) == Texts(s.all, s.blocks)
      && (forall q :: q in s.panes ==> Sizes(s.panes[q].blocks, r.blocks) == Sizes(s.panes[q].blocks, s.blocks))
      && Sizes(r.panes[p].blocks, r.blocks) == Sizes(s.panes[p].blocks, s.blocks) + |e.data[p]| - s.panes[p].queued
  {
    hide PaneBlocks, Sorted, Sizes, ReplySum, Texts;
    var r := PushOutput(s, e, p);
    assert forall b :: b in s.all ==> BlockOk(s, b);
    SumsSame(s.all, s.blocks, r.blocks);
    SumsPush(s.all, r.blocks, s.next);
    assert Texts(s.all, r.blocks) + [] == Texts(s.all, r.blocks);
    forall q | q in s.panes
      ensures Sizes(s.panes[q].blocks, r.blocks) == Sizes(s.panes[q].blocks, s.blocks)
    {
      PaneBlocksMembers(s.all, s.owner, q);
      SumsSame(s.panes[q].blocks, s.blocks, r.blocks);
    }
    SumsPush(s.panes[p].blocks, r.blocks, s.next);
  }

  lemma PushPendings(s: State, e: Env, p: nat)
    requires Pendings(s) && p in s.panes && p in e.data && s.panes[p].queued < |e.data[p]|
    ensures Pendings(PushOutput(s, e, p))
  {
  }

  lemma PushOrdering(s: State, e: Env, p: nat)
    requires Queues(s) && Ordering(s) && p in s.panes && p in e.data && s.panes[p].queued < |e.data[p]|
    ensures Ordering(PushOutput(s, e, p))
  {
    hide Queues, Lines, Texts, InOrder, Sizes;
    PushSums(s, e, p);
  }

  // A new block covers exactly what the pane has that is not yet queued.
  lemma PushFirm(s: State, e: Env, p: nat)
    requires Firm(s, e) && p in s.panes && s.panes[p].queued < |e.data[p]|
    ensures Firm(PushOutput(s, e, p), e)
  {
    hide Queues, Pendings, Ordering, Sizes, Follow, ReplySum;
    var r := PushOutput(s, e, p);
    PushQueues(s, e, p);
    PushSums(s, e, p);
    PushPendings(s, e, p);
    PushOrdering(s, e, p);
    forall q | q in r.panes
      ensures PaneOk(r.panes[q], r.blocks, q in r.exact, |e.data[q]|)
    {
      assert PaneOk(s.panes[q], s.blocks, q in s.exact, |e.data[q]|);
    }
  }

  lemma FirmPane(s: State, e: Env, p: nat)
    requires Firm(s, e) && p in s.panes
    ensures EnvOk(e) && p in e.data && p in e.parsed && e.parsed[p] <= |e.data[p]|
    ensures s.panes[p].queued <= |e.data[p]|
  {
    assert PaneOk(s.panes[p], s.blocks, p in s.exact, |e.data[p]|);
  }

  lemma QueueOutputKeeps(s: State, e: Env, p: nat)
    requires Inv(s, e) && p in s.panes && s.panes[p].queued < |e.data[p]|
    requires !OutputIgnored(s) && !s.panes[p].off && !s.panes[p].paused
    ensures Inv(PushOutput(s, e, p), e)
    ensures p in PushOutput(s, e, p).panes && PushOutput(s, e, p).panes[p].queued == |e.data[p]|
  {
    hide Firm, Notices, Depth, NoticesOutside;
    PushFirm(s, e, p);
  }

  lemma IgnoreKeeps(s: State, e: Env, p: nat)
    requires Inv(s, e) && p in s.panes && p in e.data && s.panes[p].blocks == []
    ensures Inv(Ignore(s, e, p), e)
    ensures p in Ignore(s, e, p).panes && Ignore(s, e, p).panes[p].queued == |e.data[p]|
  {
    hide Firm, Notices, Depth, NoticesOutside;
    SyncKeeps(s, e, p, |e.data[p]|);
  }

  lemma IgnoredQueued(s: State, e: Env, p: nat)
    requires p in s.panes && p in e.data
    ensures p in Ignore(s, e, p).panes && Ignore(s, e, p).panes[p].queued == |e.data[p]|
  {
  }

  lemma AddPaneInv(s: State, e: Env, p: nat)
    requires Inv(s, e) && p in e.data
    ensures EnvOk(e) && p in e.parsed && e.parsed[p] <= |e.data[p]|
    ensures var r := AddPane(s, e, p);
      Inv(r, e) && Near(s, r) && p in r.panes
  {
    hide Firm, Notices, Depth, NoticesOutside, AddPane;
    AddPaneKeeps(s, e, p);
    GuardsFrame(s, AddPane(s, e, p));
  }

  // Output for a pane of an ignored client that has blocks queued.
  predicate Undiscarded(s: State, e: Env, p: nat) {
    p in e.visible && OutputIgnored(s) && p in s.panes && s.panes[p].blocks != []
  }

  // Pane output keeps the invariant, unless it is ignored with blocks of the pane still queued. Afterwards
  // everything the pane has is queued or ignored, unless the pane has been paused or the client told to
  // exit.
  lemma WriteOutputKeeps(s: State, e: Env, p: nat)
    requires Inv(s, e) && p in e.data
    ensures p in e.parsed && (Inv(WriteOutput(s, e, p), e) <==> !Undiscarded(s, e, p))
    ensures var r := WriteOutput(s, e, p);
      p in e.visible && p in r.panes && !r.panes[p].paused && !r.exit ==> r.panes[p].queued == |e.data[p]|
  {
    hide Firm, Guards, AddPane, CheckAge, PushOutput, Ignore;
    AddPaneInv(s, e, p);
    if p in e.visible {
      if OutputIgnored(s) {
        if Undiscarded(s, e, p) {
          IgnoreKeepsExactly(s, e, p);
          IgnoredQueued(s, e, p);
        } else if p in s.panes {
          IgnoreKeeps(s, e, p);
        }
      } else {
        var s1 := AddPane(s, e, p);
        FirmPane(s1, e, p);
        if s1.panes[p].off || s1.panes[p].paused {
          IgnoreKeeps(s1, e, p);
        } else {
          CheckAgeKeeps(s1, e, p);
          FirmPane(s1, e, p);
          if !CheckAge(s1, e, p).0 && s1.panes[p].queued < |e.data[p]| {
            QueueOutputKeeps(s1, e, p);
          }
        }
      }
    }
  }

  // ----- Panes on, off, paused, continued and reset -----

  // A pane with nothing queued starts again from where it has got to itself.
  lemma RestartKeeps(s: State, e: Env, p: nat, off: bool, paused: bool)
    requires Inv(s, e) && p in s.panes && s.panes[p].blocks == []
    ensures EnvOk(e) && p in e.data
    ensures Inv(Sync(SetFlags(s, p, off, paused), p, e.parsed[p]), e)
  {
    hide Firm, Guards;
    FirmPane(s, e, p);
    FlagsFirm(s, e, p, off, paused);
    SyncKeeps(SetFlags(s, p, off, paused), e, p, e.parsed[p]);
    GuardsFrame(s, Sync(SetFlags(s, p, off, paused), p, e.parsed[p]));
  }

  lemma SetPaneOnKeeps(s: State, e: Env, p: nat)
    requires Inv(s, e) && p in e.data
    ensures p in e.parsed && Inv(SetPaneOn(s, e, p), e)
  {
    hide Firm, Guards, AddPane;
    AddPaneInv(s, e, p);
    if p in s.panes && s.panes[p].off {
      RestartKeeps(s, e, p, false, s.panes[p].paused);
    }
  }

  lemma SetPaneOffKeeps(s: State, e: Env, p: nat)
    requires Inv(s, e) && p in e.data
    ensures p in e.parsed && Inv(SetPaneOff(s, e, p), e)
  {
    hide Firm, Notices, Depth, NoticesOutside, AddPane, DiscardPane, Sizes;
    AddPaneInv(s, e, p);
    var s1 := AddPane(s, e, p);
    DiscardPaneFirm(s1, e, p);
    var s2 := DiscardPane(s1, p);
    SyncKeeps(s2, e, p, e.parsed[p]);
    var s3 := Sync(s2, p, e.parsed[p]);
    FlagsFirm(s3, e, p, true, s3.panes[p].paused);
  }

  lemma ContinuePaneKeeps(s: State, e: Env, p: nat)
    requires Inv(s, e) && p in e.data
    ensures p in e.parsed && Inv(ContinuePane(s, e, p), e)
  {
    hide Firm, Guards, AddPane, NotifyWrite, Milder;
    AddPaneInv(s, e, p);
    if p in s.panes && s.panes[p].paused {
      assert s.panes[p].blocks == [];
      RestartKeeps(s, e, p, s.panes[p].off, false);
      NotifyKeeps(Sync(SetFlags(s, p, s.panes[p].off, false), p, e.parsed[p]), e, ContinueMsg(p));
    }
  }

  lemma PausePaneKeeps(s: State, e: Env, p: nat)
    requires Inv(s, e) && p in e.data
    ensures p in e.parsed && Inv(PausePane(s, e, p), e)
  {
    hide Firm, Guards, NotifyWrite, AddPane, DiscardPane;
    AddPaneInv(s, e, p);
    var s1 := AddPane(s, e, p);
    PauseFirm(s1, e, p);
    NotifyKeeps(DiscardPane(s1.(panes := s1.panes[p := s1.panes[p].(paused := true)]), p), e, PauseMsg(p));
  }

  // The pane's data is replaced and everything queued from the old data dropped.
  lemma ResetPaneKeeps(s: State, e: Env, p: nat, data: seq<byte>, parsed: nat)
    requires Inv(s, e) && p in e.data && parsed <= |data|
    ensures var f := e.(data := e.data[p := data], parsed := e.parsed[p := parsed]);
      Inv(ResetPane(s, f, p), f)
  {
    hide Firm, Notices, Depth, NoticesOutside, DiscardPane, Sizes;
    if p in s.panes {
      DiscardPaneFirm(s, e, p);
      SyncFirm(DiscardPane(s, p), e, p, parsed, data, parsed);
    } else {
      ReplacedFirm(s, e, p, data, parsed);
    }
  }

  lemma ReplacedFirm(s: State, e: Env, p: nat, data: seq<byte>, parsed: nat)
    requires Firm(s, e) && p !in s.panes && parsed <= |data|
    ensures Firm(s, e.(data := e.data[p := data], parsed := e.parsed[p := parsed]))
  {
    hide Queues, Pendings, Ordering, Follows, PaneOk;
  }

  // ----- Every pane dropped -----

  lemma AllTexts(q: seq<nat>, owner: map<nat, nat>, panes: seq<nat>)
    requires forall p :: p in panes ==> PaneBlocks(q, owner, p) == []
    requires forall b :: b in q && b in owner ==> owner[b] in panes
    requires Sorted(q)
    ensures forall b :: b in q ==> b !in owner
  {
    forall p | p in panes
      ensures forall b :: b in q && b in owner ==> owner[b] != p
    {
      PaneBlocksMembers(q, owner, p);
    }
  }

  // With no blocks left, the panes may all go.
  lemma DropPanesQueues(s: State)
    requires Queues(s) && forall p :: p in s.panes ==> s.panes[p].blocks == []
    ensures Queues(s.(panes := map[], tree := [], pending := [], pendingCount := 0, exact := {}))
  {
    hide PaneBlocks, Sorted;
    assert forall b :: b in s.all ==> BlockOk(s, b);
    AllTexts(s.all, s.owner, s.tree);
  }

  lemma ResetOffsetsKeeps(s: State, e: Env, ignoring: bool)
    requires Inv(s, e)
    ensures Inv(ResetOffsets(s).(ignoring := ignoring), e)
  {
    hide Queues, Ordering, Discard, Notices, Depth, NoticesOutside, Sizes, Follow;
    DiscardFirm(s, e);
    var t := Discard(s);
    DropPanesQueues(t);
    var r := ResetOffsets(s);
    OrderingFrame(t, r);
    FirmFlags(r, e, r.exit, r.dead, ignoring);
  }

  // Telling the client to exit and discarding its output.
  function Exit(s: State): State {
    var t := Discard(s.(exit := true));
    t.(raised := t.raised.(held := false))
  }

  // Telling the client to exit and leaving its output to be discarded later.
  function Detach(s: State): State {
    s.(exit := true, raised := s.raised.(held := s.raised.held || !s.exit))
  }

  lemma ExitKeeps(s: State, e: Env)
    requires Inv(s, e)
    ensures Inv(Exit(s), e)
  {
    hide Firm, Discard, Notices, Depth, NoticesOutside, Sizes;
    FirmFlags(s, e, true, s.dead, s.ignoring);
    DiscardFirm(s.(exit := true), e);
    FirmRaised(Discard(s.(exit := true)), e, Exit(s).raised);
  }

  lemma DetachKeeps(s: State, e: Env)
    requires Inv(s, e)
    ensures Inv(Detach(s), e)
  {
    hide Firm, Guards;
    FirmFlags(s, e, true, s.dead, s.ignoring);
    FirmRaised(s.(exit := true), e, Detach(s).raised);
    GuardsFrame(s, Detach(s));
  }

  // server_client_suspend, for a client with a session; nothing is discarded.
  function Suspend(s: State): State {
    if s.raised.suspended || s.exit then s else s.(raised := s.raised.(suspended := true))
  }

  // The client has been woken.
  function Wake(s: State): State {
    s.(raised := s.raised.(suspended := false))
  }

  lemma SuspendKeeps(s: State, e: Env)
    requires Inv(s, e)
    ensures Inv(Suspend(s), e) && Inv(Wake(s), e)
  {
    hide Firm, Guards;
    RaisedKeeps(s, e, Suspend(s).raised);
    RaisedKeeps(s, e, Wake(s).raised);
    assert Suspend(s) == s.(raised := Suspend(s).raised);
  }

  lemma RaisedKeeps(s: State, e: Env, raised: Raised)
    requires Inv(s, e) && raised.held == s.raised.held
    ensures Inv(s.(raised := raised), e)
  {
    hide Firm, Guards;
    FirmRaised(s, e, raised);
    GuardsFrame(s, s.(raised := raised));
  }

  lemma FirmRaised(s: State, e: Env, raised: Raised)
    requires Firm(s, e)
    ensures Firm(s.(raised := raised), e)
  {
    hide PaneOk, PaneBlocks, Follow, Texts, Lines, Sorted, ReplySum;
    var r := s.(raised := raised);
    assert forall b :: BlockOk(s, b) <==> BlockOk(r, b);
  }
}
